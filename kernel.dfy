/** The bookkeeping of the `kernel` class of Code/src/kernel.cpp: its fresh
  * state, the parts of `init` that build the kernel file names and register the
  * new kernel id in the first free slot of the baseline's table, and the
  * `ready`/`layout` logic shared by every `setarg` overload.
  *
  * OpenCL objects (programs, kernels, buffers) and OpenGL objects (VAOs, VBOs)
  * are the numbers the foreign calls would return, passed in by the caller.
  */
module Kernel {
  import opened Handles

  /** The platforms `init` tells apart when it picks the path separator. */
  datatype Os = Linux | Apple | Windows | OtherOs

  /** The separator `init` puts between the kernel home and a file name: "/" on
    * Linux and Apple, a backslash on Windows, and the empty string it starts
    * from on any other platform. */
  function Slash(os: Os): (s: string)
    ensures os == Windows <==> s == "\\"
    ensures os == Linux || os == Apple <==> s == "/"
    ensures s == "" <==> os == OtherOs
  {
    match os
    case Linux => "/"
    case Apple => "/"
    case Windows => "\\"
    case OtherOs => ""
  }

  /** The full names `init` builds: each file name prefixed by the home
    * directory and the separator, in input order. */
  function FileNames(home: string, slash: string, names: seq<string>): (paths: seq<string>)
    ensures |paths| == |names|
  {
    if |names| == 0 then []
    else FileNames(home, slash, names[..|names| - 1]) + [home + slash + names[|names| - 1]]
  }

  /** Entry `i` of the built names is the home directory, the separator and
    * file name `i`, for every `i`. */
  lemma {:induction false} FileNameAt(home: string, slash: string, names: seq<string>, i: nat)
    requires i < |names|
    ensures FileNames(home, slash, names)[i] == home + slash + names[i]
    decreases |names|
  {
    var prefix := names[..|names| - 1];
    if i < |names| - 1 {
      FileNameAt(home, slash, prefix, i);
    }
  }

  /** The loop of `init` that pushes one full file name per input name onto
    * the names already held. */
  method AppendFileNames(held: seq<string>, home: string, slash: string, names: seq<string>) returns (paths: seq<string>)
    ensures paths == held + FileNames(home, slash, names)
  {
    paths := held;
    for i := 0 to |names|
      invariant paths == held + FileNames(home, slash, names[..i])
    {
      assert names[..i + 1][..i] == names[..i];
      paths := paths + [home + slash + names[i]];
    }
    assert names[..|names|] == names;
  }

  /** The index of the first NULL slot of the kernel id table, if there is one. */
  function FirstNull(slots: seq<Option<nat>>): (r: Option<nat>)
    ensures r.None? <==> forall j :: 0 <= j < |slots| ==> slots[j].Some?
    ensures r.Some? ==> r.value < |slots| && slots[r.value].None?
    ensures r.Some? ==> forall j :: 0 <= j < r.value ==> slots[j].Some?
  {
    if |slots| == 0 then None
    else if slots[0].None? then Some(0)
    else match FirstNull(slots[1..])
      case None => None
      case Some(i) => Some(i + 1)
  }

  /** The table after `init` registers kernel `id`: the first NULL slot, if any,
    * holds `id`, and every other slot is as before. */
  function Register(slots: seq<Option<nat>>, id: nat): seq<Option<nat>>
  {
    match FirstNull(slots)
    case None => slots
    case Some(i) => slots[i := Some(id)]
  }

  /** Registration writes only the first free slot: slots before it were already
    * taken, slots after it are untouched, and a full table is left as it was. */
  lemma RegisterFillsFirstFree(slots: seq<Option<nat>>, id: nat)
    ensures |Register(slots, id)| == |slots|
    ensures (forall j :: 0 <= j < |slots| ==> slots[j].Some?) ==> Register(slots, id) == slots
    ensures forall i :: 0 <= i < |slots| && slots[i].None? && (forall j :: 0 <= j < i ==> slots[j].Some?) ==>
              Register(slots, id)[i] == Some(id)
              && (forall j :: 0 <= j < |slots| && j != i ==> Register(slots, id)[j] == slots[j])
  {
    match FirstNull(slots)
    case None =>
    case Some(f) =>
      forall i | 0 <= i < |slots| && slots[i].None? && (forall j :: 0 <= j < i ==> slots[j].Some?)
        ensures i == f
      {
      }
  }

  /** The neutrino baseline as far as kernels use it: the table of kernel ids,
    * whether OpenCL/OpenGL interoperability is on, and the OpenCL context. */
  class Baseline {
    var kernelId: array<Option<nat>>
    var interop: bool
    var contextId: nat

    constructor(kNum: nat, interop: bool, contextId: nat)
      ensures fresh(kernelId) && kernelId.Length == kNum
      ensures forall i :: 0 <= i < kNum ==> kernelId[i] == None
      ensures this.interop == interop && this.contextId == contextId
    {
      kernelId := new Option<nat>[kNum](_ => None);
      this.interop := interop;
      this.contextId := contextId;
    }
  }

  /** The scan at the end of `init`: stops at the first NULL slot, writes the
    * kernel id there and leaves; a full table is not written. */
  method RegisterKernelId(slots: array<Option<nat>>, id: nat)
    modifies slots
    ensures slots[..] == Register(old(slots[..]), id)
  {
    var i := 0;
    while i < slots.Length
      invariant 0 <= i <= slots.Length
      invariant slots[..] == old(slots[..])
      invariant forall j :: 0 <= j < i ==> slots[j].Some?
    {
      if slots[i] == None {
        slots[i] := Some(id);
        return;
      }
      i := i + 1;
    }
  }

  /** The kinds of kernel argument `setarg` is overloaded on. The `G` kinds live
    * in an OpenGL vertex buffer as well. */
  datatype ArgKind = Int1 | Int2 | Int3 | Int4 | Float1 | Float1G | Float2 | Float3 | Float4 | Float4G

  predicate IsGraphic(kind: ArgKind)
  {
    kind == Float1G || kind == Float4G
  }

  /** The fields of an argument that `setarg` reads and writes. */
  datatype ArgState = ArgState(layout: nat, ready: bool, buffer: Option<MemObject>, vao: nat, vbo: nat)

  /** What one `setarg` call does to an argument of kind `kind`: the layout is
    * always the given index; the first call (not yet `ready`) creates the
    * buffer, with a new VAO and VBO for the `G` kinds, whose buffer is shared
    * with the VBO exactly when interoperability is on; later calls keep it. */
  function SetArgState(kind: ArgKind, interop: bool, s: ArgState, index: nat, newVao: nat, newVbo: nat, newBuffer: nat): ArgState
  {
    if s.ready then s.(layout := index)
    else if IsGraphic(kind) then
      ArgState(index, true, Some(if interop then SharedWithGl(newBuffer, newVbo) else DeviceBuffer(newBuffer)), newVao, newVbo)
    else
      s.(layout := index, ready := true, buffer := Some(DeviceBuffer(newBuffer)))
  }

  /** Every call sets the layout and leaves the argument ready with a buffer. */
  lemma SetArgSetsLayout(kind: ArgKind, interop: bool, s: ArgState, index: nat, newVao: nat, newVbo: nat, newBuffer: nat)
    requires s.ready ==> s.buffer.Some?
    ensures var t := SetArgState(kind, interop, s, index, newVao, newVbo, newBuffer);
            t.layout == index && t.ready && t.buffer.Some?
  {
  }

  /** A buffer is created only when the argument is not ready: otherwise the
    * buffer, VAO and VBO are kept. */
  lemma SetArgCreatesOnlyWhenNotReady(kind: ArgKind, interop: bool, s: ArgState, index: nat, newVao: nat, newVbo: nat, newBuffer: nat)
    ensures var t := SetArgState(kind, interop, s, index, newVao, newVbo, newBuffer);
            && (s.ready ==> t == s.(layout := index))
            && (!s.ready ==> t.buffer.Some? && t.buffer.value.id == newBuffer)
  {
  }

  /** Creation is idempotent: a second call, whatever objects it is offered,
    * changes nothing but the layout. */
  lemma SetArgIdempotent(kind: ArgKind, interop: bool, s: ArgState, i: nat, j: nat,
                         vao1: nat, vbo1: nat, buf1: nat, vao2: nat, vbo2: nat, buf2: nat)
    ensures var t := SetArgState(kind, interop, s, i, vao1, vbo1, buf1);
            SetArgState(kind, interop, t, j, vao2, vbo2, buf2) == t.(layout := j)
  {
  }

  /** The buffer a first call creates is shared with the new VBO exactly for a
    * `G` kind with interoperability on, and a plain copy otherwise; only the
    * `G` kinds get a new VAO and VBO. */
  lemma SetArgBufferKind(kind: ArgKind, interop: bool, s: ArgState, index: nat, newVao: nat, newVbo: nat, newBuffer: nat)
    requires !s.ready
    ensures var t := SetArgState(kind, interop, s, index, newVao, newVbo, newBuffer);
            && (t.buffer == Some(SharedWithGl(newBuffer, newVbo)) <==> IsGraphic(kind) && interop)
            && (t.buffer == Some(DeviceBuffer(newBuffer)) <==> !(IsGraphic(kind) && interop))
            && (IsGraphic(kind) ==> t.vao == newVao && t.vbo == newVbo)
            && (!IsGraphic(kind) ==> t.vao == s.vao && t.vbo == s.vbo)
  {
  }

  /** A kernel argument: its kind and the fields `setarg` updates. */
  class KernelArg {
    const kind: ArgKind
    var layout: nat
    var ready: bool
    var buffer: Option<MemObject>
    var vao: nat
    var vbo: nat

    constructor(kind: ArgKind)
      ensures this.kind == kind && !ready && buffer == None && layout == 0 && vao == 0 && vbo == 0
    {
      this.kind := kind;
      layout := 0;
      ready := false;
      buffer := None;
      vao := 0;
      vbo := 0;
    }

    function State(): ArgState
      reads this
    {
      ArgState(layout, ready, buffer, vao, vbo)
    }
  }

  class Kernel {
    var program: Option<nat>
    var event: Option<nat>
    var kernelId: Option<nat>
    var sizeI: nat
    var sizeJ: nat
    var sizeK: nat
    var baseline: Baseline?
    var kernelHome: string
    var kernelFileName: seq<string>
    var compilerOptions: string

    /** A fresh kernel: no program, event or kernel id, and all sizes 0. */
    constructor()
      ensures program == None && event == None && kernelId == None
      ensures sizeI == 0 && sizeJ == 0 && sizeK == 0
      ensures kernelFileName == [] && baseline == null
    {
      program, event, kernelId := None, None, None;
      sizeI, sizeJ, sizeK := 0, 0, 0;
      baseline := null;
      kernelHome, kernelFileName, compilerOptions := "", [], "";
    }

    /** The bookkeeping of `init`: it keeps the baseline, the sizes and the home
      * directory, appends one full file name per input name in input order,
      * keeps the new program and kernel, and registers the kernel id in the
      * first free slot of the baseline's table. */
    method Init(b: Baseline, home: string, names: seq<string>, si: nat, sj: nat, sk: nat, os: Os,
                newProgram: nat, newKernel: nat)
      modifies this, b.kernelId
      ensures baseline == b && sizeI == si && sizeJ == sj && sizeK == sk
      ensures kernelHome == home && compilerOptions == ""
      ensures kernelFileName == old(kernelFileName) + FileNames(home, Slash(os), names)
      ensures program == Some(newProgram) && kernelId == Some(newKernel)
      ensures event == old(event)
      ensures b.kernelId[..] == Register(old(b.kernelId[..]), newKernel)
    {
      var fileNames := AppendFileNames(kernelFileName, home, Slash(os), names);
      RegisterKernelId(b.kernelId, newKernel);
      baseline := b;
      sizeI, sizeJ, sizeK := si, sj, sk;
      kernelHome := home;
      compilerOptions := "";
      kernelFileName := fileNames;
      program := Some(newProgram);
      kernelId := Some(newKernel);
    }

    /** One `setarg` call on `arg` with layout `index`. */
    method SetArg(arg: KernelArg, index: nat, newVao: nat, newVbo: nat, newBuffer: nat)
      requires baseline != null
      modifies arg
      ensures arg.State() == SetArgState(arg.kind, baseline.interop, old(arg.State()), index, newVao, newVbo, newBuffer)
    {
      arg.layout := index;
      if !arg.ready {
        if IsGraphic(arg.kind) {
          arg.vao := newVao;
          arg.vbo := newVbo;
          if baseline.interop {
            arg.buffer := Some(SharedWithGl(newBuffer, newVbo));
          } else {
            arg.buffer := Some(DeviceBuffer(newBuffer));
          }
        } else {
          arg.buffer := Some(DeviceBuffer(newBuffer));
        }
        arg.ready := true;
      }
    }
  }
}
