/** The `int4` container of Code/src/int4.cpp: four `cl_int` component arrays
  * with their defaults, and `init`, which packs them into an interleaved array,
  * hands it to a new vertex buffer and makes an OpenCL buffer from that buffer.
  */
module Int4Buffer {
  import opened Handles
  import opened Interleaving

  class Int4 {
    var x: array<int>
    var y: array<int>
    var z: array<int>
    var w: array<int>
    var size: nat
    var vao: nat
    var vbo: nat
    var buffer: Option<MemObject>
    var layout0: nat
    var context: nat

    /** The component arrays all hold `size` elements. */
    predicate Valid()
      reads this
    {
      x.Length == size && y.Length == size && z.Length == size && w.Length == size
    }

    /** Allocates the components, with no GL or CL object yet and layout 0, keeps
      * the OpenCL context, and gives every element the default (0, 0, 0, 1). */
    constructor(theContext: nat, numData: nat)
      ensures Valid() && size == numData
      ensures fresh(x) && fresh(y) && fresh(z) && fresh(w)
      ensures vao == 0 && vbo == 0 && buffer == None && layout0 == 0 && context == theContext
      ensures forall i :: 0 <= i < size ==> x[i] == 0 && y[i] == 0 && z[i] == 0 && w[i] == 1
    {
      var xs := new int[numData];
      var ys := new int[numData];
      var zs := new int[numData];
      var ws := new int[numData];
      for i := 0 to numData
        invariant forall j :: 0 <= j < i ==> xs[j] == 0 && ys[j] == 0 && zs[j] == 0 && ws[j] == 1
      {
        xs[i] := 0;
        ys[i] := 0;
        zs[i] := 0;
        ws[i] := 1;
      }
      x, y, z, w := xs, ys, zs, ws;
      size := numData;
      vao, vbo, buffer := 0, 0, None;
      layout0 := 0;
      context := theContext;
    }

    /** `init`: packs the components into `4 * size` slots, slot `4*i + k` holding
      * component `k` of element `i` (the data given to the new vertex buffer),
      * records the new VAO and VBO, and keeps the OpenCL buffer shared with that
      * VBO. The components themselves are left as they were. */
    method Init(newVao: nat, newVbo: nat, newBuffer: nat) returns (data: array<int>)
      requires Valid()
      modifies this
      ensures Valid()
      ensures fresh(data) && data.Length == 4 * size
      ensures data[..] == Interleave(x[..], y[..], z[..], w[..])
      ensures vao == newVao && vbo == newVbo && buffer == Some(SharedWithGl(newBuffer, newVbo))
      ensures x == old(x) && y == old(y) && z == old(z) && w == old(w) && size == old(size)
      ensures layout0 == old(layout0) && context == old(context)
    {
      data := Pack(x, y, z, w, size);
      vao := newVao;
      vbo := newVbo;
      buffer := Some(SharedWithGl(newBuffer, newVbo));
    }
  }
}
