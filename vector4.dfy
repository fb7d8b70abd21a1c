/** The four-component containers `float4` and `int4` of Code/src/opencl.cpp, and
  * the packing step of `push_int4`. Both classes have the same fields and the
  * same constructor and differ only in the element type (`GLfloat` or `GLint`),
  * so one class generic in the element type models both; `zero` and `one` are
  * that type's 0 and 1.
  */
module Vector4 {
  import opened Handles
  import opened Interleaving

  class Vector4<T(0)> {
    var x: array<T>
    var y: array<T>
    var z: array<T>
    var w: array<T>
    var data: array<T>
    var size: nat
    var vao: nat
    var vbo: nat
    var buffer: Option<MemObject>

    /** The component arrays all hold `size` elements and `data` four slots per element. */
    predicate Valid()
      reads this
    {
      && x.Length == size && y.Length == size && z.Length == size && w.Length == size
      && data.Length == 4 * size
    }

    /** Allocates the four component arrays and the interleaved array, with no GL or
      * CL object yet, and gives every element the default (0, 0, 0, 1), writing each
      * component and its slot of `data` together. */
    constructor(numData: nat, zero: T, one: T)
      ensures Valid() && size == numData
      ensures fresh(x) && fresh(y) && fresh(z) && fresh(w) && fresh(data)
      ensures vao == 0 && vbo == 0 && buffer == None
      ensures forall i :: 0 <= i < size ==> x[i] == zero && y[i] == zero && z[i] == zero && w[i] == one
      ensures data[..] == Interleave(x[..], y[..], z[..], w[..])
    {
      var xs, ys, zs, ws, d := Defaults(numData, zero, one);
      x, y, z, w, data := xs, ys, zs, ws, d;
      size := numData;
      vao, vbo, buffer := 0, 0, None;
    }
  }

  /** The allocation and filling loop of the constructors: every element gets the
    * default (0, 0, 0, 1), written into its component and into its slots of `data`
    * in the same step. */
  method Defaults<T(0)>(numData: nat, zero: T, one: T) returns (xs: array<T>, ys: array<T>, zs: array<T>, ws: array<T>, d: array<T>)
    ensures fresh(xs) && fresh(ys) && fresh(zs) && fresh(ws) && fresh(d)
    ensures xs.Length == numData && ys.Length == numData && zs.Length == numData && ws.Length == numData
    ensures forall i :: 0 <= i < numData ==> xs[i] == zero && ys[i] == zero && zs[i] == zero && ws[i] == one
    ensures d[..] == Interleave(xs[..], ys[..], zs[..], ws[..])
  {
    xs := new T[numData];
    ys := new T[numData];
    zs := new T[numData];
    ws := new T[numData];
    d := new T[4 * numData];
    for i := 0 to numData
      invariant forall j :: 0 <= j < i ==> xs[j] == zero && ys[j] == zero && zs[j] == zero && ws[j] == one
      invariant forall j :: 0 <= j < i ==> d[4 * j] == zero && d[4 * j + 1] == zero && d[4 * j + 2] == zero && d[4 * j + 3] == one
    {
      d[4 * i + 0], xs[i] := zero, zero;
      d[4 * i + 1], ys[i] := zero, zero;
      d[4 * i + 2], zs[i] := zero, zero;
      d[4 * i + 3], ws[i] := one, one;
    }
    InterleavedSlots(d[..], xs[..], ys[..], zs[..], ws[..]);
  }

  /** `push_int4`: packs the four components into a fresh array (the data given to
    * the vertex buffer), then records the new VAO and VBO and the OpenCL buffer
    * made from that VBO. The component arrays are left as they were. */
  method PushInt4(v: Vector4<int>, newVao: nat, newVbo: nat, newBuffer: nat) returns (unfolded: array<int>)
    requires v.Valid()
    modifies v
    ensures v.Valid()
    ensures fresh(unfolded)
    ensures unfolded[..] == Interleave(v.x[..], v.y[..], v.z[..], v.w[..])
    ensures v.vao == newVao && v.vbo == newVbo && v.buffer == Some(SharedWithGl(newBuffer, newVbo))
    ensures v.x == old(v.x) && v.y == old(v.y) && v.z == old(v.z) && v.w == old(v.w)
    ensures v.data == old(v.data) && v.size == old(v.size)
  {
    unfolded := Pack(v.x, v.y, v.z, v.w, v.size);
    v.vao := newVao;
    v.vbo := newVbo;
    v.buffer := Some(SharedWithGl(newBuffer, newVbo));
  }
}
