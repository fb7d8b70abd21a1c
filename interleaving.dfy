/** The structure-of-arrays to interleaved packing shared by the four-component
  * containers of Code/src/opencl.cpp and Code/src/int4.cpp: four component
  * arrays `x`, `y`, `z`, `w` of one length become one array whose slot `4*i + k`
  * holds component `k` of element `i`.
  */
module Interleaving {

  /** The four components in the interleaved order, element after element. */
  function Interleave<T>(x: seq<T>, y: seq<T>, z: seq<T>, w: seq<T>): (d: seq<T>)
    requires |y| == |x| && |z| == |x| && |w| == |x|
    ensures |d| == 4 * |x|
    ensures forall i :: 0 <= i < |x| ==>
              d[4 * i] == x[i] && d[4 * i + 1] == y[i] && d[4 * i + 2] == z[i] && d[4 * i + 3] == w[i]
  {
    if |x| == 0 then []
    else [x[0], y[0], z[0], w[0]] + Interleave(x[1..], y[1..], z[1..], w[1..])
  }

  /** Component `k` read back from an interleaved array: slot `4*i + k` for every element `i`. */
  function Component<T>(d: seq<T>, k: nat): (c: seq<T>)
    requires k < 4
    ensures |c| == |d| / 4
  {
    seq(|d| / 4, i requires 0 <= i < |d| / 4 => d[4 * i + k])
  }

  /** Packing is lossless: reading back each component reproduces it. */
  lemma ComponentsOfInterleave<T>(x: seq<T>, y: seq<T>, z: seq<T>, w: seq<T>)
    requires |y| == |x| && |z| == |x| && |w| == |x|
    ensures var d := Interleave(x, y, z, w);
            Component(d, 0) == x && Component(d, 1) == y && Component(d, 2) == z && Component(d, 3) == w
  {
    var d := Interleave(x, y, z, w);
    ComponentOf(d, 0, x);
    ComponentOf(d, 1, y);
    ComponentOf(d, 2, z);
    ComponentOf(d, 3, w);
  }

  /** A sequence that agrees with slot `4*i + k` of every element is component `k`. */
  lemma ComponentOf<T>(d: seq<T>, k: nat, c: seq<T>)
    requires k < 4 && |d| == 4 * |c|
    requires forall i :: 0 <= i < |c| ==> d[4 * i + k] == c[i]
    ensures Component(d, k) == c
  {
  }

  /** Slot `m` of an array of elements of four is component `m % 4` of element `m / 4`. */
  lemma SlotSplit(m: nat)
    ensures m == 4 * (m / 4) + m % 4 && m % 4 < 4
  {
  }

  /** Conversely, an array whose length is a multiple of four is the interleaving
    * of its four components: packing loses nothing and adds nothing. */
  lemma InterleaveOfComponents<T>(d: seq<T>)
    requires |d| % 4 == 0
    ensures Interleave(Component(d, 0), Component(d, 1), Component(d, 2), Component(d, 3)) == d
  {
    var e := Interleave(Component(d, 0), Component(d, 1), Component(d, 2), Component(d, 3));
    forall m | 0 <= m < |d|
      ensures e[m] == d[m]
    {
      SlotSplit(m);
      var i, k := m / 4, m % 4;
      assert e[4 * i + k] == Component(d, k)[i];
    }
  }

  /** Packing loop: one pass over the elements, four slots written per element.
    * The result holds exactly the interleaving of the component arrays. */
  method Pack<T(0)>(x: array<T>, y: array<T>, z: array<T>, w: array<T>, size: nat) returns (data: array<T>)
    requires x.Length == size && y.Length == size && z.Length == size && w.Length == size
    ensures fresh(data)
    ensures data[..] == Interleave(x[..], y[..], z[..], w[..])
  {
    data := new T[4 * size];
    for i := 0 to size
      invariant forall j :: 0 <= j < i ==>
                  data[4 * j] == x[j] && data[4 * j + 1] == y[j] && data[4 * j + 2] == z[j] && data[4 * j + 3] == w[j]
    {
      data[4 * i + 0] := x[i];
      data[4 * i + 1] := y[i];
      data[4 * i + 2] := z[i];
      data[4 * i + 3] := w[i];
    }
    InterleavedSlots(data[..], x[..], y[..], z[..], w[..]);
  }

  /** An array that agrees with the interleaving at every element's four slots is that interleaving. */
  lemma InterleavedSlots<T>(d: seq<T>, x: seq<T>, y: seq<T>, z: seq<T>, w: seq<T>)
    requires |y| == |x| && |z| == |x| && |w| == |x| && |d| == 4 * |x|
    requires forall j :: 0 <= j < |x| ==>
               d[4 * j] == x[j] && d[4 * j + 1] == y[j] && d[4 * j + 2] == z[j] && d[4 * j + 3] == w[j]
    ensures d == Interleave(x, y, z, w)
  {
    assert Component(d, 0) == x && Component(d, 1) == y;
    assert Component(d, 2) == z && Component(d, 3) == w;
    InterleaveOfComponents(d);
  }
}
