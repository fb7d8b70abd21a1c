/** The `text4` object of Code/src/opencl.cpp: its constructor runs the text
  * layout loop by loop, filling freshly allocated arrays, and each loop is
  * proved to compute the layout functions of module TextLayout.
  */
module Text4 {
  import opened Fonts
  import opened TextLayout

  /** The two range tests of the per-character loop: a glyph character selects
    * its own glyph with the small kern, a space glyph 0 with no data and the
    * wide kern. */
  method ClassifyChar(f: Font, c: char) returns (code: int, item: int, numdata: int, kern: int)
    requires WellFormed(f) && Printable(c)
    ensures code == c as int && item == Item(c) && numdata == CharNumdata(f, c) && kern == CharKern(c)
  {
    code := c as int;
    if AsciiFirst <= code <= AsciiLast {
      item := code - AsciiFirst;
      numdata := f.numdata[item];
      kern := SpaceLittle;
    }
    if code == AsciiSpace {
      item := 0;
      numdata := 0;
      kern := SpaceLittle + SpaceBig;
    }
  }

  /** The per-character loop: classifies every character and accumulates the
    * totals `num_data`, `num_points` and `num_strokes`. */
  method Classify(f: Font, text: string)
    returns (code: array<int>, item: array<int>, numdata: array<int>, numpoints: array<int>,
             numstrokes: array<int>, charKern: array<int>, numData: nat, numPoints: nat, numStrokes: nat)
    requires WellFormed(f) && AllPrintable(text)
    ensures fresh(code) && fresh(item) && fresh(numdata) && fresh(numpoints) && fresh(numstrokes) && fresh(charKern)
    ensures code.Length == item.Length == numdata.Length == |text|
    ensures numpoints.Length == numstrokes.Length == charKern.Length == |text|
    ensures forall i :: 0 <= i < |text| ==>
              && code[i] == text[i] as int && item[i] == Item(text[i])
              && numdata[i] == CharNumdata(f, text[i]) && charKern[i] == CharKern(text[i])
              && numpoints[i] == CharNumpoints(f, text[i]) && numstrokes[i] == CharNumstrokes(f, text[i])
    ensures numData == NumData(f, text, |text|)
    ensures numPoints == NumPoints(f, text, |text|)
    ensures numStrokes == NumStrokes(f, text, |text|)
  {
    code := new int[|text|];
    item := new int[|text|];
    numdata := new int[|text|];
    numpoints := new int[|text|];
    numstrokes := new int[|text|];
    charKern := new int[|text|];
    numData, numPoints, numStrokes := 0, 0, 0;
    for i := 0 to |text|
      invariant forall m :: 0 <= m < i ==>
                  && code[m] == text[m] as int && item[m] == Item(text[m])
                  && numdata[m] == CharNumdata(f, text[m]) && charKern[m] == CharKern(text[m])
                  && numpoints[m] == numdata[m] / 2 && numstrokes[m] == numpoints[m] / 2
      invariant numData == NumData(f, text, i)
      invariant numPoints == NumPoints(f, text, i)
      invariant numStrokes == NumStrokes(f, text, i)
    {
      var c, k, n, kn := ClassifyChar(f, text[i]);
      var np := n / 2;
      var ns := np / 2;
      code[i], item[i], numdata[i], charKern[i], numpoints[i], numstrokes[i] := c, k, n, kn, np, ns;
      numData := numData + n;
      numPoints := numPoints + np;
      numStrokes := numStrokes + ns;
    }
  }

  /** The inner loop of the `data_index` fill: `n` consecutive positions from
    * `start`, written from `k` on. The entries before `k` and from `k + n` on
    * are kept. */
  method FillRun(dataIndex: array<int>, k: nat, start: int, n: nat)
    requires k + n <= dataIndex.Length
    modifies dataIndex
    ensures dataIndex[..k + n] == old(dataIndex[..k]) + Run(start, n)
    ensures dataIndex[k + n..] == old(dataIndex[k + n..])
  {
    for j := 0 to n
      invariant dataIndex[..k] == old(dataIndex[..k])
      invariant dataIndex[k + n..] == old(dataIndex[k + n..])
      invariant forall m :: k <= m < k + j ==> dataIndex[m] == start + (m - k)
    {
      dataIndex[k + j] := start + j;
    }
  }

  /** The nested loop that fills `data_index`: character `i`'s data positions
    * are the run from `font_index[char_item[i]]`, written at the running count `k`. */
  method FillDataIndex(f: Font, text: string, item: array<int>, numdata: array<int>, numData: nat)
    returns (dataIndex: array<int>)
    requires WellFormed(f) && AllPrintable(text)
    requires item.Length == numdata.Length == |text|
    requires forall i :: 0 <= i < |text| ==> item[i] == Item(text[i]) && numdata[i] == CharNumdata(f, text[i])
    requires numData == NumData(f, text, |text|)
    ensures fresh(dataIndex)
    ensures dataIndex[..] == DataIndex(f, text, |text|)
  {
    dataIndex := new int[numData];
    var k := 0;
    for i := 0 to |text|
      invariant k == NumData(f, text, i) <= numData
      invariant dataIndex[..k] == DataIndex(f, text, i)
    {
      DataIndexPrefix(f, text, i + 1, |text|);
      FillRun(dataIndex, k, f.index[item[i]], numdata[i]);
      k := k + numdata[i];
    }
    assert dataIndex[..] == dataIndex[..k];
  }

  /** The inner loop of the kern and offset fill: `n` points from `k` on get the
    * character's kern and the current shift. The entries before `k` and from
    * `k + n` on are kept. */
  method FillPoints(kern: array<int>, offset: array<int>, k: nat, charKern: int, shift: int, n: nat)
    requires kern != offset
    requires k + n <= kern.Length && k + n <= offset.Length
    modifies kern, offset
    ensures kern[..k + n] == old(kern[..k]) + Repeat(charKern, n)
    ensures offset[..k + n] == old(offset[..k]) + Repeat(shift, n)
    ensures kern[k + n..] == old(kern[k + n..]) && offset[k + n..] == old(offset[k + n..])
  {
    for j := 0 to n
      invariant kern[..k] == old(kern[..k])
      invariant offset[..k] == old(offset[..k])
      invariant kern[k + n..] == old(kern[k + n..]) && offset[k + n..] == old(offset[k + n..])
      invariant forall m :: k <= m < k + j ==> kern[m] == charKern && offset[m] == shift
    {
      kern[k + j] := charKern;
      offset[k + j] := shift;
    }
  }

  /** The nested loop that fills `kern` and `offset`: character `i`'s points
    * get its kern and the running `shift`, which then grows by the width of the
    * glyph the character looks up. */
  method FillKernOffset(f: Font, text: string, item: array<int>, numpoints: array<int>,
                        charKern: array<int>, numPoints: nat)
    returns (kern: array<int>, offset: array<int>)
    requires WellFormed(f) && AllPrintable(text)
    requires item.Length == numpoints.Length == charKern.Length == |text|
    requires forall i :: 0 <= i < |text| ==>
               item[i] == Item(text[i]) && numpoints[i] == CharNumpoints(f, text[i]) && charKern[i] == CharKern(text[i])
    requires numPoints == NumPoints(f, text, |text|)
    ensures fresh(kern) && fresh(offset)
    ensures kern[..] == Kerns(f, text, |text|)
    ensures offset[..] == Offsets(f, text, |text|)
  {
    kern := new int[numPoints];
    offset := new int[numPoints];
    var k := 0;
    var shift := 0;
    for i := 0 to |text|
      invariant k == NumPoints(f, text, i) <= numPoints
      invariant shift == Shift(f, text, i)
      invariant kern[..k] == Kerns(f, text, i)
      invariant offset[..k] == Offsets(f, text, i)
    {
      KernsPrefix(f, text, i + 1, |text|);
      FillPoints(kern, offset, k, charKern[i], shift, numpoints[i]);
      k := k + numpoints[i];
      shift := shift + f.width[item[i]];
    }
    assert kern[..] == kern[..k];
    assert offset[..] == offset[..k];
  }

  /** The geometry half of the unwrapping loop: point `i` takes its x from the
    * even data entry, its y from the odd one, z = 0 and w = 1. */
  method UnwrapGlyph(f: Font, dataIndex: array<int>, offset: array<int>, kern: array<int>, numPoints: nat)
    returns (x: array<int>, y: array<int>, z: array<int>, w: array<int>)
    requires Unwrappable(f, dataIndex[..], offset[..], kern[..], numPoints)
    ensures fresh(x) && fresh(y) && fresh(z) && fresh(w)
    ensures x.Length == y.Length == z.Length == w.Length == numPoints
    ensures forall i :: 0 <= i < numPoints ==>
              && x[i] == UnwrappedX(f, dataIndex[..], offset[..], kern[..], numPoints, i)
              && y[i] == UnwrappedY(f, dataIndex[..], numPoints, i)
              && z[i] == 0 && w[i] == 1
  {
    x, y, z, w := new int[numPoints], new int[numPoints], new int[numPoints], new int[numPoints];
    for i := 0 to numPoints
      invariant forall m :: 0 <= m < i ==>
                  && x[m] == UnwrappedX(f, dataIndex[..], offset[..], kern[..], numPoints, m)
                  && y[m] == UnwrappedY(f, dataIndex[..], numPoints, m)
                  && z[m] == 0 && w[m] == 1
    {
      var even := 2 * i;
      var odd := 2 * i + 1;
      x[i] := f.vertex[dataIndex[even]] - f.vertex[dataIndex[0]] + offset[i] + kern[i];
      y[i] := f.vertex[dataIndex[odd]];
      z[i] := 0;
      w[i] := 1;
    }
  }

  /** The colour half of the unwrapping loop: every point gets the colour given
    * to the text. */
  method UnwrapColor<C(0)>(numPoints: nat, R: C, G: C, B: C, A: C)
    returns (r: array<C>, g: array<C>, b: array<C>, a: array<C>)
    ensures fresh(r) && fresh(g) && fresh(b) && fresh(a)
    ensures r.Length == g.Length == b.Length == a.Length == numPoints
    ensures forall i :: 0 <= i < numPoints ==> r[i] == R && g[i] == G && b[i] == B && a[i] == A
  {
    r, g, b, a := new C[numPoints], new C[numPoints], new C[numPoints], new C[numPoints];
    for i := 0 to numPoints
      invariant forall m :: 0 <= m < i ==> r[m] == R && g[m] == G && b[m] == B && a[m] == A
    {
      r[i] := R;
      g[i] := G;
      b[i] := B;
      a[i] := A;
    }
  }

  /** A text laid out as points of the vector font `f`, with one colour. */
  class Text4<C(0)> {
    var numChar: nat
    var numData: nat
    var numPoints: nat
    var numStrokes: nat
    var charCode: array<int>
    var charItem: array<int>
    var charNumdata: array<int>
    var charNumpoints: array<int>
    var charNumstrokes: array<int>
    var charKern: array<int>
    var dataIndex: array<int>
    var kern: array<int>
    var offset: array<int>
    var x: array<int>
    var y: array<int>
    var z: array<int>
    var w: array<int>
    var r: array<C>
    var g: array<C>
    var b: array<C>
    var a: array<C>
    var size: nat
    var glyphVao: nat
    var colorVao: nat
    var glyphVbo: nat
    var colorVbo: nat

    /** Lays out `text`: the per-character tables, the totals, the data indices,
      * kerns and offsets, and one point per vertex pair, all in the given colour. */
    constructor(f: Font, text: string, R: C, G: C, B: C, A: C)
      requires WellFormed(f) && AllPrintable(text)
      ensures numChar == |text|
      ensures numData == NumData(f, text, |text|)
      ensures numPoints == NumPoints(f, text, |text|) && size == numPoints
      ensures numStrokes == NumStrokes(f, text, |text|)
      ensures charCode.Length == charItem.Length == charNumdata.Length == |text|
      ensures charNumpoints.Length == charNumstrokes.Length == charKern.Length == |text|
      ensures forall i :: 0 <= i < |text| ==>
                && charCode[i] == text[i] as int && charItem[i] == Item(text[i])
                && charNumdata[i] == CharNumdata(f, text[i]) && charKern[i] == CharKern(text[i])
                && charNumpoints[i] == CharNumpoints(f, text[i]) && charNumstrokes[i] == CharNumstrokes(f, text[i])
      ensures dataIndex[..] == DataIndex(f, text, |text|)
      ensures kern[..] == Kerns(f, text, |text|) && offset[..] == Offsets(f, text, |text|)
      ensures x.Length == y.Length == z.Length == w.Length == size
      ensures r.Length == g.Length == b.Length == a.Length == size
      ensures forall i :: 0 <= i < size ==>
                x[i] == PointX(f, text, i) && y[i] == PointY(f, text, i) && z[i] == 0 && w[i] == 1
      ensures forall i :: 0 <= i < size ==> r[i] == R && g[i] == G && b[i] == B && a[i] == A
      ensures glyphVao == 0 && colorVao == 0 && glyphVbo == 0 && colorVbo == 0
    {
      var code, item, nd, np, ns, ck, totalData, totalPoints, totalStrokes := Classify(f, text);
      var di := FillDataIndex(f, text, item, nd, totalData);
      var kn, off := FillKernOffset(f, text, item, np, ck, totalPoints);
      LayoutUnwrappable(f, text);
      var xs, ys, zs, ws := UnwrapGlyph(f, di, off, kn, totalPoints);
      var reds, greens, blues, alphas := UnwrapColor(totalPoints, R, G, B, A);
      numChar, numData, numPoints, numStrokes := |text|, totalData, totalPoints, totalStrokes;
      charCode, charItem, charNumdata, charNumpoints, charNumstrokes, charKern := code, item, nd, np, ns, ck;
      dataIndex, kern, offset := di, kn, off;
      x, y, z, w := xs, ys, zs, ws;
      r, g, b, a := reds, greens, blues, alphas;
      size := totalPoints;
      glyphVao, colorVao, glyphVbo, colorVbo := 0, 0, 0, 0;
    }
  }
}
