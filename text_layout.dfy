/** The text layout of the `text4` constructor in Code/src/opencl.cpp: a string
  * of printable characters becomes one point per glyph vertex, with the glyph
  * data looked up in a vector font, laid out left to right.
  *
  * This module gives the layout as functions of the font and the text, and the
  * lemmas that say what each point is. The font is any well-formed `Font`;
  * `Glyphs.Hershey()` is the one the source uses. Coordinates are the integers
  * the source computes before it multiplies them by `ASCII_SCALE`.
  */
module TextLayout {
  import opened HersheyTables
  import opened Fonts

  /** `ASCII_33` and `ASCII_126`: the characters that have a glyph. */
  const AsciiFirst := 33
  const AsciiLast := 126

  /** The code of the space character, which has no glyph. */
  const AsciiSpace := 32

  /** `ASCII_SPACE_LITTLE` and `ASCII_SPACE_BIG`: the kern of a character, and
    * what a space adds to it. */
  const SpaceLittle := 4
  const SpaceBig := 16

  /** The characters the layout gives a meaning to: the space and the glyph
    * characters. Any other code leaves the per-character values unset. */
  predicate Printable(c: char)
  {
    AsciiSpace <= c as int <= AsciiLast
  }

  predicate AllPrintable(text: string)
  {
    forall i :: 0 <= i < |text| ==> Printable(text[i])
  }

  /** `char_item`: the glyph looked up for a character. A space looks up glyph 0. */
  function Item(c: char): (k: nat)
    requires Printable(c)
    ensures k < GlyphCount
  {
    if AsciiFirst <= c as int <= AsciiLast then c as int - AsciiFirst else 0
  }

  /** `char_numdata`: how many integers of vertex data a character has; none for a space. */
  function CharNumdata(f: Font, c: char): (n: nat)
    requires WellFormed(f) && Printable(c)
    ensures n % 2 == 0
  {
    if AsciiFirst <= c as int <= AsciiLast then f.numdata[Item(c)] else 0
  }

  /** `char_kern`: the kern of a character, wider for a space. */
  function CharKern(c: char): (k: int)
    requires Printable(c)
    ensures SpaceLittle <= k
    ensures k == SpaceLittle + SpaceBig <==> c == ' '
  {
    if AsciiFirst <= c as int <= AsciiLast then SpaceLittle else SpaceLittle + SpaceBig
  }

  /** `char_numpoints`: one point per (x, y) pair. */
  function CharNumpoints(f: Font, c: char): (n: nat)
    requires WellFormed(f) && Printable(c)
    ensures 2 * n == CharNumdata(f, c)
  {
    CharNumdata(f, c) / 2
  }

  /** `char_numstrokes`: half the points, rounded down. */
  function CharNumstrokes(f: Font, c: char): (n: nat)
    requires WellFormed(f) && Printable(c)
    ensures 2 * n <= CharNumpoints(f, c) < 2 * n + 2
  {
    CharNumpoints(f, c) / 2
  }

  /** Every glyph is looked up by exactly one glyph character, which brings
    * that glyph's whole data count. */
  lemma ItemOnto(f: Font, k: nat)
    requires WellFormed(f) && k < GlyphCount
    ensures Printable((k + AsciiFirst) as char) && (k + AsciiFirst) as char != ' '
    ensures Item((k + AsciiFirst) as char) == k
    ensures CharNumdata(f, (k + AsciiFirst) as char) == f.numdata[k]
  {
  }

  /** Two printable characters share a glyph only when they are equal, or when
    * they are the space and `'!'`, which both look up glyph 0. */
  lemma ItemCollisions(c: char, d: char)
    requires Printable(c) && Printable(d)
    ensures Item(c) == Item(d) <==> c == d || (c == ' ' && d == '!') || (c == '!' && d == ' ')
  {
  }

  /** The space and `'!'` share glyph 0, but only `'!'` brings its data, and
    * the space gets the wider kern. */
  lemma SpaceSharesGlyphZero(f: Font)
    requires WellFormed(f)
    ensures Item(' ') == Item('!') == 0
    ensures CharNumdata(f, ' ') == 0 && CharNumdata(f, '!') == f.numdata[0]
    ensures CharKern(' ') == CharKern('!') + SpaceBig
  {
  }

  /* The layout is built character by character, so every quantity below is
   * given for the first `q` characters of the text; the constructor's values
   * are those for `q == |text|`. */

  /** `num_data`: the sum of the characters' data counts. */
  function NumData(f: Font, text: string, q: nat): nat
    requires WellFormed(f) && AllPrintable(text) && q <= |text|
  {
    if q == 0 then 0 else NumData(f, text, q - 1) + CharNumdata(f, text[q - 1])
  }

  /** `num_points`: the sum of the characters' point counts. */
  function NumPoints(f: Font, text: string, q: nat): nat
    requires WellFormed(f) && AllPrintable(text) && q <= |text|
  {
    if q == 0 then 0 else NumPoints(f, text, q - 1) + CharNumpoints(f, text[q - 1])
  }

  /** `num_strokes`: the sum of the characters' stroke counts. */
  function NumStrokes(f: Font, text: string, q: nat): nat
    requires WellFormed(f) && AllPrintable(text) && q <= |text|
  {
    if q == 0 then 0 else NumStrokes(f, text, q - 1) + CharNumstrokes(f, text[q - 1])
  }

  /** There are exactly half as many points as data: every character's data
    * count is even, so no pair is lost to the division. */
  lemma {:induction false} PointsHalveData(f: Font, text: string, q: nat)
    requires WellFormed(f) && AllPrintable(text) && q <= |text|
    ensures 2 * NumPoints(f, text, q) == NumData(f, text, q)
  {
    if q > 0 {
      PointsHalveData(f, text, q - 1);
    }
  }

  /** There are at most half as many strokes as points. */
  lemma {:induction false} StrokesAtMostHalfPoints(f: Font, text: string, q: nat)
    requires WellFormed(f) && AllPrintable(text) && q <= |text|
    ensures 2 * NumStrokes(f, text, q) <= NumPoints(f, text, q)
  {
    if q > 0 {
      StrokesAtMostHalfPoints(f, text, q - 1);
    }
  }

  /** `shift`: the sum of the widths of the glyphs the characters look up (a
    * space looks up glyph 0). */
  function Shift(f: Font, text: string, q: nat): int
    requires WellFormed(f) && AllPrintable(text) && q <= |text|
  {
    if q == 0 then 0 else Shift(f, text, q - 1) + f.width[Item(text[q - 1])]
  }

  /** `n` consecutive entries from `start`. */
  function Run(start: int, n: nat): (r: seq<int>)
    ensures |r| == n
    ensures forall j :: 0 <= j < n ==> r[j] == start + j
  {
    seq(n, j => start + j)
  }

  /** `n` copies of `v`. */
  function Repeat(v: int, n: nat): (r: seq<int>)
    ensures |r| == n
    ensures forall j :: 0 <= j < n ==> r[j] == v
  {
    seq(n, _ => v)
  }

  /** `data_index`: for every character in turn, the positions of its glyph data
    * in the vertex table. Every entry is a position inside that table. */
  function DataIndex(f: Font, text: string, q: nat): (d: seq<int>)
    requires WellFormed(f) && AllPrintable(text) && q <= |text|
    ensures |d| == NumData(f, text, q)
    ensures forall m :: 0 <= m < |d| ==> 0 <= d[m] < |f.vertex|
  {
    if q == 0 then []
    else DataIndex(f, text, q - 1) + Run(f.index[Item(text[q - 1])], CharNumdata(f, text[q - 1]))
  }

  /** `kern`: every point of a character carries that character's kern. */
  function Kerns(f: Font, text: string, q: nat): (k: seq<int>)
    requires WellFormed(f) && AllPrintable(text) && q <= |text|
    ensures |k| == NumPoints(f, text, q)
  {
    if q == 0 then []
    else Kerns(f, text, q - 1) + Repeat(CharKern(text[q - 1]), CharNumpoints(f, text[q - 1]))
  }

  /** `offset`: every point of a character carries the shift of the characters before it. */
  function Offsets(f: Font, text: string, q: nat): (o: seq<int>)
    requires WellFormed(f) && AllPrintable(text) && q <= |text|
    ensures |o| == NumPoints(f, text, q)
  {
    if q == 0 then []
    else Offsets(f, text, q - 1) + Repeat(Shift(f, text, q - 1), CharNumpoints(f, text[q - 1]))
  }

  /** What the unwrapping loop needs of its inputs: two data entries per point,
    * each a position in the vertex table, and one offset and one kern per point. */
  predicate Unwrappable(f: Font, d: seq<int>, off: seq<int>, kern: seq<int>, n: nat)
  {
    && |d| == 2 * n && |off| == n && |kern| == n
    && forall m :: 0 <= m < |d| ==> 0 <= d[m] < |f.vertex|
  }

  /** The unscaled `x` of point `i`: its vertex x, relative to the first vertex,
    * moved right by the point's offset and kern. */
  function UnwrappedX(f: Font, d: seq<int>, off: seq<int>, kern: seq<int>, n: nat, i: nat): int
    requires Unwrappable(f, d, off, kern, n) && i < n
  {
    f.vertex[d[2 * i]] - f.vertex[d[0]] + off[i] + kern[i]
  }

  /** The unscaled `y` of point `i`: its vertex y. */
  function UnwrappedY(f: Font, d: seq<int>, n: nat, i: nat): int
    requires |d| == 2 * n && i < n && 0 <= d[2 * i + 1] < |f.vertex|
  {
    f.vertex[d[2 * i + 1]]
  }

  /** The layout's data indices, offsets and kerns can be unwrapped. */
  lemma LayoutUnwrappable(f: Font, text: string)
    requires WellFormed(f) && AllPrintable(text)
    ensures Unwrappable(f, DataIndex(f, text, |text|), Offsets(f, text, |text|), Kerns(f, text, |text|),
                        NumPoints(f, text, |text|))
  {
    PointsHalveData(f, text, |text|);
  }

  /** The unscaled `x` of point `i` of the text. */
  function PointX(f: Font, text: string, i: nat): int
    requires WellFormed(f) && AllPrintable(text) && i < NumPoints(f, text, |text|)
  {
    LayoutUnwrappable(f, text);
    UnwrappedX(f, DataIndex(f, text, |text|), Offsets(f, text, |text|), Kerns(f, text, |text|),
               NumPoints(f, text, |text|), i)
  }

  /** The unscaled `y` of point `i` of the text. */
  function PointY(f: Font, text: string, i: nat): int
    requires WellFormed(f) && AllPrintable(text) && i < NumPoints(f, text, |text|)
  {
    LayoutUnwrappable(f, text);
    UnwrappedY(f, DataIndex(f, text, |text|), NumPoints(f, text, |text|), i)
  }

  /** A prefix of `a` is the same prefix of `a + b`. */
  lemma PrefixOfConcat(a: seq<int>, b: seq<int>, n: nat)
    requires n <= |a|
    ensures (a + b)[..n] == a[..n]
  {
  }

  /** The data indices of the first `q` characters are a prefix of those of the
    * first `r`. */
  lemma {:induction false} DataIndexPrefix(f: Font, text: string, q: nat, r: nat)
    requires WellFormed(f) && AllPrintable(text) && q <= r <= |text|
    ensures NumData(f, text, q) <= NumData(f, text, r)
    ensures DataIndex(f, text, q) == DataIndex(f, text, r)[..NumData(f, text, q)]
    decreases r
  {
    if q < r {
      DataIndexPrefix(f, text, q, r - 1);
      var before := DataIndex(f, text, r - 1);
      PrefixOfConcat(before, Run(f.index[Item(text[r - 1])], CharNumdata(f, text[r - 1])), NumData(f, text, q));
    }
  }

  /** The kerns of the first `q` characters are a prefix of those of the first `r`. */
  lemma {:induction false} KernsPrefix(f: Font, text: string, q: nat, r: nat)
    requires WellFormed(f) && AllPrintable(text) && q <= r <= |text|
    ensures NumPoints(f, text, q) <= NumPoints(f, text, r)
    ensures Kerns(f, text, q) == Kerns(f, text, r)[..NumPoints(f, text, q)]
    decreases r
  {
    if q < r {
      KernsPrefix(f, text, q, r - 1);
      var before := Kerns(f, text, r - 1);
      PrefixOfConcat(before, Repeat(CharKern(text[r - 1]), CharNumpoints(f, text[r - 1])), NumPoints(f, text, q));
    }
  }

  /** The offsets of the first `q` characters are a prefix of those of the first `r`. */
  lemma {:induction false} OffsetsPrefix(f: Font, text: string, q: nat, r: nat)
    requires WellFormed(f) && AllPrintable(text) && q <= r <= |text|
    ensures NumPoints(f, text, q) <= NumPoints(f, text, r)
    ensures Offsets(f, text, q) == Offsets(f, text, r)[..NumPoints(f, text, q)]
    decreases r
  {
    if q < r {
      OffsetsPrefix(f, text, q, r - 1);
      var before := Offsets(f, text, r - 1);
      PrefixOfConcat(before, Repeat(Shift(f, text, r - 1), CharNumpoints(f, text[r - 1])), NumPoints(f, text, q));
    }
  }

  /** Data entry `j` of character `p` is entry `font_index[item] + j` of the
    * vertex table, placed after the data of the characters before `p`. */
  lemma DataIndexAt(f: Font, text: string, p: nat, j: nat)
    requires WellFormed(f) && AllPrintable(text) && p < |text|
    requires j < CharNumdata(f, text[p])
    ensures NumData(f, text, p) + j < NumData(f, text, |text|)
    ensures DataIndex(f, text, |text|)[NumData(f, text, p) + j] == f.index[Item(text[p])] + j
  {
    DataIndexPrefix(f, text, p + 1, |text|);
    var tail := Run(f.index[Item(text[p])], CharNumdata(f, text[p]));
    assert DataIndex(f, text, p + 1) == DataIndex(f, text, p) + tail;
    assert tail[j] == f.index[Item(text[p])] + j;
    var all := DataIndex(f, text, |text|);
    var n := NumData(f, text, p);
    assert all[..NumData(f, text, p + 1)] == DataIndex(f, text, p) + tail;
    assert all[n + j] == (DataIndex(f, text, p) + tail)[n + j];
  }

  /** Every point of character `p` carries the kern of `p`. */
  lemma KernAt(f: Font, text: string, p: nat, j: nat)
    requires WellFormed(f) && AllPrintable(text) && p < |text|
    requires j < CharNumpoints(f, text[p])
    ensures NumPoints(f, text, p) + j < NumPoints(f, text, |text|)
    ensures Kerns(f, text, |text|)[NumPoints(f, text, p) + j] == CharKern(text[p])
  {
    KernsPrefix(f, text, p + 1, |text|);
    var tail := Repeat(CharKern(text[p]), CharNumpoints(f, text[p]));
    assert Kerns(f, text, p + 1) == Kerns(f, text, p) + tail;
    assert tail[j] == CharKern(text[p]);
    var all := Kerns(f, text, |text|);
    var n := NumPoints(f, text, p);
    assert all[..NumPoints(f, text, p + 1)] == Kerns(f, text, p) + tail;
    assert all[n + j] == (Kerns(f, text, p) + tail)[n + j];
  }

  /** Every point of character `p` carries, as its offset, the shift of the
    * characters before `p`. */
  lemma OffsetAt(f: Font, text: string, p: nat, j: nat)
    requires WellFormed(f) && AllPrintable(text) && p < |text|
    requires j < CharNumpoints(f, text[p])
    ensures NumPoints(f, text, p) + j < NumPoints(f, text, |text|)
    ensures Offsets(f, text, |text|)[NumPoints(f, text, p) + j] == Shift(f, text, p)
  {
    OffsetsPrefix(f, text, p + 1, |text|);
    var tail := Repeat(Shift(f, text, p), CharNumpoints(f, text[p]));
    assert Offsets(f, text, p + 1) == Offsets(f, text, p) + tail;
    assert tail[j] == Shift(f, text, p);
    var all := Offsets(f, text, |text|);
    var n := NumPoints(f, text, p);
    assert all[..NumPoints(f, text, p + 1)] == Offsets(f, text, p) + tail;
    assert all[n + j] == (Offsets(f, text, p) + tail)[n + j];
  }

  /** The x of point `j` of character `p` is the glyph's vertex x relative to
    * the first vertex of the text, plus the shift of the earlier characters and
    * the character's kern. */
  lemma PointXAt(f: Font, text: string, p: nat, j: nat)
    requires WellFormed(f) && AllPrintable(text) && p < |text|
    requires j < CharNumpoints(f, text[p])
    ensures NumPoints(f, text, p) + j < NumPoints(f, text, |text|)
    ensures 0 < NumData(f, text, |text|)
    ensures PointX(f, text, NumPoints(f, text, p) + j) ==
              f.vertex[f.index[Item(text[p])] + 2 * j] - f.vertex[DataIndex(f, text, |text|)[0]]
              + Shift(f, text, p) + CharKern(text[p])
  {
    PointsHalveData(f, text, |text|);
    PointsHalveData(f, text, p);
    KernAt(f, text, p, j);
    OffsetAt(f, text, p, j);
    DataIndexAt(f, text, p, 2 * j);
  }

  /** The y of point `j` of character `p` is the glyph's vertex y. */
  lemma PointYAt(f: Font, text: string, p: nat, j: nat)
    requires WellFormed(f) && AllPrintable(text) && p < |text|
    requires j < CharNumpoints(f, text[p])
    ensures NumPoints(f, text, p) + j < NumPoints(f, text, |text|)
    ensures PointY(f, text, NumPoints(f, text, p) + j) == f.vertex[f.index[Item(text[p])] + 2 * j + 1]
  {
    PointsHalveData(f, text, |text|);
    PointsHalveData(f, text, p);
    KernAt(f, text, p, j);
    DataIndexAt(f, text, p, 2 * j + 1);
  }

  /** Every point of the first `q` characters is point `j` of some character
    * `p < q`, placed at that character's prefix sum, so `PointXAt` and
    * `PointYAt` cover every point of the text. */
  lemma {:induction false} PointOwner(f: Font, text: string, q: nat, i: nat) returns (p: nat, j: nat)
    requires WellFormed(f) && AllPrintable(text) && q <= |text| && i < NumPoints(f, text, q)
    ensures p < q && j < CharNumpoints(f, text[p])
    ensures i == NumPoints(f, text, p) + j
    decreases q
  {
    if i < NumPoints(f, text, q - 1) {
      p, j := PointOwner(f, text, q - 1, i);
    } else {
      p, j := q - 1, i - NumPoints(f, text, q - 1);
    }
  }

  /** Every point carries the narrow kern: the space's wide kern belongs to a
    * character that has no points, so `ASCII_SPACE_BIG` moves no coordinate
    * and a space moves later characters only through its width. */
  lemma KernsAreLittle(f: Font, text: string, i: nat)
    requires WellFormed(f) && AllPrintable(text) && i < NumPoints(f, text, |text|)
    ensures Kerns(f, text, |text|)[i] == SpaceLittle
  {
    var p, j := PointOwner(f, text, |text|, i);
    KernAt(f, text, p, j);
  }

  /** A space moves the text right by the width of glyph 0 and adds no point. */
  lemma SpaceAdvance(f: Font, text: string)
    requires WellFormed(f) && AllPrintable(text) && |text| > 0 && text[|text| - 1] == ' '
    ensures Shift(f, text, |text|) == Shift(f, text, |text| - 1) + f.width[0]
    ensures NumPoints(f, text, |text|) == NumPoints(f, text, |text| - 1)
  {
  }

  /** No glyph of the font is empty. */
  predicate NoEmptyGlyph(f: Font)
    requires WellFormed(f)
  {
    forall k :: 0 <= k < GlyphCount ==> f.numdata[k] > 0
  }

  /** With no empty glyph, the first `q` characters have no point exactly when
    * they are all spaces. */
  lemma {:induction false} NoPointsIffBlank(f: Font, text: string, q: nat)
    requires WellFormed(f) && AllPrintable(text) && q <= |text| && NoEmptyGlyph(f)
    ensures NumPoints(f, text, q) == 0 <==> forall i :: 0 <= i < q ==> text[i] == ' '
    decreases q
  {
    if q > 0 {
      NoPointsIffBlank(f, text, q - 1);
    }
  }
}
