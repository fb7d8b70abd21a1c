/** Properties of the Hershey font tables of module HersheyTables: every glyph's
  * run of coordinates fits the vertex table and consists of whole (x, y) pairs,
  * and the runs are laid out back to back, except after the backslash.
  *
  * The facts are checked entry by entry against the literal tables. The lemmas
  * `GlyphTableFacts0` to `GlyphTableFacts88` each settle a block of eight glyphs
  * by plain case analysis; they exist only to keep each proof obligation small,
  * and `GlyphTableFacts` dispatches to them. Everything else uses that lemma.
  */
module Glyphs {
  import opened HersheyTables
  import opened GlyphSections
  import opened Fonts

  /** Glyph `k`'s run lies inside the declared `font_vertex` and holds a positive,
    * even number of integers, that is, whole (x, y) pairs. */
  predicate RunFits(k: nat)
    requires k < GlyphCount
  {
    && 0 <= FontIndexAt(k)
    && 0 < FontNumdataAt(k)
    && FontNumdataAt(k) % 2 == 0
    && FontIndexAt(k) + FontNumdataAt(k) <= FontVertexSize
  }

  /** The relation the table comments document: glyph `k + 1` starts where the
    * data of glyph `k` end. */
  predicate Contiguous(k: nat)
    requires k + 1 < GlyphCount
  {
    FontIndexAt(k + 1) == FontIndexAt(k) + FontNumdataAt(k)
  }

  /** Everything the tables say about glyph `k`, checked entry by entry. */
  predicate GlyphEntryFacts(k: nat)
    requires k < GlyphCount
  {
    && RunFits(k)
    && (k + 1 < GlyphCount ==> (Contiguous(k) <==> k != Backslash))
  }

  lemma {:induction false} GlyphTableFacts0(k: nat)
    requires 0 <= k < 8
    ensures GlyphEntryFacts(k)
  {
    if k == 0 {
      assert GlyphEntryFacts(0);
    } else if k == 1 {
      assert GlyphEntryFacts(1);
    } else if k == 2 {
      assert GlyphEntryFacts(2);
    } else if k == 3 {
      assert GlyphEntryFacts(3);
    } else if k == 4 {
      assert GlyphEntryFacts(4);
    } else if k == 5 {
      assert GlyphEntryFacts(5);
    } else if k == 6 {
      assert GlyphEntryFacts(6);
    } else {
      assert GlyphEntryFacts(7);
    }
  }

  lemma {:induction false} GlyphTableFacts8(k: nat)
    requires 8 <= k < 16
    ensures GlyphEntryFacts(k)
  {
    if k == 8 {
      assert GlyphEntryFacts(8);
    } else if k == 9 {
      assert GlyphEntryFacts(9);
    } else if k == 10 {
      assert GlyphEntryFacts(10);
    } else if k == 11 {
      assert GlyphEntryFacts(11);
    } else if k == 12 {
      assert GlyphEntryFacts(12);
    } else if k == 13 {
      assert GlyphEntryFacts(13);
    } else if k == 14 {
      assert GlyphEntryFacts(14);
    } else {
      assert GlyphEntryFacts(15);
    }
  }

  lemma {:induction false} GlyphTableFacts16(k: nat)
    requires 16 <= k < 24
    ensures GlyphEntryFacts(k)
  {
    if k == 16 {
      assert GlyphEntryFacts(16);
    } else if k == 17 {
      assert GlyphEntryFacts(17);
    } else if k == 18 {
      assert GlyphEntryFacts(18);
    } else if k == 19 {
      assert GlyphEntryFacts(19);
    } else if k == 20 {
      assert GlyphEntryFacts(20);
    } else if k == 21 {
      assert GlyphEntryFacts(21);
    } else if k == 22 {
      assert GlyphEntryFacts(22);
    } else {
      assert GlyphEntryFacts(23);
    }
  }

  lemma {:induction false} GlyphTableFacts24(k: nat)
    requires 24 <= k < 32
    ensures GlyphEntryFacts(k)
  {
    if k == 24 {
      assert GlyphEntryFacts(24);
    } else if k == 25 {
      assert GlyphEntryFacts(25);
    } else if k == 26 {
      assert GlyphEntryFacts(26);
    } else if k == 27 {
      assert GlyphEntryFacts(27);
    } else if k == 28 {
      assert GlyphEntryFacts(28);
    } else if k == 29 {
      assert GlyphEntryFacts(29);
    } else if k == 30 {
      assert GlyphEntryFacts(30);
    } else {
      assert GlyphEntryFacts(31);
    }
  }

  lemma {:induction false} GlyphTableFacts32(k: nat)
    requires 32 <= k < 40
    ensures GlyphEntryFacts(k)
  {
    if k == 32 {
      assert GlyphEntryFacts(32);
    } else if k == 33 {
      assert GlyphEntryFacts(33);
    } else if k == 34 {
      assert GlyphEntryFacts(34);
    } else if k == 35 {
      assert GlyphEntryFacts(35);
    } else if k == 36 {
      assert GlyphEntryFacts(36);
    } else if k == 37 {
      assert GlyphEntryFacts(37);
    } else if k == 38 {
      assert GlyphEntryFacts(38);
    } else {
      assert GlyphEntryFacts(39);
    }
  }

  lemma {:induction false} GlyphTableFacts40(k: nat)
    requires 40 <= k < 48
    ensures GlyphEntryFacts(k)
  {
    if k == 40 {
      assert GlyphEntryFacts(40);
    } else if k == 41 {
      assert GlyphEntryFacts(41);
    } else if k == 42 {
      assert GlyphEntryFacts(42);
    } else if k == 43 {
      assert GlyphEntryFacts(43);
    } else if k == 44 {
      assert GlyphEntryFacts(44);
    } else if k == 45 {
      assert GlyphEntryFacts(45);
    } else if k == 46 {
      assert GlyphEntryFacts(46);
    } else {
      assert GlyphEntryFacts(47);
    }
  }

  lemma {:induction false} GlyphTableFacts48(k: nat)
    requires 48 <= k < 56
    ensures GlyphEntryFacts(k)
  {
    if k == 48 {
      assert GlyphEntryFacts(48);
    } else if k == 49 {
      assert GlyphEntryFacts(49);
    } else if k == 50 {
      assert GlyphEntryFacts(50);
    } else if k == 51 {
      assert GlyphEntryFacts(51);
    } else if k == 52 {
      assert GlyphEntryFacts(52);
    } else if k == 53 {
      assert GlyphEntryFacts(53);
    } else if k == 54 {
      assert GlyphEntryFacts(54);
    } else {
      assert GlyphEntryFacts(55);
    }
  }

  lemma {:induction false} GlyphTableFacts56(k: nat)
    requires 56 <= k < 64
    ensures GlyphEntryFacts(k)
  {
    if k == 56 {
      assert GlyphEntryFacts(56);
    } else if k == 57 {
      assert GlyphEntryFacts(57);
    } else if k == 58 {
      assert GlyphEntryFacts(58);
    } else if k == 59 {
      assert GlyphEntryFacts(59);
    } else if k == 60 {
      assert GlyphEntryFacts(60);
    } else if k == 61 {
      assert GlyphEntryFacts(61);
    } else if k == 62 {
      assert GlyphEntryFacts(62);
    } else {
      assert GlyphEntryFacts(63);
    }
  }

  lemma {:induction false} GlyphTableFacts64(k: nat)
    requires 64 <= k < 72
    ensures GlyphEntryFacts(k)
  {
    if k == 64 {
      assert GlyphEntryFacts(64);
    } else if k == 65 {
      assert GlyphEntryFacts(65);
    } else if k == 66 {
      assert GlyphEntryFacts(66);
    } else if k == 67 {
      assert GlyphEntryFacts(67);
    } else if k == 68 {
      assert GlyphEntryFacts(68);
    } else if k == 69 {
      assert GlyphEntryFacts(69);
    } else if k == 70 {
      assert GlyphEntryFacts(70);
    } else {
      assert GlyphEntryFacts(71);
    }
  }

  lemma {:induction false} GlyphTableFacts72(k: nat)
    requires 72 <= k < 80
    ensures GlyphEntryFacts(k)
  {
    if k == 72 {
      assert GlyphEntryFacts(72);
    } else if k == 73 {
      assert GlyphEntryFacts(73);
    } else if k == 74 {
      assert GlyphEntryFacts(74);
    } else if k == 75 {
      assert GlyphEntryFacts(75);
    } else if k == 76 {
      assert GlyphEntryFacts(76);
    } else if k == 77 {
      assert GlyphEntryFacts(77);
    } else if k == 78 {
      assert GlyphEntryFacts(78);
    } else {
      assert GlyphEntryFacts(79);
    }
  }

  lemma {:induction false} GlyphTableFacts80(k: nat)
    requires 80 <= k < 88
    ensures GlyphEntryFacts(k)
  {
    if k == 80 {
      assert GlyphEntryFacts(80);
    } else if k == 81 {
      assert GlyphEntryFacts(81);
    } else if k == 82 {
      assert GlyphEntryFacts(82);
    } else if k == 83 {
      assert GlyphEntryFacts(83);
    } else if k == 84 {
      assert GlyphEntryFacts(84);
    } else if k == 85 {
      assert GlyphEntryFacts(85);
    } else if k == 86 {
      assert GlyphEntryFacts(86);
    } else {
      assert GlyphEntryFacts(87);
    }
  }

  lemma {:induction false} GlyphTableFacts88(k: nat)
    requires 88 <= k < 94
    ensures GlyphEntryFacts(k)
  {
    if k == 88 {
      assert GlyphEntryFacts(88);
    } else if k == 89 {
      assert GlyphEntryFacts(89);
    } else if k == 90 {
      assert GlyphEntryFacts(90);
    } else if k == 91 {
      assert GlyphEntryFacts(91);
    } else if k == 92 {
      assert GlyphEntryFacts(92);
    } else {
      assert GlyphEntryFacts(93);
    }
  }


  lemma GlyphTableFacts(k: nat)
    requires k < GlyphCount
    ensures GlyphEntryFacts(k)
  {
    if k < 8 {
      GlyphTableFacts0(k);
    } else if k < 16 {
      GlyphTableFacts8(k);
    } else if k < 24 {
      GlyphTableFacts16(k);
    } else if k < 32 {
      GlyphTableFacts24(k);
    } else if k < 40 {
      GlyphTableFacts32(k);
    } else if k < 48 {
      GlyphTableFacts40(k);
    } else if k < 56 {
      GlyphTableFacts48(k);
    } else if k < 64 {
      GlyphTableFacts56(k);
    } else if k < 72 {
      GlyphTableFacts64(k);
    } else if k < 80 {
      GlyphTableFacts72(k);
    } else if k < 88 {
      GlyphTableFacts80(k);
    } else {
      GlyphTableFacts88(k);
    }
  }

  /** Every glyph's run is made of whole (x, y) pairs and stays inside `font_vertex`. */
  lemma GlyphRunFits(k: nat)
    requires k < GlyphCount
    ensures RunFits(k)
  {
    GlyphTableFacts(k);
  }

  /** `font_index[k + 1] == font_index[k] + font_numdata[k]` holds for every glyph
    * but one: the backslash. */
  lemma IndexFollowsNumdata(k: nat)
    requires k + 1 < GlyphCount
    ensures Contiguous(k) <==> k != Backslash
  {
    GlyphTableFacts(k);
  }

  /** As written, `font_numdata` gives the backslash 6 integers, but its section
    * holds 4 and the next glyph starts 4 entries later: the backslash's run takes
    * in the first (x, y) pair of character 93. */
  lemma BackslashOverrunsNextGlyph()
    ensures |Section(Backslash)| == 4 && FontNumdataAt(Backslash) == 6
    ensures FontIndexAt(Backslash + 1) == FontIndexAt(Backslash) + |Section(Backslash)|
    ensures FontIndexAt(Backslash) + FontNumdataAt(Backslash) == FontIndexAt(Backslash + 1) + 2
    ensures !Contiguous(Backslash)
  {
  }

  /** `font_numdata` as evidently intended: the backslash entry is the length of
    * its section. */
  function FontNumdataCorrectedAt(k: nat): int
    requires k < GlyphCount
  {
    if k == Backslash then |Section(Backslash)| else FontNumdataAt(k)
  }

  /** With the corrected entry the documented relation holds for every glyph. */
  lemma CorrectedIndexFollowsNumdata(k: nat)
    requires k + 1 < GlyphCount
    ensures FontIndexAt(k + 1) == FontIndexAt(k) + FontNumdataCorrectedAt(k)
    ensures 0 < FontNumdataCorrectedAt(k) && FontNumdataCorrectedAt(k) % 2 == 0
  {
    GlyphTableFacts(k);
  }

  /** `font_numdata[k]` is the length of glyph `k`'s section for every glyph but
    * the backslash, and the corrected entry is the length for every glyph. */
  lemma NumdataIsSectionLength(k: nat)
    requires k < GlyphCount
    ensures FontNumdataCorrectedAt(k) == |Sections()[k]|
    ensures FontNumdataAt(k) == |Sections()[k]| <==> k != Backslash
  {
    SectionLength(k);
    assert Sections()[k] == Section(k);
  }

  /** `font_index[k]` is where glyph `k`'s section begins in `font_vertex`:
    * the total length of the sections before it. */
  lemma {:induction false} IndexIsSectionStart(k: nat)
    requires k < GlyphCount
    ensures FontIndexAt(k) == SectionStart(Sections(), k)
  {
    if k > 0 {
      var ss := Sections();
      IndexIsSectionStart(k - 1);
      CorrectedIndexFollowsNumdata(k - 1);
      NumdataIsSectionLength(k - 1);
      assert SectionStart(ss, k) == SectionStart(ss, k - 1) + |ss[k - 1]|;
    }
  }

  /** The integers of `font_vertex` from `font_index[k]` on are glyph `k`'s
    * listed section, entry for entry; with `NumdataIsSectionLength`, the run
    * `text4` reads for glyph `k` is its section, except for the backslash. */
  lemma VertexHoldsSection(k: nat, i: nat)
    requires k < GlyphCount && i < |Sections()[k]|
    ensures 0 <= FontIndexAt(k)
    ensures FontVertexAt(FontIndexAt(k) + i) == Sections()[k][i]
  {
    IndexIsSectionStart(k);
    SectionInVertex(k, i);
  }

  /** As written, the backslash's run of 6 integers is its own 4-integer
    * section followed by the first (x, y) pair of the section of character 93. */
  lemma BackslashReadsNextSection(t: nat)
    requires t < FontNumdataAt(Backslash) - |Sections()[Backslash]|
    ensures t < |Sections()[Backslash + 1]|
    ensures FontVertexAt(FontIndexAt(Backslash) + |Sections()[Backslash]| + t)
            == Sections()[Backslash + 1][t]
  {
    BackslashOverrunsNextGlyph();
    VertexHoldsSection(Backslash + 1, t);
  }

  /** The font exactly as the tables are written. */
  function Hershey(): Font
  {
    Font(seq(FontVertexSize, i requires 0 <= i => FontVertexAt(i)),
         seq(GlyphCount, k requires 0 <= k < GlyphCount => FontIndexAt(k)),
         seq(GlyphCount, k requires 0 <= k < GlyphCount => FontNumdataAt(k)),
         seq(GlyphCount, k requires 0 <= k < GlyphCount => FontWidthAt(k)))
  }

  /** The font with the corrected backslash entry. */
  function HersheyCorrected(): Font
  {
    Hershey().(numdata := seq(GlyphCount, k requires 0 <= k < GlyphCount => FontNumdataCorrectedAt(k)))
  }

  lemma HersheyWellFormed()
    ensures WellFormed(Hershey())
    ensures |Hershey().vertex| == FontVertexSize
  {
    var f := Hershey();
    forall k | 0 <= k < GlyphCount
      ensures 0 <= f.index[k] && 0 <= f.numdata[k] && f.numdata[k] % 2 == 0
      ensures f.index[k] + f.numdata[k] <= |f.vertex|
    {
      GlyphRunFits(k);
      assert f.index[k] == FontIndexAt(k) && f.numdata[k] == FontNumdataAt(k);
    }
  }

  lemma HersheyCorrectedWellFormed()
    ensures WellFormed(HersheyCorrected())
  {
    var f := HersheyCorrected();
    forall k | 0 <= k < GlyphCount
      ensures 0 <= f.index[k] && 0 <= f.numdata[k] && f.numdata[k] % 2 == 0
      ensures f.index[k] + f.numdata[k] <= |f.vertex|
    {
      GlyphRunFits(k);
      assert f.index[k] == FontIndexAt(k) && f.numdata[k] == FontNumdataCorrectedAt(k);
    }
  }
}
