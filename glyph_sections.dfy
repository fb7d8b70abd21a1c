/** Where each glyph's section sits in `font_vertex`.
  *
  * The lengths of the listed sections are checked against `font_numdata`
  * entry by entry. The lemmas `SectionLengths0` to `SectionLengths93` each
  * settle one or two glyphs by plain case analysis; they exist only to
  * keep each proof obligation small, and `SectionLength` dispatches to them.
  */
module GlyphSections {
  import opened HersheyTables

  /** Glyph `k`'s section has the length `font_numdata` gives it, except for
    * the backslash, whose section holds 4 integers. */
  predicate SectionLengthFits(k: nat)
    requires k < GlyphCount
  {
    |Section(k)| == if k == Backslash then 4 else FontNumdataAt(k)
  }

  lemma {:induction false} SectionLengths0(k: nat)
    requires 0 <= k < 2
    ensures SectionLengthFits(k)
  {
    if k == 0 {
      assert SectionLengthFits(0);
    } else {
      assert SectionLengthFits(1);
    }
  }

  lemma {:induction false} SectionLengths2(k: nat)
    requires 2 <= k < 4
    ensures SectionLengthFits(k)
  {
    if k == 2 {
      assert SectionLengthFits(2);
    } else {
      assert SectionLengthFits(3);
    }
  }

  lemma {:induction false} SectionLengths4(k: nat)
    requires 4 <= k < 6
    ensures SectionLengthFits(k)
  {
    if k == 4 {
      assert SectionLengthFits(4);
    } else {
      assert SectionLengthFits(5);
    }
  }

  lemma {:induction false} SectionLengths6(k: nat)
    requires 6 <= k < 8
    ensures SectionLengthFits(k)
  {
    if k == 6 {
      assert SectionLengthFits(6);
    } else {
      assert SectionLengthFits(7);
    }
  }

  lemma {:induction false} SectionLengths8(k: nat)
    requires 8 <= k < 10
    ensures SectionLengthFits(k)
  {
    if k == 8 {
      assert SectionLengthFits(8);
    } else {
      assert SectionLengthFits(9);
    }
  }

  lemma {:induction false} SectionLengths10(k: nat)
    requires 10 <= k < 12
    ensures SectionLengthFits(k)
  {
    if k == 10 {
      assert SectionLengthFits(10);
    } else {
      assert SectionLengthFits(11);
    }
  }

  lemma {:induction false} SectionLengths12(k: nat)
    requires 12 <= k < 14
    ensures SectionLengthFits(k)
  {
    if k == 12 {
      assert SectionLengthFits(12);
    } else {
      assert SectionLengthFits(13);
    }
  }

  lemma {:induction false} SectionLengths14(k: nat)
    requires 14 <= k < 16
    ensures SectionLengthFits(k)
  {
    if k == 14 {
      assert SectionLengthFits(14);
    } else {
      assert SectionLengthFits(15);
    }
  }

  lemma {:induction false} SectionLengths16(k: nat)
    requires 16 <= k < 18
    ensures SectionLengthFits(k)
  {
    if k == 16 {
      assert SectionLengthFits(16);
    } else {
      assert SectionLengthFits(17);
    }
  }

  lemma {:induction false} SectionLengths18(k: nat)
    requires 18 <= k < 20
    ensures SectionLengthFits(k)
  {
    if k == 18 {
      assert SectionLengthFits(18);
    } else {
      assert SectionLengthFits(19);
    }
  }

  lemma {:induction false} SectionLengths20(k: nat)
    requires 20 <= k < 22
    ensures SectionLengthFits(k)
  {
    if k == 20 {
      assert SectionLengthFits(20);
    } else {
      assert SectionLengthFits(21);
    }
  }

  lemma {:induction false} SectionLengths22(k: nat)
    requires 22 <= k < 24
    ensures SectionLengthFits(k)
  {
    if k == 22 {
      assert SectionLengthFits(22);
    } else {
      assert SectionLengthFits(23);
    }
  }

  lemma {:induction false} SectionLengths24(k: nat)
    requires 24 <= k < 26
    ensures SectionLengthFits(k)
  {
    if k == 24 {
      assert SectionLengthFits(24);
    } else {
      assert SectionLengthFits(25);
    }
  }

  lemma {:induction false} SectionLengths26(k: nat)
    requires 26 <= k < 28
    ensures SectionLengthFits(k)
  {
    if k == 26 {
      assert SectionLengthFits(26);
    } else {
      assert SectionLengthFits(27);
    }
  }

  lemma {:induction false} SectionLengths28(k: nat)
    requires 28 <= k < 30
    ensures SectionLengthFits(k)
  {
    if k == 28 {
      assert SectionLengthFits(28);
    } else {
      assert SectionLengthFits(29);
    }
  }

  lemma {:induction false} SectionLengths30(k: nat)
    requires 30 <= k < 32
    ensures SectionLengthFits(k)
  {
    if k == 30 {
      assert SectionLengthFits(30);
    } else {
      assert SectionLengthFits(31);
    }
  }

  lemma {:induction false} SectionLengths32(k: nat)
    requires 32 <= k < 34
    ensures SectionLengthFits(k)
  {
    if k == 32 {
      assert SectionLengthFits(32);
    } else {
      assert SectionLengthFits(33);
    }
  }

  lemma {:induction false} SectionLengths34(k: nat)
    requires 34 <= k < 36
    ensures SectionLengthFits(k)
  {
    if k == 34 {
      assert SectionLengthFits(34);
    } else {
      assert SectionLengthFits(35);
    }
  }

  lemma {:induction false} SectionLengths36(k: nat)
    requires 36 <= k < 38
    ensures SectionLengthFits(k)
  {
    if k == 36 {
      assert SectionLengthFits(36);
    } else {
      assert SectionLengthFits(37);
    }
  }

  lemma {:induction false} SectionLengths38(k: nat)
    requires 38 <= k < 40
    ensures SectionLengthFits(k)
  {
    if k == 38 {
      assert SectionLengthFits(38);
    } else {
      assert SectionLengthFits(39);
    }
  }

  lemma {:induction false} SectionLengths40(k: nat)
    requires 40 <= k < 42
    ensures SectionLengthFits(k)
  {
    if k == 40 {
      assert SectionLengthFits(40);
    } else {
      assert SectionLengthFits(41);
    }
  }

  lemma {:induction false} SectionLengths42(k: nat)
    requires 42 <= k < 44
    ensures SectionLengthFits(k)
  {
    if k == 42 {
      assert SectionLengthFits(42);
    } else {
      assert SectionLengthFits(43);
    }
  }

  lemma {:induction false} SectionLengths44(k: nat)
    requires 44 <= k < 46
    ensures SectionLengthFits(k)
  {
    if k == 44 {
      assert SectionLengthFits(44);
    } else {
      assert SectionLengthFits(45);
    }
  }

  lemma {:induction false} SectionLengths46(k: nat)
    requires 46 <= k < 48
    ensures SectionLengthFits(k)
  {
    if k == 46 {
      assert SectionLengthFits(46);
    } else {
      assert SectionLengthFits(47);
    }
  }

  lemma {:induction false} SectionLengths48(k: nat)
    requires 48 <= k < 50
    ensures SectionLengthFits(k)
  {
    if k == 48 {
      assert SectionLengthFits(48);
    } else {
      assert SectionLengthFits(49);
    }
  }

  lemma {:induction false} SectionLengths50(k: nat)
    requires 50 <= k < 52
    ensures SectionLengthFits(k)
  {
    if k == 50 {
      assert SectionLengthFits(50);
    } else {
      assert SectionLengthFits(51);
    }
  }

  lemma {:induction false} SectionLengths52(k: nat)
    requires 52 <= k < 54
    ensures SectionLengthFits(k)
  {
    if k == 52 {
      assert SectionLengthFits(52);
    } else {
      assert SectionLengthFits(53);
    }
  }

  lemma {:induction false} SectionLengths54(k: nat)
    requires 54 <= k < 56
    ensures SectionLengthFits(k)
  {
    if k == 54 {
      assert SectionLengthFits(54);
    } else {
      assert SectionLengthFits(55);
    }
  }

  lemma {:induction false} SectionLengths56(k: nat)
    requires 56 <= k < 58
    ensures SectionLengthFits(k)
  {
    if k == 56 {
      assert SectionLengthFits(56);
    } else {
      assert SectionLengthFits(57);
    }
  }

  lemma {:induction false} SectionLengths58(k: nat)
    requires 58 <= k < 60
    ensures SectionLengthFits(k)
  {
    if k == 58 {
      assert SectionLengthFits(58);
    } else {
      assert SectionLengthFits(59);
    }
  }

  lemma {:induction false} SectionLengths60(k: nat)
    requires 60 <= k < 62
    ensures SectionLengthFits(k)
  {
    if k == 60 {
      assert SectionLengthFits(60);
    } else {
      assert SectionLengthFits(61);
    }
  }

  lemma {:induction false} SectionLengths62(k: nat)
    requires 62 <= k < 64
    ensures SectionLengthFits(k)
  {
    if k == 62 {
      assert SectionLengthFits(62);
    } else {
      assert SectionLengthFits(63);
    }
  }

  lemma {:induction false} SectionLengths64(k: nat)
    requires 64 <= k < 66
    ensures SectionLengthFits(k)
  {
    if k == 64 {
      assert SectionLengthFits(64);
    } else {
      assert SectionLengthFits(65);
    }
  }

  lemma {:induction false} SectionLengths66(k: nat)
    requires 66 <= k < 68
    ensures SectionLengthFits(k)
  {
    if k == 66 {
      assert SectionLengthFits(66);
    } else {
      assert SectionLengthFits(67);
    }
  }

  lemma {:induction false} SectionLengths68(k: nat)
    requires 68 <= k < 70
    ensures SectionLengthFits(k)
  {
    if k == 68 {
      assert SectionLengthFits(68);
    } else {
      assert SectionLengthFits(69);
    }
  }

  lemma {:induction false} SectionLengths70(k: nat)
    requires 70 <= k < 72
    ensures SectionLengthFits(k)
  {
    if k == 70 {
      assert SectionLengthFits(70);
    } else {
      assert SectionLengthFits(71);
    }
  }

  lemma {:induction false} SectionLengths72(k: nat)
    requires 72 <= k < 74
    ensures SectionLengthFits(k)
  {
    if k == 72 {
      assert SectionLengthFits(72);
    } else {
      assert SectionLengthFits(73);
    }
  }

  lemma {:induction false} SectionLengths74(k: nat)
    requires 74 <= k < 76
    ensures SectionLengthFits(k)
  {
    if k == 74 {
      assert SectionLengthFits(74);
    } else {
      assert SectionLengthFits(75);
    }
  }

  lemma {:induction false} SectionLengths76(k: nat)
    requires 76 <= k < 78
    ensures SectionLengthFits(k)
  {
    if k == 76 {
      assert SectionLengthFits(76);
    } else {
      assert SectionLengthFits(77);
    }
  }

  lemma {:induction false} SectionLengths78(k: nat)
    requires 78 <= k < 80
    ensures SectionLengthFits(k)
  {
    if k == 78 {
      assert SectionLengthFits(78);
    } else {
      assert SectionLengthFits(79);
    }
  }

  lemma {:induction false} SectionLengths80(k: nat)
    requires 80 <= k < 82
    ensures SectionLengthFits(k)
  {
    if k == 80 {
      assert SectionLengthFits(80);
    } else {
      assert SectionLengthFits(81);
    }
  }

  lemma {:induction false} SectionLengths82(k: nat)
    requires 82 <= k < 84
    ensures SectionLengthFits(k)
  {
    if k == 82 {
      assert SectionLengthFits(82);
    } else {
      assert SectionLengthFits(83);
    }
  }

  lemma {:induction false} SectionLengths84(k: nat)
    requires 84 <= k < 86
    ensures SectionLengthFits(k)
  {
    if k == 84 {
      assert SectionLengthFits(84);
    } else {
      assert SectionLengthFits(85);
    }
  }

  lemma {:induction false} SectionLengths86(k: nat)
    requires 86 <= k < 88
    ensures SectionLengthFits(k)
  {
    if k == 86 {
      assert SectionLengthFits(86);
    } else {
      assert SectionLengthFits(87);
    }
  }

  lemma {:induction false} SectionLengths88(k: nat)
    requires 88 <= k < 90
    ensures SectionLengthFits(k)
  {
    if k == 88 {
      assert SectionLengthFits(88);
    } else {
      assert SectionLengthFits(89);
    }
  }

  lemma {:induction false} SectionLengths90(k: nat)
    requires 90 <= k < 92
    ensures SectionLengthFits(k)
  {
    if k == 90 {
      assert SectionLengthFits(90);
    } else {
      assert SectionLengthFits(91);
    }
  }

  lemma {:induction false} SectionLengths92(k: nat)
    requires k == 92
    ensures SectionLengthFits(k)
  {
    assert SectionLengthFits(92);
  }

  lemma {:induction false} SectionLengths93(k: nat)
    requires k == 93
    ensures SectionLengthFits(k)
  {
    assert SectionLengthFits(93);
  }

  /** The length of every glyph's section, as `font_numdata` gives it but for the backslash. */
  lemma SectionLength(k: nat)
    requires k < GlyphCount
    ensures SectionLengthFits(k)
  {
    if k < 2 {
      SectionLengths0(k);
    } else if k < 4 {
      SectionLengths2(k);
    } else if k < 6 {
      SectionLengths4(k);
    } else if k < 8 {
      SectionLengths6(k);
    } else if k < 10 {
      SectionLengths8(k);
    } else if k < 12 {
      SectionLengths10(k);
    } else if k < 14 {
      SectionLengths12(k);
    } else if k < 16 {
      SectionLengths14(k);
    } else if k < 18 {
      SectionLengths16(k);
    } else if k < 20 {
      SectionLengths18(k);
    } else if k < 22 {
      SectionLengths20(k);
    } else if k < 24 {
      SectionLengths22(k);
    } else if k < 26 {
      SectionLengths24(k);
    } else if k < 28 {
      SectionLengths26(k);
    } else if k < 30 {
      SectionLengths28(k);
    } else if k < 32 {
      SectionLengths30(k);
    } else if k < 34 {
      SectionLengths32(k);
    } else if k < 36 {
      SectionLengths34(k);
    } else if k < 38 {
      SectionLengths36(k);
    } else if k < 40 {
      SectionLengths38(k);
    } else if k < 42 {
      SectionLengths40(k);
    } else if k < 44 {
      SectionLengths42(k);
    } else if k < 46 {
      SectionLengths44(k);
    } else if k < 48 {
      SectionLengths46(k);
    } else if k < 50 {
      SectionLengths48(k);
    } else if k < 52 {
      SectionLengths50(k);
    } else if k < 54 {
      SectionLengths52(k);
    } else if k < 56 {
      SectionLengths54(k);
    } else if k < 58 {
      SectionLengths56(k);
    } else if k < 60 {
      SectionLengths58(k);
    } else if k < 62 {
      SectionLengths60(k);
    } else if k < 64 {
      SectionLengths62(k);
    } else if k < 66 {
      SectionLengths64(k);
    } else if k < 68 {
      SectionLengths66(k);
    } else if k < 70 {
      SectionLengths68(k);
    } else if k < 72 {
      SectionLengths70(k);
    } else if k < 74 {
      SectionLengths72(k);
    } else if k < 76 {
      SectionLengths74(k);
    } else if k < 78 {
      SectionLengths76(k);
    } else if k < 80 {
      SectionLengths78(k);
    } else if k < 82 {
      SectionLengths80(k);
    } else if k < 84 {
      SectionLengths82(k);
    } else if k < 86 {
      SectionLengths84(k);
    } else if k < 88 {
      SectionLengths86(k);
    } else if k < 90 {
      SectionLengths88(k);
    } else if k < 92 {
      SectionLengths90(k);
    } else if k < 93 {
      SectionLengths92(k);
    } else {
      SectionLengths93(k);
    }
  }

  /** Reading the listed values from section `j` of `ss` on, section `k`
    * begins `SectionStart(ss, k) - SectionStart(ss, j)` entries in. */
  lemma {:induction false} ListedFromSection(ss: seq<seq<int>>, j: nat, k: nat, i: nat)
    requires j <= k < |ss| && i < |ss[k]|
    ensures SectionStart(ss, j) <= SectionStart(ss, k)
    ensures ListedAt(ss, j, SectionStart(ss, k) - SectionStart(ss, j) + i) == ss[k][i]
    decreases k - j
  {
    if j < k {
      ListedFromSection(ss, j + 1, k, i);
    }
  }

  /** Entry `i` of glyph `k`'s section is entry `SectionStart(Sections(), k) + i`
    * of `font_vertex`. */
  lemma SectionInVertex(k: nat, i: nat)
    requires k < GlyphCount && i < |Sections()[k]|
    ensures FontVertexAt(SectionStart(Sections(), k) + i) == Sections()[k][i]
  {
    var ss := Sections();
    var x := SectionStart(ss, k) + i;
    ListedFromSection(ss, 0, k, i);
    assert ListedAt(ss, 0, x) == ss[k][i];
  }
}
