/** What the text layout does with the Hershey font as the tables are written. */
module HersheyText {
  import opened HersheyTables
  import opened Fonts
  import opened Glyphs
  import opened TextLayout

  /** In the Hershey font a space advances by 10. */
  lemma HersheySpaceWidth()
    ensures WellFormed(Hershey())
    ensures Hershey().width[0] == 10
  {
    HersheyWellFormed();
  }

  lemma HersheyNoEmptyGlyph()
    ensures WellFormed(Hershey())
    ensures NoEmptyGlyph(Hershey())
  {
    HersheyWellFormed();
    forall k | 0 <= k < GlyphCount
      ensures Hershey().numdata[k] > 0
    {
      GlyphRunFits(k);
    }
  }
}
