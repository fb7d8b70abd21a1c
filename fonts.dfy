/** The shape of a vector font as the text layout reads it, independent of the
  * Hershey tables themselves. */
module Fonts {
  import opened HersheyTables

  /** A vector font as the layout reads it: the four tables, indexed from 0. */
  datatype Font = Font(vertex: seq<int>, index: seq<int>, numdata: seq<int>, width: seq<int>)

  /** What the layout needs of a font: one entry per glyph in each small table,
    * and every glyph run made of whole pairs inside the vertex table. */
  predicate WellFormed(f: Font)
  {
    && |f.index| == GlyphCount
    && |f.numdata| == GlyphCount
    && |f.width| == GlyphCount
    && forall k :: 0 <= k < GlyphCount ==>
         && 0 <= f.index[k]
         && 0 <= f.numdata[k]
         && f.numdata[k] % 2 == 0
         && f.index[k] + f.numdata[k] <= |f.vertex|
  }
}
