/** The Hershey simplex vector font tables that the text layout reads
  * (`font_vertex`, `font_index`, `font_numdata` and `font_width` in
  * Code/src/opencl.cpp).
  *
  * Glyph `k` (0 <= k < 94) is the character with code `k + 33`. Its coordinates
  * are the `font_numdata[k]` integers of `font_vertex` starting at
  * `font_index[k]`, read as (x, y) pairs. The per-glyph tables are written here
  * eight glyphs to a row; what the tables promise about each other is proved
  * in module Glyphs, and where each glyph's section sits in module
  * GlyphSections. Each section is written as the concatenation of its listed
  * lines, which keeps the proofs about its length small.
  */
module HersheyTables {

  /** Number of glyphs: the characters 33 ('!') to 126 ('~'). */
  const GlyphCount := 94

  /** Declared length of `font_vertex`. Its initialiser lists two values fewer;
    * the remaining entries are zero, as for every C array initialiser. */
  const FontVertexSize := 3646

  /** The glyph whose data disagree with the tables: character 92, the backslash. */
  const Backslash := 92 - 33

  /** Glyphs per row of the tables below, and the number of rows. */
  const RowWidth := 8
  const RowCount := 12

  /** Number of glyphs in row `r`: eight, except in the last row. */
  function RowLength(r: nat): nat
  {
    if r < RowCount - 1 then RowWidth else GlyphCount - RowWidth * (RowCount - 1)
  }

  /** The `font_vertex` section of glyph `k`, as its initialiser lists it. */
  function Section(k: nat): seq<int>
    requires k < GlyphCount
  {
    match k
    case 0 =>  // Ascii 33
      [  5,  21,   5,   7,   5,   2,   4,   1,   4,   1,   5,   0,   5,   0,   6,   1] +
      [  6,   1,   5,   2]
    case 1 =>  // Ascii 34
      [  4,  21,   4,  14,  12,  21,  12,  14]
    case 2 =>  // Ascii 35
      [ 11,  25,   4,  -7,  17,  25,  10,  -7,   4,  12,  18,  12,   3,   6,  17,   6]
    case 3 =>  // Ascii 36
      [  8,  25,   8,  -4,  12,  25,  12,  -4,  17,  18,  15,  20,  15,  20,  12,  21] +
      [ 12,  21,   8,  21,   8,  21,   5,  20,   5,  20,   3,  18,   3,  18,   3,  16] +
      [  3,  16,   4,  14,   4,  14,   5,  13,   5,  13,   7,  12,   7,  12,  13,  10] +
      [ 13,  10,  15,   9,  15,   9,  16,   8,  16,   8,  17,   6,  17,   6,  17,   3] +
      [ 17,   3,  15,   1,  15,   1,  12,   0,  12,   0,   8,   0,   8,   0,   5,   1] +
      [  5,   1,   3,   3]
    case 4 =>  // Ascii 37
      [ 21,  21,   3,   0,   8,  21,  10,  19,  10,  19,  10,  17,  10,  17,   9,  15] +
      [  9,  15,   7,  14,   7,  14,   5,  14,   5,  14,   3,  16,   3,  16,   3,  18] +
      [  4,  20,   6,  21,   6,  21,   8,  21,   8,  21,  10,  20,  10,  20,  13,  19] +
      [ 13,  19,  16,  19,  16,  19,  19,  20,  19,  20,  21,  21,  17,   7,  15,   6] +
      [ 15,   6,  14,   4,  14,   4,  14,   2,  14,   2,  16,   0,  16,   0,  18,   0] +
      [ 18,   0,  20,   1,  20,   1,  21,   3,  21,   3,  21,   5,  21,   5,  19,   7] +
      [ 19,   7,  17,   7]
    case 5 =>  // Ascii 38
      [ 23,  12,  23,  13,  23,  13,  22,  14,  22,  14,  21,  14,  21,  14,  20,  13] +
      [ 20,  13,  19,  11,  19,  11,  17,   6,  17,   6,  15,   3,  15,   3,  13,   1] +
      [ 13,   1,  11,   0,  11,   0,   7,   0,   7,   0,   5,   1,   5,   1,   4,   2] +
      [  4,   2,   3,   4,   3,   4,   3,   6,   3,   6,   4,   8,   4,   8,   5,   9] +
      [  5,   9,  12,  13,  12,  13,  13,  14,  13,  14,  14,  16,  14,  16,  14,  18] +
      [ 14,  18,  13,  20,  13,  20,  11,  21,  11,  21,   9,  20,   9,  20,   8,  18] +
      [  8,  18,   8,  16,   8,  16,   9,  13,   9,  13,  11,  10,  11,  10,  16,   3] +
      [ 16,   3,  18,   1,  18,   1,  20,   0,  20,   0,  22,   0,  22,   0,  23,   1] +
      [ 23,   1,  23,   2]
    case 6 =>  // Ascii 39
      [  5,  19,   4,  20,   4,  20,   5,  21,   5,  21,   6,  20,   6,  20,   6,  18] +
      [  6,  18,   5,  16,   5,  16,   4,  15]
    case 7 =>  // Ascii 40
      [ 11,  25,   9,  23,   9,  23,   7,  20,   7,  20,   5,  16,   5,  16,   4,  11] +
      [  4,  11,   4,   7,   4,   7,   5,   2,   5,   2,   7,  -2,   7,  -2,   9,  -5] +
      [  9,  -5,  11,  -7]
    case 8 =>  // Ascii 41
      [  3,  25,   5,  23,   5,  23,   7,  20,   7,  20,   9,  16,   9,  16,  10,  11] +
      [ 10,  11,  10,   7,  10,   7,   9,   2,   9,   2,   7,  -2,   7,  -2,   5,  -5] +
      [  5,  -5,   3,  -7]
    case 9 =>  // Ascii 42
      [  8,  21,   8,   9,   3,  18,  13,  12,  13,  18,   3,  12]
    case 10 =>  // Ascii 43
      [ 13,  18,  13,   0,   4,   9,  22,   9]
    case 11 =>  // Ascii 44
      [  6,   1,   5,   0,   5,   0,   4,   1,   4,   1,   5,   2,   5,   2,   6,   1] +
      [  6,   1,   6,  -1,   6,  -1,   5,  -3,   5,  -3,   4,  -4]
    case 12 =>  // Ascii 45
      [  4,   9,  22,   9]
    case 13 =>  // Ascii 46
      [  5,   2,   4,   1,   4,   1,   5,   0,   5,   0,   6,   1,   6,   1,   5,   2]
    case 14 =>  // Ascii 47
      [ 20,  25,   2,  -7]
    case 15 =>  // Ascii 48
      [  9,  21,   6,  20,   6,  20,   4,  17,   4,  17,   3,  12,   3,  12,   3,   9] +
      [  3,   9,   4,   4,   4,   4,   6,   1,   6,   1,   9,   0,   9,   0,  11,   0] +
      [ 11,   0,  14,   1,  14,   1,  16,   4,  16,   4,  17,   9,  17,   9,  17,  12] +
      [ 17,  12,  16,  17,  16,  17,  14,  20,  14,  20,  11,  21,  11,  21,   9,  21]
    case 16 =>  // Ascii 49
      [  6,  17,   8,  18,   8,  18,  11,  21,  11,  21,  11,   0]
    case 17 =>  // Ascii 50
      [  4,  16,   4,  17,   4,  17,   5,  19,   5,  19,   6,  20,   6,  20,   8,  21] +
      [  8,  21,  12,  21,  12,  21,  14,  20,  14,  20,  15,  19,  15,  19,  16,  17] +
      [ 16,  17,  16,  15,  16,  15,  15,  13,  15,  13,  13,  10,  13,  10,   3,   0] +
      [  3,   0,  17,   0]
    case 18 =>  // Ascii 51
      [  5,  21,  16,  21,  16,  21,  10,  13,  10,  13,  13,  13,  13,  13,  15,  12] +
      [ 15,  12,  16,  11,  16,  11,  17,   8,  17,   8,  17,   6,  17,   6,  16,   3] +
      [ 16,   3,  14,   1,  14,   1,  11,   0,  11,   0,   8,   0,   8,   0,   5,   1] +
      [  5,   1,   4,   2,   4,   2,   3,   4]
    case 19 =>  // Ascii 52
      [ 13,  21,   3,   7,   3,   7,  18,   7,  13,  21,  13,   0]
    case 20 =>  // Ascii 53
      [ 15,  21,   5,  21,   5,  21,   4,  12,   4,  12,   5,  13,   5,  13,   8,  14] +
      [  8,  14,  11,  14,  11,  14,  14,  13,  14,  13,  16,  11,  16,  11,  17,   8] +
      [ 17,   8,  17,   6,  17,   6,  16,   3,  16,   3,  14,   1,  14,   1,  11,   0] +
      [ 11,   0,   8,   0,   8,   0,   5,   1,   5,   1,   4,   2,   4,   2,   3,   4]
    case 21 =>  // Ascii 54
      [ 16,  18,  15,  20,  15,  20,  12,  21,  12,  21,  10,  21,  10,  21,   7,  20] +
      [  7,  20,   5,  17,   5,  17,   4,  12,   4,  12,   4,   7,   4,   7,   5,   3] +
      [  5,   3,   7,   1,   7,   1,  10,   0,  10,   0,  11,   0,  11,   0,  14,   1] +
      [ 14,   1,  16,   3,  16,   3,  17,   6,  17,   6,  17,   7,  17,   7,  16,  10] +
      [ 16,  10,  14,  12,  14,  12,  11,  13,  11,  13,  10,  13,  10,  13,   7,  12] +
      [  7,  12,   5,  10,   5,  10,   4,   7]
    case 22 =>  // Ascii 55
      [ 17,  21,   7,   0,   3,  21,  17,  21]
    case 23 =>  // Ascii 56
      [  8,  21,   5,  20,   5,  20,   4,  18,   4,  18,   4,  16,   4,  16,   5,  14] +
      [  5,  14,   7,  13,   7,  13,  11,  12,  11,  12,  14,  11,  14,  11,  16,   9] +
      [ 16,   9,  17,   7,  17,   7,  17,   4,  17,   4,  16,   2,  16,   2,  15,   1] +
      [ 15,   1,  12,   0,  12,   0,   8,   0,   8,   0,   5,   1,   5,   1,   4,   2] +
      [  4,   2,   3,   4,   3,   4,   3,   7,   3,   7,   4,   9,   4,   9,   6,  11] +
      [  6,  11,   9,  12,   9,  12,  13,  13,  13,  13,  15,  14,  15,  14,  16,  16] +
      [ 16,  16,  16,  18,  16,  18,  15,  20,  15,  20,  12,  21,  12,  21,   8,  21]
    case 24 =>  // Ascii 57
      [ 16,  14,  15,  11,  15,  11,  13,   9,  13,   9,  10,   8,  10,   8,   9,   8] +
      [  9,   8,   6,   9,   6,   9,   4,  11,   4,  11,   3,  14,   3,  14,   3,  15] +
      [  3,  15,   4,  18,   4,  18,   6,  20,   6,  20,   9,  21,   9,  21,  10,  21] +
      [ 10,  21,  13,  20,  13,  20,  15,  18,  15,  18,  16,  14,  16,  14,  16,   9] +
      [ 16,   9,  15,   4,  15,   4,  13,   1,  13,   1,  10,   0,  10,   0,   8,   0] +
      [  8,   0,   5,   1,   5,   1,   4,   3]
    case 25 =>  // Ascii 58
      [  5,  14,   4,  13,   4,  13,   5,  12,   5,  12,   6,  13,   6,  13,   5,  14] +
      [  5,   2,   4,   1,   4,   1,   5,   0,   5,   0,   6,   1,   6,   1,   5,   2]
    case 26 =>  // Ascii 59
      [  5,  14,   4,  13,   4,  13,   5,  12,   5,  12,   6,  13,   6,  13,   5,  14] +
      [  6,   1,   5,   0,   5,   0,   4,   1,   4,   1,   5,   2,   5,   2,   6,   1] +
      [  6,   1,   6,  -1,   6,  -1,   5,  -3,   5,  -3,   4,  -4]
    case 27 =>  // Ascii 60
      [ 20,  18,   4,   9,   4,   9,  20,   0]
    case 28 =>  // Ascii 61
      [  4,  12,  22,  12,   4,   6,  22,   6]
    case 29 =>  // Ascii 62
      [  4,  18,  20,   9,  20,  29,   4,   0]
    case 30 =>  // Ascii 63
      [  3,  16,   3,  17,   3,  17,   4,  19,   4,  19,   5,  20,   5,  20,   7,  21] +
      [  7,  21,  11,  21,  11,  21,  13,  20,  13,  20,  14,  19,  14,  19,  15,  17] +
      [ 15,  17,  15,  15,  15,  15,  14,  13,  14,  13,  13,  12,  13,  12,   9,  10] +
      [  9,  10,   9,   7,   9,   2,   8,   1,   8,   1,   9,   0,   9,   0,  10,   1] +
      [ 10,   1,   9,   2]
    case 31 =>  // Ascii 64
      [ 18,  13,  17,  15,  17,  15,  15,  16,  15,  16,  12,  16,  12,  16,  10,  15] +
      [ 10,  15,   9,  14,   9,  14,   8,  11,   8,  11,   8,   8,   8,   8,   9,   6] +
      [  9,   6,  11,   5,  11,   5,  14,   5,  14,   5,  16,   6,  16,   6,  17,   8] +
      [ 12,  16,  10,  14,  10,  14,   9,  11,   9,  11,   9,   8,   9,   8,  10,   6] +
      [ 10,   6,  11,   5,  18,  16,  17,   8,  17,   8,  17,   6,  17,   6,  19,   5] +
      [ 19,   5,  21,   5,  21,   5,  23,   7,  23,   7,  24,  10,  24,  10,  24,  12] +
      [ 24,  12,  23,  15,  23,  15,  22,  17,  22,  17,  20,  19,  20,  19,  18,  20] +
      [ 18,  20,  15,  21,  15,  21,  12,  21,  12,  21,   9,  20,   9,  20,   7,  19] +
      [  7,  19,   5,  17,   5,  17,   4,  15,   4,  15,   3,  12,   3,  12,   3,   9] +
      [  3,   9,   4,   6,   4,   6,   5,   4,   5,   4,   7,   2,   7,   2,   9,   1] +
      [  9,   1,  12,   0,  12,   0,  15,   0,  15,   0,  18,   1,  18,   1,  20,   2] +
      [ 20,   2,  21,   3,  19,  16,  18,   8,  18,   8,  18,   6,  18,   6,  19,   5]
    case 32 =>  // Ascii 65
      [  9,  21,   1,   0,   9,  21,  17,   0,   4,   7,  14,   7]
    case 33 =>  // Ascii 66
      [  4,  21,   4,   0,   4,  21,  13,  21,  13,  21,  16,  20,  16,  20,  17,  19] +
      [ 17,  19,  18,  17,  18,  17,  18,  15,  18,  15,  17,  13,  17,  13,  16,  12] +
      [ 16,  12,  13,  11,   4,  11,  13,  11,  13,  11,  16,  10,  16,  10,  17,   9] +
      [ 17,   9,  18,   7,  18,   7,  18,   4,  18,   4,  17,   2,  17,   2,  16,   1] +
      [ 16,   1,  13,   0,  13,   0,   4,   0]
    case 34 =>  // Ascii 67
      [ 18,  16,  17,  18,  17,  18,  15,  20,  15,  20,  13,  21,  13,  21,   9,  21] +
      [  9,  21,   7,  20,   7,  20,   5,  18,   5,  18,   4,  16,   4,  16,   3,  13] +
      [  3,  13,   3,   8,   3,   8,   4,   5,   4,   5,   5,   3,   5,   3,   7,   1] +
      [  7,   1,   9,   0,   9,   0,  13,   0,  13,   0,  15,   1,  15,   1,  17,   3] +
      [ 17,   3,  18,   5]
    case 35 =>  // Ascii 68
      [  4,  21,   4,   0,   4,  21,  11,  21,  11,  21,  14,  20,  14,  20,  16,  18] +
      [ 16,  18,  17,  16,  17,  16,  18,  13,  18,  13,  18,   8,  18,   8,  17,   5] +
      [ 17,   5,  16,   3,  16,   3,  14,   1,  14,   1,  11,   0,  11,   0,   4,   0]
    case 36 =>  // Ascii 69
      [  4,  21,   4,   0,   4,  21,  17,  21,   4,  11,  12,  11,   4,   0,  17,   0]
    case 37 =>  // Ascii 70
      [  4,  21,   4,   0,   4,  21,  17,  21,   4,  11,  12,  11]
    case 38 =>  // Ascii 71
      [ 18,  16,  17,  18,  17,  18,  15,  20,  15,  20,  13,  21,  13,  21,   9,  21] +
      [  9,  21,   7,  20,   7,  20,   5,  18,   5,  18,   4,  16,   4,  16,   3,  13] +
      [  3,  13,   3,   8,   3,   8,   4,   5,   4,   5,   5,   3,   5,   3,   7,   1] +
      [  7,   1,   9,   0,   9,   0,  13,   0,  13,   0,  15,   1,  15,   1,  17,   3] +
      [ 17,   3,  18,   5,  18,   5,  18,   8,  13,   8,  18,   8]
    case 39 =>  // Ascii 72
      [  4,  21,   4,   0,  18,  21,  18,   0,   4,  11,  18,  11]
    case 40 =>  // Ascii 73
      [  4,  21,   4,   0]
    case 41 =>  // Ascii 74
      [ 12,  21,  12,   5,  12,   5,  11,   2,  11,   2,  10,   1,  10,   1,   8,   0] +
      [  8,   0,   6,   0,   6,   0,   4,   1,   4,   1,   3,   2,   3,   2,   2,   5] +
      [  2,   5,   2,   7]
    case 42 =>  // Ascii 75
      [  4,  21,   4,   0,  18,  21,   4,   7,   9,  12,  18,   0]
    case 43 =>  // Ascii 76
      [  4,  21,   4,   0,   4,   0,  16,   0]
    case 44 =>  // Ascii 77
      [  4,  21,   4,   0,   4,  21,  12,   0,  20,  21,  12,   0,  20,  21,  20,   0]
    case 45 =>  // Ascii 78
      [  4,  21,   4,   0,   4,  21,  18,   0,  18,  21,  18,   0]
    case 46 =>  // Ascii 79
      [  9,  21,   7,  20,   7,  20,   5,  18,   5,  18,   4,  16,   4,  16,   3,  13] +
      [  3,  13,   3,   8,   3,   8,   4,   5,   4,   5,   5,   3,   5,   3,   7,   1] +
      [  7,   1,   9,   0,   9,   0,  13,   0,  13,   0,  15,   1,  15,   1,  17,   3] +
      [ 17,   3,  18,   5,  18,   5,  19,   8,  19,   8,  19,  13,  19,  13,  18,  16] +
      [ 18,  16,  17,  18,  17,  18,  15,  20,  15,  20,  13,  21,  13,  21,   9,  21]
    case 47 =>  // Ascii 80
      [  4,  21,   4,   0,   4,  21,  13,  21,  13,  21,  16,  20,  16,  20,  17,  19] +
      [ 17,  19,  18,  17,  18,  17,  18,  14,  18,  14,  17,  12,  17,  12,  16,  11] +
      [ 16,  11,  13,  10,  13,  10,   4,  10]
    case 48 =>  // Ascii 81
      [  9,  21,   7,  20,   7,  20,   5,  18,   5,  18,   4,  16,   4,  16,   3,  13] +
      [  3,  13,   3,   8,   3,   8,   4,   5,   4,   5,   5,   3,   5,   3,   7,   1] +
      [  7,   1,   9,   0,   9,   0,  13,   0,  13,   0,  15,   1,  15,   1,  17,   3] +
      [ 17,   3,  18,   5,  18,   5,  19,   8,  19,   8,  19,  13,  19,  13,  18,  16] +
      [ 18,  16,  17,  18,  17,  18,  15,  20,  15,  20,  13,  21,  13,  21,   9,  21] +
      [ 12,   4,  18,  -2]
    case 49 =>  // Ascii 82
      [  4,  21,   4,   0,   4,  21,  13,  21,  13,  21,  16,  20,  16,  20,  17,  19] +
      [ 17,  19,  18,  17,  18,  17,  18,  15,  18,  15,  17,  13,  17,  13,  16,  12] +
      [ 16,  12,  13,  11,  13,  11,   4,  11,  11,  11,  18,   0]
    case 50 =>  // Ascii 83
      [ 17,  18,  15,  20,  15,  20,  12,  21,  12,  21,   8,  21,   8,  21,   5,  20] +
      [  5,  20,   3,  18,   3,  18,   3,  16,   3,  16,   4,  14,   4,  14,   5,  13] +
      [  5,  13,   7,  12,   7,  12,  13,  10,  13,  10,  15,   9,  15,   9,  16,   8] +
      [ 16,   8,  17,   6,  17,   6,  17,   3,  17,   3,  15,   1,  15,   1,  12,   0] +
      [ 12,   0,   8,   0,   8,   0,   5,   1,   5,   1,   3,   3]
    case 51 =>  // Ascii 84
      [  8,  21,   8,   0,   1,  21,  15,  21]
    case 52 =>  // Ascii 85
      [  4,  21,   4,   6,   4,   6,   5,   3,   5,   3,   7,   1,   7,   1,  10,   0] +
      [ 10,   0,  12,   0,  12,   0,  15,   1,  15,   1,  17,   3,  17,   3,  18,   6] +
      [ 18,   6,  18,  21]
    case 53 =>  // Ascii 86
      [  1,  21,   9,   0,  17,  21,   9,   0]
    case 54 =>  // Ascii 87
      [  2,  21,   7,   0,  12,  21,   7,   0,  12,  21,  17,   0,  22,  21,  17,   0]
    case 55 =>  // Ascii 88
      [  3,  21,  17,   0,  17,  21,   3,   0]
    case 56 =>  // Ascii 89
      [  1,  21,   9,  11,   9,  11,   9,   0,  17,  21,   9,  11]
    case 57 =>  // Ascii 90
      [ 17,  21,   3,   0,   3,  21,  17,  21,   3,   0,  17,   0]
    case 58 =>  // Ascii 91
      [  4,  25,   4,  -7,   5,  25,   5,  -7,   4,  25,  11,  25,   4,  -7,  11,  -7]
    case 59 =>  // Ascii 92
      [  0,  21,  14,  -3]
    case 60 =>  // Ascii 93
      [  9,  25,   9,  -7,  10,  25,  10,  -7,   3,  25,  10,  25,   3,  -7,  10,  -7]
    case 61 =>  // Ascii 94
      [  6,  15,   8,  18,   8,  18,  10,  15,   3,  12,   8,  17,   8,  17,  13,  12] +
      [  8,  17,   8,   0]
    case 62 =>  // Ascii 95
      [  0,  -2,  16,  -2]
    case 63 =>  // Ascii 96
      [  6,  21,   5,  20,   5,  20,   4,  18,   4,  18,   4,  16,   4,  16,   5,  15] +
      [  5,  15,   6,  16,   6,  16,   5,  17]
    case 64 =>  // Ascii 97
      [ 15,  14,  15,   0,  15,  11,  13,  13,  13,  13,  11,  14,  11,  14,   8,  14] +
      [  8,  14,   6,  13,   6,  13,   4,  11,   4,  11,   3,   8,   3,   8,   3,   6] +
      [  3,   6,   4,   3,   4,   3,   6,   1,   6,   1,   8,   0,   8,   0,  11,   0] +
      [ 11,   0,  13,   1,  13,   1,  15,   3]
    case 65 =>  // Ascii 98
      [  4,  21,   4,   0,   4,  11,   6,  13,   6,  13,   8,  14,   8,  14,  11,  14] +
      [ 11,  14,  13,  13,  13,  13,  15,  11,  15,  11,  16,   8,  16,   8,  16,   6] +
      [ 16,   6,  15,   3,  15,   3,  13,   1,  13,   1,  11,   0,  11,   0,   8,   0] +
      [  8,   0,   6,   1,   6,   1,   4,   3]
    case 66 =>  // Ascii 99
      [ 15,  11,  13,  13,  13,  13,  11,  14,  11,  14,   8,  14,   8,  14,   6,  13] +
      [  6,  13,   4,  11,   4,  11,   3,   8,   3,   8,   3,   6,   3,   6,   4,   3] +
      [  4,   3,   6,   1,   6,   1,   8,   0,   8,   0,  11,   0,  11,   0,  13,   1] +
      [ 13,   1,  15,   3]
    case 67 =>  // Ascii 100
      [ 15,  21,  15,   0,  15,  11,  13,  13,  13,  13,  11,  14,  11,  14,   8,  14] +
      [  8,  14,   6,  13,   6,  13,   4,  11,   4,  11,   3,   8,   3,   8,   3,   6] +
      [  3,   6,   4,   3,   4,   3,   6,   1,   6,   1,   8,   0,   8,   0,  11,   0] +
      [ 11,   0,  13,   1,  13,   1,  15,   3]
    case 68 =>  // Ascii 101
      [  3,   8,  15,   8,  15,   8,  15,  10,  15,  10,  14,  12,  14,  12,  13,  13] +
      [ 13,  13,  11,  14,  11,  14,   8,  14,   8,  14,   6,  13,   6,  13,   4,  11] +
      [  4,  11,   3,   8,   3,   8,   3,   6,   3,   6,   4,   3,   4,   3,   6,   1] +
      [  6,   1,   8,   0,   8,   0,  11,   0,  11,   0,  13,   1,  13,   1,  15,   3]
    case 69 =>  // Ascii 102
      [ 10,  21,   8,  21,   8,  21,   6,  20,   6,  20,   5,  17,   5,  17,   5,   0] +
      [  2,  14,   9,  14]
    case 70 =>  // Ascii 103
      [ 15,  14,  15,  -2,  15,  -2,  14,  -5,  14,  -5,  13,  -6,  13,  -6,  11,  -7] +
      [ 11,  -7,   8,  -7,   8,  -7,   6,  -6,  15,  11,  13,  13,  13,  13,  11,  14] +
      [ 11,  14,   8,  14,   8,  14,   6,  13,   6,  13,   4,  11,   4,  11,   3,   8] +
      [  3,   8,   3,   6,   3,   6,   4,   3,   4,   3,   6,   1,   6,   1,   8,   0] +
      [  8,   0,  11,   0,  11,   0,  13,   1,  13,   1,  15,   3]
    case 71 =>  // Ascii 104
      [  4,  21,   4,   0,   4,  10,   7,  13,   7,  13,   9,  14,   9,  14,  12,  14] +
      [ 12,  14,  14,  13,  14,  13,  15,  10,  15,  10,  15,   0]
    case 72 =>  // Ascii 105
      [  3,  21,   4,  20,   4,  20,   5,  21,   5,  21,   4,  22,   4,  22,   3,  21] +
      [  4,  14,   4,   0]
    case 73 =>  // Ascii 106
      [  5,  21,   6,  20,   6,  20,   7,  21,   7,  21,   6,  22,   6,  22,   5,  21] +
      [  6,  14,   6,  -3,   6,  -3,   5,  -6,   5,  -6,   3,  -7,   3,  -7,   1,  -7]
    case 74 =>  // Ascii 107
      [  4,  21,   4,   0,  14,  14,   4,   4,   8,   8,  15,   0]
    case 75 =>  // Ascii 108
      [  4,  21,   4,   0]
    case 76 =>  // Ascii 109
      [  4,  14,   4,   0,   4,  10,   7,  13,   7,  13,   9,  14,   9,  14,  12,  14] +
      [ 12,  14,  14,  13,  14,  13,  15,  10,  15,  10,  15,   0,  15,  10,  18,  13] +
      [ 18,  13,  20,  14,  20,  14,  23,  14,  23,  14,  25,  13,  25,  13,  26,  10] +
      [ 26,  10,  26,   0]
    case 77 =>  // Ascii 110
      [  4,  14,   4,   0,   4,  10,   7,  13,   7,  13,   9,  14,   9,  14,  12,  14] +
      [ 12,  14,  14,  13,  14,  13,  15,  10,  15,  10,  15,   0]
    case 78 =>  // Ascii 111
      [  8,  14,   6,  13,   6,  13,   4,  11,   4,  11,   3,   8,   3,   8,   3,   6] +
      [  3,   6,   4,   3,   4,   3,   6,   1,   6,   1,   8,   0,   8,   0,  11,   0] +
      [ 11,   0,  13,   1,  13,   1,  15,   3,  15,   3,  16,   6,  16,   6,  16,   8] +
      [ 16,   8,  15,  11,  15,  11,  13,  13,  13,  13,  11,  14,  11,  14,   8,  14]
    case 79 =>  // Ascii 112
      [  4,  14,   4,  -7,   4,  11,   6,  13,   6,  13,   8,  14,   8,  14,  11,  14] +
      [ 11,  14,  13,  13,  13,  13,  15,  11,  15,  11,  16,   8,  16,   8,  16,   6] +
      [ 16,   6,  15,   3,  15,   3,  13,   1,  13,   1,  11,   0,  11,   0,   8,   0] +
      [  8,   0,   6,   1,   6,   1,   4,   3]
    case 80 =>  // Ascii 113
      [ 15,  14,  15,  -7,  15,  11,  13,  13,  13,  13,  11,  14,  11,  14,   8,  14] +
      [  8,  14,   6,  13,   6,  13,   4,  11,   4,  11,   3,   8,   3,   8,   3,   6] +
      [  3,   6,   4,   3,   4,   3,   6,   1,   6,   1,   8,   0,   8,   0,  11,   0] +
      [ 11,   0,  13,   1,  13,   1,  15,   3]
    case 81 =>  // Ascii 114
      [  4,  14,   4,   0,   4,   8,   5,  11,   5,  11,   7,  13,   7,  13,   9,  14] +
      [  9,  14,  12,  14]
    case 82 =>  // Ascii 115
      [ 14,  11,  13,  13,  13,  13,  10,  14,  10,  14,   7,  14,   7,  14,   4,  13] +
      [  4,  13,   3,  11,   3,  11,   4,   9,   4,   9,   6,   8,   6,   8,  11,   7] +
      [ 11,   7,  13,   6,  13,   6,  14,   4,  14,   4,  14,   3,  14,   3,  13,   1] +
      [ 13,   1,  10,   0,  10,   0,   7,   0,   7,   0,   4,   1,   4,   1,   3,   3]
    case 83 =>  // Ascii 116
      [  5,  21,   5,   4,   5,   4,   6,   1,   6,   1,   8,   0,   8,   0,  10,   0] +
      [  2,  14,   9,  14]
    case 84 =>  // Ascii 117
      [  4,  14,   4,   4,   4,   4,   5,   1,   5,   1,   7,   0,   7,   0,  10,   0] +
      [ 10,   0,  12,   1,  12,   1,  15,   4,  15,  14,  15,   0]
    case 85 =>  // Ascii 118
      [  2,  14,   8,   0,  14,  14,   8,   0]
    case 86 =>  // Ascii 119
      [  3,  14,   7,   0,  11,  14,   7,   0,  11,  14,  15,   0,  19,  14,  15,   0]
    case 87 =>  // Ascii 120
      [  3,  14,  14,   0,  14,  14,   3,   0]
    case 88 =>  // Ascii 121
      [  2,  14,   8,   0,  14,  14,   8,   0,   8,   0,   6,  -4,   6,  -4,   4,  -6] +
      [  4,  -6,   2,  -7,   2,  -7,   1,  -7]
    case 89 =>  // Ascii 122
      [ 14,  14,   3,   0,   3,  14,  14,  14,   3,   0,  14,   0]
    case 90 =>  // Ascii 123
      [  9,  25,   7,  24,   7,  24,   6,  23,   6,  23,   5,  21,   5,  21,   5,  19] +
      [  5,  19,   6,  17,   6,  17,   7,  16,   7,  16,   8,  14,   8,  14,   8,  12] +
      [  8,  12,   6,  10,   7,  24,   6,  22,   6,  22,   6,  20,   6,  20,   7,  18] +
      [  7,  18,   8,  17,   8,  17,   9,  15,   9,  15,   9,  13,   9,  13,   8,  11] +
      [  8,  11,   4,   9,   4,   9,   8,   7,   8,   7,   9,   5,   9,   5,   9,   3] +
      [  9,   3,   8,   1,   8,   1,   7,   0,   7,   0,   6,  -2,   6,  -2,   6,  -4] +
      [  6,  -4,   7,  -6,   6,   8,   8,   6,   8,   6,   8,   4,   8,   4,   7,   2] +
      [  7,   2,   6,   1,   6,   1,   5,  -1,   5,  -1,   5,  -3,   5,  -3,   6,  -5] +
      [  6,  -5,   7,  -6,   7,  -6,   9,  -7]
    case 91 =>  // Ascii 124
      [  4,  25,   4,  -7]
    case 92 =>  // Ascii 125
      [  5,  25,   7,  24,   7,  24,   8,  23,   8,  23,   9,  21,   9,  21,   9,  19] +
      [  9,  19,   8,  17,   8,  17,   7,  16,   7,  16,   6,  14,   6,  14,   6,  12] +
      [  6,  12,   8,  10,   7,  24,   8,  22,   8,  22,   8,  20,   8,  20,   7,  18] +
      [  7,  18,   6,  17,   6,  17,   5,  15,   5,  15,   5,  13,   5,  13,   6,  11] +
      [  6,  11,  10,   9,  10,   9,   6,   7,   6,   7,   5,   5,   5,   5,   5,   3] +
      [  5,   3,   6,   1,   6,   1,   7,   0,   7,   0,   8,  -2,   8,  -2,   8,  -4] +
      [  8,  -4,   7,  -6,   8,   8,   6,   6,   6,   6,   6,   4,   6,   4,   7,   2] +
      [  7,   2,   8,   1,   8,   1,   9,  -1,   9,  -1,   9,  -3,   9,  -3,   8,  -5] +
      [  8,  -5,   7,  -6,   7,  -6,   5,  -7]
    case 93 =>  // Ascii 126
      [  3,   6,   3,   8,   3,   8,   4,  11,   4,  11,   6,  12,   6,  12,   8,  12] +
      [  8,  12,  10,  11,  10,  11,  14,   8,  13,   8,  16,   7,  16,   7,  18,   7] +
      [ 18,   7,  20,   8,  20,   8,  21,  10,   3,   8,   4,  10,   4,  10,   6,  11] +
      [  6,  11,   8,  11,   8,  11,  10,  10,  10,  10,  14,   7,  14,   7,  16,   6] +
      [ 16,   6,  18,   6,  18,   6,  20,   7,  20,   7,  21,  10,  21,  10,  21,  12]
  }

  /** The sections of all glyphs, in glyph order: the `font_vertex` initialiser. */
  function Sections(): (ss: seq<seq<int>>)
    ensures |ss| == GlyphCount
  {
    seq(GlyphCount, k requires 0 <= k < GlyphCount => Section(k))
  }

  /** Entry `i` of the values listed from section `k` of `ss` on, or zero once
    * they run out. */
  function ListedAt(ss: seq<seq<int>>, k: nat, i: nat): int
    decreases |ss| - k
  {
    if k >= |ss| then 0
    else if i < |ss[k]| then ss[k][i]
    else ListedAt(ss, k + 1, i - |ss[k]|)
  }

  /** Where section `k` of `ss` begins among the listed values: the total
    * length of the sections before it. */
  function SectionStart(ss: seq<seq<int>>, k: nat): nat
    requires k <= |ss|
  {
    if k == 0 then 0 else SectionStart(ss, k - 1) + |ss[k - 1]|
  }

  /** Entry `i` of `font_vertex`: the listed value, or zero past the listed ones. */
  function FontVertexAt(i: nat): int
  {
    ListedAt(Sections(), 0, i)
  }

  /** Row `r` of `font_index`: where each glyph starts in `font_vertex`. */
  function IndexRow(r: nat): (row: seq<int>)
    requires r < RowCount
    ensures |row| == RowLength(r)
  {
    match r
    case 0 => [0, 20, 28, 44, 128, 228, 360, 384]  // Ascii 33 to 40
    case 1 => [420, 456, 468, 476, 504, 508, 524, 528]  // Ascii 41 to 48
    case 2 => [592, 604, 656, 712, 724, 788, 876, 884]  // Ascii 49 to 56
    case 3 => [996, 1084, 1116, 1160, 1168, 1176, 1184, 1252]  // Ascii 57 to 64
    case 4 => [1444, 1456, 1528, 1596, 1644, 1660, 1672, 1748]  // Ascii 65 to 72
    case 5 => [1760, 1764, 1800, 1812, 1820, 1836, 1848, 1928]  // Ascii 73 to 80
    case 6 => [1968, 2052, 2096, 2172, 2180, 2216, 2224, 2240]  // Ascii 81 to 88
    case 7 => [2248, 2260, 2272, 2288, 2292, 2308, 2328, 2332]  // Ascii 89 to 96
    case 8 => [2356, 2412, 2468, 2520, 2576, 2640, 2660, 2736]  // Ascii 97 to 104
    case 9 => [2764, 2784, 2816, 2828, 2832, 2884, 2912, 2976]  // Ascii 105 to 112
    case 10 => [3032, 3088, 3108, 3172, 3192, 3220, 3228, 3244]  // Ascii 113 to 120
    case 11 => [3252, 3276, 3288, 3424, 3428, 3564]  // Ascii 121 to 126
  }

  /** Entry `k` of `font_index`. */
  function FontIndexAt(k: nat): int
    requires k < GlyphCount
  {
    IndexRow(k / RowWidth)[k % RowWidth]
  }

  /** Row `r` of `font_numdata`: how many integers describe each glyph. */
  function NumdataRow(r: nat): (row: seq<int>)
    requires r < RowCount
    ensures |row| == RowLength(r)
  {
    match r
    case 0 => [20, 8, 16, 84, 100, 132, 24, 36]  // Ascii 33 to 40
    case 1 => [36, 12, 8, 28, 4, 16, 4, 64]  // Ascii 41 to 48
    case 2 => [12, 52, 56, 12, 64, 88, 8, 112]  // Ascii 49 to 56
    case 3 => [88, 32, 44, 8, 8, 8, 68, 192]  // Ascii 57 to 64
    case 4 => [12, 72, 68, 48, 16, 12, 76, 12]  // Ascii 65 to 72
    case 5 => [4, 36, 12, 8, 16, 12, 80, 40]  // Ascii 73 to 80
    case 6 => [84, 44, 76, 8, 36, 8, 16, 8]  // Ascii 81 to 88
    case 7 => [12, 12, 16, 6, 16, 20, 4, 24]  // Ascii 89 to 96
    case 8 => [56, 56, 52, 56, 64, 20, 76, 28]  // Ascii 97 to 104
    case 9 => [20, 32, 12, 4, 52, 28, 64, 56]  // Ascii 105 to 112
    case 10 => [56, 20, 64, 20, 28, 8, 16, 8]  // Ascii 113 to 120
    case 11 => [24, 12, 136, 4, 136, 80]  // Ascii 121 to 126
  }

  /** Entry `k` of `font_numdata`. */
  function FontNumdataAt(k: nat): int
    requires k < GlyphCount
  {
    NumdataRow(k / RowWidth)[k % RowWidth]
  }

  /** Row `r` of `font_width`: the horizontal advance of each glyph. */
  function WidthRow(r: nat): (row: seq<int>)
    requires r < RowCount
    ensures |row| == RowLength(r)
  {
    match r
    case 0 => [10, 16, 21, 20, 24, 26, 10, 14]  // Ascii 33 to 40
    case 1 => [14, 16, 26, 10, 26, 10, 22, 20]  // Ascii 41 to 48
    case 2 => [20, 20, 20, 20, 20, 20, 20, 20]  // Ascii 49 to 56
    case 3 => [20, 10, 10, 24, 26, 24, 18, 27]  // Ascii 57 to 64
    case 4 => [18, 21, 21, 21, 19, 18, 21, 22]  // Ascii 65 to 72
    case 5 => [8, 16, 21, 17, 24, 22, 22, 21]  // Ascii 73 to 80
    case 6 => [22, 21, 20, 16, 22, 18, 24, 20]  // Ascii 81 to 88
    case 7 => [18, 20, 14, 14, 14, 16, 16, 10]  // Ascii 89 to 96
    case 8 => [19, 19, 18, 19, 18, 12, 19, 19]  // Ascii 97 to 104
    case 9 => [8, 10, 17, 8, 30, 19, 19, 19]  // Ascii 105 to 112
    case 10 => [19, 13, 17, 12, 19, 16, 22, 17]  // Ascii 113 to 120
    case 11 => [16, 17, 14, 8, 14, 24]  // Ascii 121 to 126
  }

  /** Entry `k` of `font_width`. */
  function FontWidthAt(k: nat): int
    requires k < GlyphCount
  {
    WidthRow(k / RowWidth)[k % RowWidth]
  }
}
