# neutrino core in Dafny

This project models the sequential logic of the neutrino OpenCL/OpenGL
framework and proves properties about it. The GPU calls are not modelled;
every object they create is the number that identifies it.

There are four parts:

- **Vector-font text layout** (`text4` in `Code/src/opencl.cpp`).
  - The Hershey simplex glyph tables `font_vertex`, `font_index`,
    `font_numdata` and `font_width` are written out as data
    (module `HersheyTables`).
  - The relations between the tables are proved glyph by glyph
    (module `Glyphs`): each glyph's run fits the vertex table, and
    `font_index[k]` is where glyph k's listed section begins in
    `font_vertex` (module `GlyphSections` gives the section lengths and
    offsets).
  - The layout of a string is given as functions of a font and the text
    (module `TextLayout`), over any well-formed font (module `Fonts`).
    It covers character classification, the totals, data indices, kerns,
    offsets and point coordinates. A space adds no point: it moves the
    characters after it only by `font_width[0]`, and its wide kern
    (`ASCII_SPACE_BIG`) reaches no coordinate.
  - The `text4` constructor is a class whose loops are proved to compute
    those functions (module `Text4`).
  - Facts about the Hershey font itself are in module `HersheyText`.
- **OpenCL error names**: `get_error` as a total function (module `ClError`).
- **Structure-of-arrays to interleaved packing.** This covers the
  `float4`/`int4` constructors and `push_int4` in `Code/src/opencl.cpp`
  (module `Vector4`) and the `int4` container of `Code/src/int4.cpp`
  (module `Int4Buffer`). Both are built on the packing function and its
  inverse in module `Interleaving`: slot `4*i + k` holds component `k` of
  element `i`.
- **Bookkeeping.**
  - The `link` neighbour table of `Code/src/link.cpp` (module `Link`).
  - The `kernel` class of `Code/src/kernel.cpp` (module `Kernel`): its fresh
    state, the kernel file names, registration of the kernel id in the first
    free slot, and the `ready`/`layout` logic of `setarg`.

The foreign objects (VAOs, VBOs, OpenCL buffers, programs, kernels) appear as
`nat` parameters chosen by the caller. An OpenCL memory object is
`Handles.MemObject`: either a device buffer, or a buffer shared with an
OpenGL VBO.

## Model

| member | source | states |
|---|---|---|
| HersheyTables.Section | Code/src/opencl.cpp:29-483 | glyph k's section of the `font_vertex` initialiser, as listed; `GlyphSections.SectionLength` gives its length and `Glyphs.VertexHoldsSection` places it in `font_vertex` (no contract of its own) |
| HersheyTables.Sections | Code/src/opencl.cpp:29-483 | the `font_vertex` initialiser as its 94 sections in glyph order |
| HersheyTables.ListedAt | Code/src/opencl.cpp:29-483 | entry i of the values listed from section k on, zero once they run out; `GlyphSections.ListedFromSection` says where each section falls (no contract of its own) |
| HersheyTables.SectionStart | Code/src/opencl.cpp:29-483 | where section k begins among the listed values: the total length of the sections before it; `Glyphs.IndexIsSectionStart` proves it is `font_index[k]` (no contract of its own) |
| HersheyTables.FontVertexAt | Code/src/opencl.cpp:29-483 | `font_vertex[i]`: the listed value, or zero for the trailing slots the initialiser leaves to zero; `Glyphs.GlyphRunFits` proves every glyph reads only inside the 3646 slots, and `Glyphs.VertexHoldsSection` what it reads (no contract of its own) |
| HersheyTables.FontIndexAt | Code/src/opencl.cpp:485-580 | `font_index[k]`, read from its row; `Glyphs.GlyphRunFits` and `Glyphs.IndexFollowsNumdata` state what the table satisfies (no contract of its own) |
| HersheyTables.FontNumdataAt | Code/src/opencl.cpp:582-677 | `font_numdata[k]`, read from its row; `Glyphs.GlyphRunFits` and `Glyphs.IndexFollowsNumdata` state what the table satisfies (no contract of its own) |
| HersheyTables.FontWidthAt | Code/src/opencl.cpp:679-774 | `font_width[k]`, read from its row; `HersheyText.HersheySpaceWidth` gives the entry a space uses (no contract of its own) |
| HersheyTables.IndexRow | Code/src/opencl.cpp:485-580 | each row of `font_index` as written has its full length (8, last row 6), so the 94 entries are all there |
| HersheyTables.NumdataRow | Code/src/opencl.cpp:582-677 | each row of `font_numdata` as written has its full length, so the 94 entries are all there |
| HersheyTables.WidthRow | Code/src/opencl.cpp:679-774 | each row of `font_width` as written has its full length, so the 94 entries are all there |
| Glyphs.GlyphTableFacts | Code/src/opencl.cpp:22-25 | for every glyph: its run fits `font_vertex` and is a positive even count; the next glyph starts where its data end exactly when it is not the backslash |
| Glyphs.GlyphRunFits | Code/src/opencl.cpp:29-774 | every glyph's run `font_index[k] .. font_index[k]+font_numdata[k]-1` is non-empty, has even length and lies inside the 3646-entry `font_vertex` |
| Glyphs.IndexFollowsNumdata | Code/src/opencl.cpp:22-25 | `font_index[k+1] == font_index[k] + font_numdata[k]` holds if and only if glyph k is not Ascii 92 |
| Glyphs.BackslashOverrunsNextGlyph | Code/src/opencl.cpp:314-315 | the Ascii 92 section holds 4 integers and Ascii 93 starts 4 entries later, but `font_numdata` says 6, so its run reads 2 integers of Ascii 93 |
| GlyphSections.SectionLength | Code/src/opencl.cpp:29-677 | every glyph's listed section holds `font_numdata[k]` integers, except the backslash's, which holds 4 |
| GlyphSections.ListedFromSection | Code/src/opencl.cpp:29-483 | read from section j on, the listed values hold section k, entry for entry, after the sections j .. k-1 |
| GlyphSections.SectionInVertex | Code/src/opencl.cpp:29-483 | entry i of glyph k's section is `font_vertex[SectionStart(k) + i]` |
| Glyphs.NumdataIsSectionLength | Code/src/opencl.cpp:582-677 | `font_numdata[k]` is the length of glyph k's section if and only if k is not the backslash; the corrected entry is the length for every glyph |
| Glyphs.IndexIsSectionStart | Code/src/opencl.cpp:20-25 | for all 94 glyphs, `font_index[k]` is the offset in `font_vertex` at which glyph k's section begins |
| Glyphs.VertexHoldsSection | Code/src/opencl.cpp:20-25 | reading `font_vertex` from `font_index[k]` gives glyph k's listed section, entry for entry, for all 94 glyphs |
| Glyphs.BackslashReadsNextSection | Code/src/opencl.cpp:314-318 | the two integers the backslash's run reads past its own 4-integer section are the first two of the Ascii 93 section, (9, 25) |
| Glyphs.CorrectedIndexFollowsNumdata | Code/src/opencl.cpp:642 | with the backslash entry corrected to 4, the documented relation holds for every glyph, and every entry is positive and even |
| Glyphs.FontNumdataCorrectedAt | Code/src/opencl.cpp:642 | `font_numdata` with the backslash entry set to its section length; `Glyphs.CorrectedIndexFollowsNumdata` proves the documented relation for it (no contract of its own) |
| Glyphs.Hershey | Code/src/opencl.cpp:29-774 | the four tables as written, as one font; `Glyphs.HersheyWellFormed` proves it well formed (no contract of its own) |
| Glyphs.HersheyCorrected | Code/src/opencl.cpp:642 | the same font with the corrected `font_numdata`; `Glyphs.HersheyCorrectedWellFormed` proves it well formed (no contract of its own) |
| Glyphs.HersheyWellFormed | Code/src/opencl.cpp:29-774 | the font as written is a well-formed font of 94 glyphs over a 3646-entry vertex table |
| Glyphs.HersheyCorrectedWellFormed | Code/src/opencl.cpp:642 | the corrected font is well formed too |
| HersheyText.HersheySpaceWidth | Code/src/opencl.cpp:679-680 | glyph 0 (Ascii 33), the one a space looks up, has width 10, so a space advances the text by 10 |
| HersheyText.HersheyNoEmptyGlyph | Code/src/opencl.cpp:582-677 | no glyph of the Hershey font has an empty run |
| TextLayout.Item | Code/src/opencl.cpp:925-937 | every printable character looks up one of the 94 glyphs |
| TextLayout.CharNumdata | Code/src/opencl.cpp:925-937 | every character's data count is even, so its data are whole (x, y) pairs |
| TextLayout.CharKern | Code/src/opencl.cpp:925-937 | every kern is at least `ASCII_SPACE_LITTLE`, and a character gets the wide kern `ASCII_SPACE_LITTLE + ASCII_SPACE_BIG` if and only if it is a space; `TextLayout.KernsAreLittle` shows the wide kern reaches no point |
| TextLayout.CharNumpoints | Code/src/opencl.cpp:939 | a character's point count is exactly half its data count: no coordinate is left unpaired |
| TextLayout.CharNumstrokes | Code/src/opencl.cpp:940 | a character's stroke count is half its point count, rounded down |
| TextLayout.ItemOnto | Code/src/opencl.cpp:925-930 | every one of the 94 glyphs is looked up by the glyph character `k + 33`, which brings that glyph's whole `font_numdata` |
| TextLayout.ItemCollisions | Code/src/opencl.cpp:925-937 | two printable characters look up the same glyph if and only if they are equal or are the space and `'!'` |
| TextLayout.SpaceSharesGlyphZero | Code/src/opencl.cpp:932-937 | the space and `'!'` share glyph 0, but the space brings no data, while `'!'` brings `font_numdata[0]`, and the space's kern is `ASCII_SPACE_BIG` wider, though it reaches no point (`TextLayout.KernsAreLittle`) |
| TextLayout.NumData | Code/src/opencl.cpp:941 | the accumulator `num_data` after the first q characters; `TextLayout.PointsHalveData` relates it to `num_points` (no contract of its own) |
| TextLayout.NumPoints | Code/src/opencl.cpp:942 | the accumulator `num_points` after the first q characters; `TextLayout.NoPointsIffBlank` says when it is zero (no contract of its own) |
| TextLayout.NumStrokes | Code/src/opencl.cpp:943 | the accumulator `num_strokes` after the first q characters; `TextLayout.StrokesAtMostHalfPoints` bounds it (no contract of its own) |
| TextLayout.Shift | Code/src/opencl.cpp:979-992 | the running `shift` before character q; `TextLayout.OffsetAt` and `TextLayout.SpaceAdvance` state what it contributes (no contract of its own) |
| TextLayout.UnwrappedX | Code/src/opencl.cpp:1000-1004 | the unscaled x the unwrapping loop computes from `data_index`, `offset` and `kern` for point i (no contract of its own) |
| TextLayout.UnwrappedY | Code/src/opencl.cpp:1006 | the unscaled y the unwrapping loop computes for point i (no contract of its own) |
| TextLayout.PointX | Code/src/opencl.cpp:1000-1004 | the unscaled x of point i of a text; `TextLayout.PointXAt` gives it in terms of the glyph tables (no contract of its own) |
| TextLayout.PointY | Code/src/opencl.cpp:1006 | the unscaled y of point i of a text; `TextLayout.PointYAt` gives it in terms of the glyph tables (no contract of its own) |
| TextLayout.PointsHalveData | Code/src/opencl.cpp:939-943 | over any prefix of the text, `2 * num_points == num_data` |
| TextLayout.StrokesAtMostHalfPoints | Code/src/opencl.cpp:939-943 | over any prefix of the text, `2 * num_strokes <= num_points` |
| TextLayout.DataIndex | Code/src/opencl.cpp:967-977 | `data_index` has `num_data` entries, each a position inside the vertex table |
| TextLayout.Kerns | Code/src/opencl.cpp:979-992 | `kern` has one entry per point |
| TextLayout.Offsets | Code/src/opencl.cpp:979-992 | `offset` has one entry per point |
| TextLayout.LayoutUnwrappable | Code/src/opencl.cpp:994-1006 | the layout gives two in-range data positions per point, and one offset and one kern per point, so the unwrapping loop reads only inside its arrays |
| TextLayout.DataIndexPrefix | Code/src/opencl.cpp:967-977 | the data indices of the first q characters are a prefix of those of any longer prefix |
| TextLayout.KernsPrefix | Code/src/opencl.cpp:979-992 | the kerns of the first q characters are a prefix of those of any longer prefix |
| TextLayout.OffsetsPrefix | Code/src/opencl.cpp:979-992 | the offsets of the first q characters are a prefix of those of any longer prefix |
| TextLayout.DataIndexAt | Code/src/opencl.cpp:967-977 | data entry j of character p sits at the prefix sum of the earlier characters' numdata plus j, and is `font_index[item_p] + j` |
| TextLayout.KernAt | Code/src/opencl.cpp:984-990 | every point of character p has kern equal to that character's kern |
| TextLayout.OffsetAt | Code/src/opencl.cpp:984-991 | every point of character p has offset equal to the sum of `font_width[item]` over the earlier characters |
| TextLayout.PointXAt | Code/src/opencl.cpp:1000-1004 | the unscaled x of point j of character p is its glyph vertex x, minus the text's first vertex x, plus the earlier characters' widths and the character's kern |
| TextLayout.PointYAt | Code/src/opencl.cpp:1006 | the unscaled y of point j of character p is its glyph vertex y |
| TextLayout.PointOwner | Code/src/opencl.cpp:984-990 | every point i below `num_points` of a prefix is point j of some character p of that prefix, at p's prefix sum, so the per-point closed forms cover every point |
| TextLayout.KernsAreLittle | Code/src/opencl.cpp:984-990 | every point's kern is `ASCII_SPACE_LITTLE`: a space has no points, so its wide kern is never stored and `ASCII_SPACE_BIG` moves no coordinate |
| TextLayout.SpaceAdvance | Code/src/opencl.cpp:932-937 | a space adds no point and moves later characters right by `font_width[0]` |
| TextLayout.NoPointsIffBlank | Code/src/opencl.cpp:939-942 | with no empty glyph, a prefix of the text has no points if and only if it is all spaces |
| Text4.ClassifyChar | Code/src/opencl.cpp:923-937 | the two range tests give the code, glyph, data count and kern of the classification |
| Text4.Classify | Code/src/opencl.cpp:921-944 | the per-character arrays hold each character's classification, and the accumulators end at `num_data`, `num_points` and `num_strokes` |
| Text4.FillRun | Code/src/opencl.cpp:971-974 | the inner loop writes the run of consecutive positions at `k .. k+n-1` and keeps every entry before `k` and from `k + n` on |
| Text4.FillDataIndex | Code/src/opencl.cpp:967-977 | the nested loop fills `data_index` with exactly the layout's data indices |
| Text4.FillPoints | Code/src/opencl.cpp:984-988 | the inner loop writes the character's kern and the current shift at `k .. k+n-1` and keeps every entry of both arrays before `k` and from `k + n` on |
| Text4.FillKernOffset | Code/src/opencl.cpp:979-992 | the nested loop fills `kern` and `offset` with exactly the layout's kerns and offsets |
| Text4.UnwrapGlyph | Code/src/opencl.cpp:994-1008 | point i gets the unwrapped x from data entry 2i and y from entry 2i+1, with z = 0 and w = 1 |
| Text4.UnwrapColor | Code/src/opencl.cpp:1010-1013 | every point gets the colour (R, G, B, A) |
| Text4.Text4.constructor | Code/src/opencl.cpp:907-1017 | the object holds the classification, totals, data indices, kerns and offsets of the layout; point i is at `(PointX, PointY, 0, 1)` in the given colour; no VAO or VBO yet |
| ClError.RuntimeErrorName | Code/src/opencl.cpp:1073-1093 | a code has its own run-time error name if and only if it is in 0..-19 |
| ClError.CompileErrorName | Code/src/opencl.cpp:1095-1134 | a code has its own compile-time error name if and only if it is in -30..-68 |
| ClError.ExtensionErrorName | Code/src/opencl.cpp:1136-1142 | a code has its own extension error name if and only if it is in -1000..-1005 |
| ClError.ErrorName | Code/src/opencl.cpp:1069-1145 | `get_error` returns "Unknown OpenCL error" if and only if the code is in none of the three listed groups |
| ClError.ErrorNameExamples | Code/src/opencl.cpp:1074-1143 | 0 names "CL_SUCCESS", -1001 names "CL_PLATFORM_NOT_FOUND_KHR", and -20 and 1 are unknown |
| Interleaving.Interleave | Code/src/opencl.cpp:2026-2032 | the packed array has `4*size` slots and slot `4*i + k` holds component k of element i |
| Interleaving.Component | Code/src/int4.cpp:30-36 | reading one component back from a packed array gives one value per element |
| Interleaving.ComponentsOfInterleave | Code/src/int4.cpp:30-36 | packing is lossless: each component read back from the packed array is the original component |
| Interleaving.ComponentOf | Code/src/int4.cpp:30-36 | a sequence that agrees with slot `4*i + k` of every element is component k |
| Interleaving.InterleaveOfComponents | Code/src/int4.cpp:30-36 | any array whose length is a multiple of 4 is the packing of its four components, so packing adds nothing |
| Interleaving.Pack | Code/src/int4.cpp:28-36 | the loop fills a fresh `4*size` array with exactly the packing of x, y, z, w |
| Interleaving.InterleavedSlots | Code/src/int4.cpp:30-36 | an array that agrees with every element's four slots is the packing |
| Vector4.Vector4.constructor | Code/src/opencl.cpp:776-797 | every element is (0, 0, 0, 1), `data` is their packing, `size` is the element count, and there is no VAO, VBO or buffer |
| Vector4.Defaults | Code/src/opencl.cpp:787-796 | the fill loop makes fresh components of the given length with every element (0, 0, 0, 1), and `data` is their packing |
| Vector4.PushInt4 | Code/src/opencl.cpp:2016-2043 | the unfolded array is the packing of the components; the new VAO, VBO and GL-shared buffer are recorded; the components are unchanged |
| Int4Buffer.Int4.constructor | Code/src/int4.cpp:3-24 | four components of `num_data` elements, each (0, 0, 0, 1); no VAO, VBO or buffer; layout 0; the given context |
| Int4Buffer.Int4.Init | Code/src/int4.cpp:26-46 | the array handed to the vertex buffer has `4*size` slots holding the packing of the components; the new VAO, VBO and GL-shared buffer are recorded; components, layout and context unchanged |
| Link.Link.constructor | Code/src/link.cpp:6-9 | a link object before `init`: an empty table and no buffer |
| Link.Link.Init | Code/src/link.cpp:17-136 | the table has `link_size` rows of `NEIGHBOURS_NUM` slots, each the default entry; the buffer is GL-shared with graphics, a copy without, and NULL until created |
| Link.Link.NeighbourIndex | Code/src/link.cpp:186-197 | `get_neighbour_index`: the index stored at (node, id); `Link.Link.SetNeighbourIndex` proves it reads back what was set (no contract of its own) |
| Link.Link.Stiffness | Code/src/link.cpp:202-213 | `get_stiffness`: the stiffness stored at (node, id); `Link.Link.SetStiffness` proves it reads back what was set (no contract of its own) |
| Link.Link.Damping | Code/src/link.cpp:218-229 | `get_damping`: the damping stored at (node, id), read at its own node argument where the source names an undeclared `loc_node_index` (226); `Link.Link.SetDamping` proves it reads back what was set (no contract of its own) |
| Link.Link.SetNeighbourIndex | Code/src/link.cpp:144-152 | only the index of slot (node, id) changes, and `get_neighbour_index` (186-197) then returns the stored value |
| Link.Link.SetStiffness | Code/src/link.cpp:157-165 | only the stiffness of slot (node, id) changes, and `get_stiffness` (202-213) then returns the stored value |
| Link.Link.SetDamping | Code/src/link.cpp:170-178 | only the damping of slot (node, id) changes, and `get_damping` (218-229) then returns the stored value |
| Kernel.Slash | Code/src/kernel.cpp:47-57 | the separator is "/" on Linux and Apple, a backslash on Windows, and empty elsewhere, each in both directions |
| Kernel.FileNames | Code/src/kernel.cpp:68-83 | one full file name per input name |
| Kernel.FileNameAt | Code/src/kernel.cpp:72-77 | full file name i is the kernel home, the separator and input name i |
| Kernel.AppendFileNames | Code/src/kernel.cpp:68-83 | the loop appends the full names, in input order, after the names already held |
| Kernel.FirstNull | Code/src/kernel.cpp:177-184 | the scan finds a NULL slot whose predecessors are all taken, or none exactly when every slot is taken |
| Kernel.Register | Code/src/kernel.cpp:177-184 | the table after registration: the first NULL slot, if any, gets the id; `Kernel.RegisterFillsFirstFree` states this slot by slot (no contract of its own) |
| Kernel.RegisterFillsFirstFree | Code/src/kernel.cpp:177-184 | registration writes the id into the first NULL slot and changes no other slot; a full table is left as it was |
| Kernel.RegisterKernelId | Code/src/kernel.cpp:177-184 | the loop with `break` leaves the table as registration defines it |
| Kernel.SetArgState | Code/src/kernel.cpp:204-222 | what one `setarg` call does to an argument, for every overload; the four `SetArg` lemmas state its properties (no contract of its own) |
| Kernel.SetArgSetsLayout | Code/src/kernel.cpp:204 | every `setarg` call sets the layout to the given index and leaves the argument ready with a buffer |
| Kernel.SetArgCreatesOnlyWhenNotReady | Code/src/kernel.cpp:206-222 | a buffer is created only when the argument is not ready; otherwise only the layout changes |
| Kernel.SetArgIdempotent | Code/src/kernel.cpp:206-222 | a second call, whatever new objects it is offered, changes only the layout |
| Kernel.SetArgBufferKind | Code/src/kernel.cpp:500-524 | on a first call the buffer is GL-shared exactly for `float1G`/`float4G` with interop on, and a plain copy otherwise; only those kinds get a new VAO and VBO |
| Kernel.Baseline.constructor | Code/src/kernel.cpp:177-184 | a baseline whose kernel id table has every slot NULL, the state the registration scan presumes; the baseline's own constructor is not part of this model |
| Kernel.KernelArg.constructor | Code/src/kernel.cpp:206-222 | an argument that is not ready and has no buffer, the state the first `setarg` call presumes; the argument types' own constructors are not part of this model |
| Kernel.Kernel.constructor | Code/src/kernel.cpp:11-19 | a fresh kernel has no program, event or kernel id, and sizes 0 |
| Kernel.Kernel.Init | Code/src/kernel.cpp:21-187 | `init` stores the baseline, the sizes and the home, appends the full file names in order, keeps the new program and kernel id, and registers the id in the first free slot |
| Kernel.Kernel.SetArg | Code/src/kernel.cpp:192-233 | one `setarg` call changes its argument exactly as `SetArgState` says, for every overload |

## Left out

- OpenGL and OpenCL calls are not modelled: platform and device enumeration, contexts, programs, queues, VAO/VBO setup, `clCreateBuffer`, `clCreateFromGLBuffer`, `clCreateKernel`, `clSetKernelArg`, enqueue and finish. The objects they return are parameters.
- `Code/src/queue.cpp` is not part of this model. Its acquire/release sequencing belongs to the OpenCL/OpenGL sharing extension across two asynchronous queues.
- Error checks that print and call `exit` (`check_error`, `err < 0`) are not modelled. A successful creation is a parameter, except in `Link.Link.Init`, where a NULL result is kept as `None`.
- The `ASCII_SCALE` multiply and the float values are not modelled. Coordinates are the unscaled integers computed before the multiply. Float and colour payloads are generic element types.
- Logging (`printf`, `action`, `done`), file reading (`read_file`, `load_kernel`) and kernel source buffers are not modelled. This includes raw `char` copies, null terminators and GPU byte-size arithmetic.
- Destructors, and the `link` methods `push`, `pull`, `acquire`, `release` and `check_error`, are not modelled. They only move data to and from the GPU.
- `src/program.cpp`, `Code/src/main.cpp`, `Code/include/int1.hpp` and `Code/include/utilities.hpp` are not part of this model.
- `NEIGHBOURS_NUM` and the defaults that `init_int1`, `init_color4` and `init_float1` give are defined outside `link.cpp`. They are parameters of the link table.
- `link.cpp` does not compile as written: the neighbour id is declared as an array, and `get_damping` reads an undeclared `loc_node_index`. The model uses the evident intent: a scalar (node, id) index, and `get_damping` reading its own node argument.
- The link getters `NeighbourIndex`, `Stiffness` and `Damping` carry no contract of their own. What they return is stated through the setters' read-back clauses.
- Kernel.Baseline.constructor: the all-NULL kernel id table is an assumption. The baseline's constructor lives outside `kernel.cpp`, and `init` only reads the table.
- Kernel.KernelArg.constructor: "not ready, no buffer" is an assumption. The argument types' constructors live outside `kernel.cpp`, and `setarg` only reads `ready`.
- Int4Buffer.Int4.Init: `init` stores the packed array in the member `data` and then deletes it, so the member dangles afterwards. The model returns the packed array as a fresh array instead, and has no `data` field.
- The C `int` accumulators of `text4` (`num_data`, `num_points`, `num_strokes`, `k`, `shift`) can overflow for a very long text. Dafny's `int` is unbounded, so the model does not capture that overflow.
- Kernel.Baseline: only the fields the kernel uses are modelled (the kernel id table, the interop flag and the context).
- Kernel.Kernel.SetArg: one method covers all ten overloads. The overloads differ only in the element type and byte size of the buffer they create.
- Kernel.Kernel.Init: the file names are kept, but the sources, the program build and the compiler options string are reduced to their results.
- Text4.Text4.constructor: the text must hold only codes 32..126. For any other code the source leaves the per-character fields unset, so the result is not defined.
- Text4.Classify: the helper methods allocate their own result arrays. The source allocates every array up front in the constructor.
- Text4.UnwrapGlyph: the source's single unwrapping loop is modelled as two loops, one for geometry (`UnwrapGlyph`) and one for colour (`UnwrapColor`). They write independent arrays and read the same inputs, so the result is the same.
- Vector4.Vector4.constructor: one generic class models both `float4` and `int4` of `opencl.cpp`. `push_int4` is modelled up to the packing and the handles it records.

## Findings

| source | as written | input that shows it | evidently intended | confidence | as-written member | corrected member |
|---|---|---|---|---|---|---|
| Code/src/opencl.cpp:642 | `font_numdata` gives the backslash (Ascii 92, glyph 59) 6 integers, but its section (314-315) holds 4, and `font_index` (545-546) starts Ascii 93 four entries later, so its run reads the first pair of the Ascii 93 section (317), as `Glyphs.BackslashReadsNextSection` proves | glyph 59, for example the text "\\" | 4, the length of the section, so that `font_index[k+1] == font_index[k] + font_numdata[k]` holds for every glyph | not executed | Glyphs.BackslashOverrunsNextGlyph | Glyphs.CorrectedIndexFollowsNumdata |
