# Bookcase layout and bill of materials

A Dafny model of the layout core of `shelf.py`, a script that draws bookcase
schematics and lists the boards a bookcase needs. The core has three parts:

- **The materials tally** (`Tally`). This is a counter map from a cut size
  `(width, height)` to the number of pieces of that size. `add_to_materials`
  raises one key's count by one and inserts a missing key with count 1.
- **The cut-size rule** (`Cut`). This is the tally half of `draw_rectangle`. A
  drawn dimension of exactly `2.4` stands for the bookcase depth. A panel whose
  width is over the stock board length 244 is recorded as a full board
  `244 × h` and a remainder `(w − 244) × h`. Any other panel is recorded with
  its longer side first.
- **Panel generation** (`Geometry` and `Shelf`). `draw_bookcase` clears the
  tally and computes the compartment width `divi_ln`. It then draws, in order:
  the plinth, the sides that have a positive width, `divides − 1` uprights,
  `divides` bottoms, `divides` tops when the top height is positive, and one
  row of `divides` shelves per gap height. A running y-cursor moves up through
  the shelf rows, and the headroom `top_shelf` above the last row is computed
  from it.

`Geometry` gives each of these as pure functions of a `Spec` (the arguments of
`draw_bookcase`). `Layout(s)` is the ordered panel sequence, `BillOfMaterials(s)`
is the tally, and `TopShelf(s)` is the headroom. Lemmas about these functions
give the closed forms: the compartments close the width exactly, each upright
starts where its compartment ends, the count of each kind of panel, the cursor
as a sum of gaps and thicknesses, strictly rising shelf rows, and tally totals.

`Shelf.Drawing` is the script's mutable state as a class. `materials` is the
module-level dictionary. `panels` holds the rectangles added to the current
figure; drawing a rectangle appends it. The methods keep the script's loops
and its y-cursor. Each method's `ensures` ties the new state to the
specification functions, so `DrawBookcase` ends with
`panels == Layout(s)`, `materials == BillOfMaterials(s)` and
`topShelf == TopShelf(s)`.

Dimensions are exact `real`s, not floating point. The sentinel is the literal
`2.4` and is not tied to the edge thickness. The script's default thickness is
`1.8`, so no panel of the four hard-coded bookcases meets the sentinel. Sides,
uprights, bottoms and shelves are therefore tallied at their drawn thickness
rather than as boards of the bookcase depth (`Cut.SentinelNotThickness`).
The file history records that the thickness was 2.4 before (shelf.py:12), so
the sentinel looks like a left-over of that value. The model keeps the code's
literal 2.4.

For the laundry bookcase (width 86.8, left side 1.8, one compartment, gaps
40, 40, 35, 35, 35 of thickness 1.8 over a 13 cm plinth, height 257), the
compartment is 85.0 wide, the cursor ends at 208.8 and the headroom is 46.4
(`Geometry.LaundryExample`).

The stock-length test looks at the width only, as the code does
(shelf.py:107). A panel taller than 244 is therefore not split.

## Model

| member | source | states |
|---|---|---|
| `Tally.AddCounts` | shelf.py:126-130 | recording a size raises its count by exactly one; a size not yet present is inserted with count 1; every other size keeps its count; the key set grows by that size only |
| `Tally.AddAllCount` | shelf.py:126-130 | recording a run of sizes raises each size's count by the number of times it occurs in the run |
| `Tally.TallyOfIsMultiset` | shelf.py:126-130 | a tally built from an empty map holds each size with exactly its multiplicity among the recorded sizes, and holds no other size |
| `Tally.AddAllKeys` | shelf.py:126-130 | the sizes in the tally after a run are the old sizes plus those of the run |
| `Tally.AddFirstSame` | shelf.py:126-130 | recording the first `n` pieces of a run depends only on those pieces |
| `Tally.AddAllAppend` | shelf.py:126-130 | recording two runs one after the other is recording their concatenation |
| `Tally.TotalRemove` | shelf.py:126-130 | the sum of counts does not depend on the order in which the sizes are summed |
| `Tally.TotalAdd` | shelf.py:126-130 | recording one piece raises the sum of all counts by exactly one |
| `Tally.TotalAddAll` | shelf.py:126-130 | recording a run of pieces raises the sum of all counts by the length of the run |
| `Tally.TallyOfTotal` | shelf.py:126-130 | the counts of a tally built from nothing sum to the number of pieces recorded |
| `Cut.PiecesRule` | shelf.py:107-115 | a width over 244 gives two pieces, 244 and the remainder, which sum to the width and share the height; otherwise one piece, longer side first, which is a permutation of (width, height) |
| `Cut.SentinelIsDepth` | shelf.py:102-105 | a width or height drawn as 2.4 is tallied exactly as if drawn at the depth |
| `Cut.SentinelNotThickness` | shelf.py:102-105 | a 1.8 × 244 side (the script's thickness) is tallied as 244 × 1.8, while a 2.4 × 244 side is tallied as 244 × depth |
| `Cut.CutFirstSame` | shelf.py:98-115 | the pieces and the oversized count of the first `n` panels depend only on those panels |
| `Cut.CutAllSnoc` | shelf.py:98-115 | drawing one more panel appends its pieces and adds one oversized panel when its width is over 244 |
| `Cut.CutAllAppend` | shelf.py:98-115 | the pieces of two runs of panels are the pieces of each run, in order |
| `Cut.CutAllLength` | shelf.py:107-115 | a run of panels gives one piece per panel plus one per panel wider than 244 |
| `Cut.TallyExtend` | shelf.py:126-130 | recording the pieces of more panels into the tally of earlier panels gives the tally of all the panels |
| `Cut.RectangleTotal` | shelf.py:107-115 | one rectangle raises the tally's total by 2 when its width is over 244 and by 1 otherwise |
| `Cut.TallyTotal` | shelf.py:107-130 | the tally of a run of panels sums to the number of panels plus the number of oversized panels |
| `Cut.SplitExample` | shelf.py:107-110 | a 259.4 × 30 panel is tallied as one 244 × 30 piece and one 15.4 × 30 piece |
| `Geometry.DiviLnCloses` | shelf.py:140-141 | the two sides, the `divides − 1` uprights and the `divides` compartments add up exactly to the width |
| `Geometry.CompartmentsFillWidth` | shelf.py:141-169 | the first compartment starts at the left side and the last one ends exactly at `width − rside_wd` |
| `Geometry.UprightBetweenCompartments` | shelf.py:163-169 | upright `i` starts exactly where compartment `i`'s bottom ends, and compartment `i + 1` starts where upright `i` ends |
| `Geometry.Sides` | shelf.py:153-159 | one side panel per side of positive width, each standing on the plinth at the full height above it |
| `Geometry.Uprights` | shelf.py:162-165 | uprights 1 to `n` are `n` panels |
| `Geometry.UprightsSnoc` | shelf.py:162-165 | drawing upright `n + 1` after uprights 1 to `n` gives uprights 1 to `n + 1`: it stands at upright `n + 1`'s x, on the plinth, at the full height above it |
| `Geometry.Row` | shelf.py:168-188 | a row over `n` compartments is `n` panels |
| `Geometry.RowSnoc` | shelf.py:168-188 | drawing the panel of compartment `n + 1` after those of compartments 1 to `n` gives the row over `n + 1` compartments: it starts at compartment `n + 1`'s x, at the row's height, `divi_ln` wide |
| `Geometry.ShelfRowsLength` | shelf.py:183-188 | `j` shelf rows hold `divides * j` shelves |
| `Geometry.ShelfRowsAt` | shelf.py:183-189 | shelf `i` of row `j` fills compartment `i + 1` at the row's y, so every shelf of a row has the same y |
| `Geometry.CursorClosedForm` | shelf.py:182-189 | after `j` rows the cursor is `plin_ht + edge_wd + (sum of the first j gaps) + j * edge_wd` |
| `Geometry.RowsAscend` | shelf.py:183-189 | with non-negative gaps and positive shelf thickness, the shelf rows' y values rise strictly from bottom to top |
| `Geometry.LayoutCounts` | shelf.py:151-188 | one plinth, one panel per side of positive width, `divides − 1` uprights, `divides` bottoms, `divides` tops when the top height is positive, `divides` shelves per gap height, and the total of these |
| `Geometry.TopShelf` | shelf.py:182-191 | the headroom is the height less the final cursor (plinth, edge, all gaps and one thickness per row) less one edge thickness |
| `Geometry.BillOfMaterialsTotal` | shelf.py:137-191 | the counts of a bookcase's tally sum to its number of panels plus its number of panels wider than 244 |
| `Geometry.LaundryExample` | shelf.py:234-236 | the laundry bookcase has an 85.0 compartment, a final cursor of 208.8 and 46.4 of headroom |
| `Shelf.Drawing.constructor` | shelf.py:19 | the tally starts empty and nothing is drawn |
| `Shelf.Drawing.AddToMaterials` | shelf.py:118-130 | the tally becomes the old tally with one more piece of size (width, height), and the drawn panels are unchanged |
| `Shelf.Drawing.DrawRectangle` | shelf.py:98-115 | the rectangle is appended to the drawn panels and its pieces under the cut-size rule are recorded in order |
| `Shelf.Drawing.DrawUprights` | shelf.py:161-165 | the loop over `i = 1 … divides − 1` appends exactly the uprights and records their pieces |
| `Shelf.Drawing.DrawRow` | shelf.py:168-188 | the loop over `i = 1 … divides` appends exactly one row of compartment panels and records their pieces |
| `Shelf.Drawing.DrawCarcass` | shelf.py:149-159 | the plinth and the present sides are appended in order and their pieces recorded |
| `Shelf.Drawing.DrawBottoms` | shelf.py:167-171 | the bottoms are appended and their pieces recorded |
| `Shelf.Drawing.DrawTops` | shelf.py:173-178 | the tops are appended and recorded when the top height is positive; otherwise nothing changes |
| `Shelf.Drawing.DrawShelves` | shelf.py:180-189 | the loop over the gap heights appends every shelf row, records their pieces, and leaves the cursor at its closed form |
| `Shelf.Drawing.DrawLower` | shelf.py:161-171 | the uprights and then the bottoms are appended and recorded |
| `Shelf.Drawing.DrawUpper` | shelf.py:173-189 | the tops and then the shelf rows are appended and recorded, and the final cursor is returned |
| `Shelf.Drawing.DrawInterior` | shelf.py:161-189 | everything after the sides is appended and recorded, and the final cursor is returned |
| `Shelf.Drawing.DrawBookcase` | shelf.py:133-191 | starting from a cleared tally, the drawn panels are exactly the layout, the tally is exactly its bill of materials, and the headroom is `TopShelf` |
| `Shelf.RedrawSameBookcase` | shelf.py:137 | drawing the same bookcase twice gives the same tally, the same panels and the same headroom |

## Left out

- Rendering with matplotlib is not modelled: the dimension arrows, the figure and axes set-up, the materials text box, showing the figure and saving the PNG (shelf.py:26-81, 145-147, 195-231). Drawing a rectangle is modelled as appending it to `panels`, without the fixed `x_pad`/`y_pad` offset that only moves the picture.
- The console line that prints the headroom (shelf.py:192) is not modelled; `DrawBookcase` returns the value instead.
- Tally keys are exact `(width, height)` pairs of reals. The source formats each key as a string with one decimal place (shelf.py:126), so two sizes that round to the same tenth share one entry there but are two entries here.
- Floating point is not modelled. Dimensions are exact reals, so the `== 2.4` test (shelf.py:102-104) and the cursor sums are exact, where the source compares and adds IEEE doubles.
- The four hard-coded bookcases (shelf.py:234-249) are not run. The laundry one is a lemma (`Geometry.LaundryExample`).
- Degenerate divider counts are not modelled. The source does not check `divides`. With `divides == 0`, shelf.py:141 raises ZeroDivisionError. With `divides < 0`, the division goes through, the loops at shelf.py:162, 168, 175 and 185 run zero times, and the script draws only the plinth and the sides, still moving the cursor once per gap and computing `top_shelf`. Every member that uses `divi_ln` requires `divides >= 1`, which excludes both cases. A negative compartment width with `divides >= 1` is allowed and simply laid out.
