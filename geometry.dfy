/**
 The geometry of one bookcase as pure functions: the compartment width, the
 x position of every upright and compartment, the rows of panels, the running
 y-cursor through the shelf rows, the whole ordered panel sequence and the
 headroom left above the last shelf.
 */
module Geometry {
  import opened Tally
  import opened Cut

  /** The parameters of one bookcase, in centimetres. */
  datatype Spec = Spec(
    width: real, height: real, depth: real,
    edgeWd: real,               // thickness of bottoms, tops and shelves
    shelfHeights: seq<real>,    // gap below each shelf row, bottom to top
    lsideWd: real, rsideWd: real, uprtWd: real,
    plinHt: real, topHt: real,
    divides: int)               // number of compartments

  /** The cursor value before any shelf row: just above the bottoms. */
  function Base(s: Spec): real
  {
    s.plinHt + s.edgeWd
  }

  /** Width of one compartment: what is left of the width after both sides and
      the uprights, shared equally among the compartments. */
  function DiviLn(s: Spec): real
    requires s.divides >= 1
  {
    (s.width - s.lsideWd - s.rsideWd - (s.divides - 1) as real * s.uprtWd) / s.divides as real
  }

  /** The two sides, the uprights and the compartments add up exactly to the width. */
  lemma DiviLnCloses(s: Spec)
    requires s.divides >= 1
    ensures s.lsideWd + s.rsideWd + (s.divides - 1) as real * s.uprtWd
            + s.divides as real * DiviLn(s) == s.width
  {
  }

  /** Left edge of compartment `i` (1-based), where its bottom, top and shelves start. */
  function CompartmentX(s: Spec, i: int): real
    requires s.divides >= 1
  {
    s.lsideWd + (i - 1) as real * (s.uprtWd + DiviLn(s))
  }

  /** Left edge of upright `i` (1-based), between compartments `i` and `i + 1`. */
  function UprightX(s: Spec, i: int): real
    requires s.divides >= 1
  {
    s.lsideWd + (i - 1) as real * s.uprtWd + i as real * DiviLn(s)
  }

  /** Upright `i` starts exactly where compartment `i` ends, and compartment
      `i + 1` starts exactly where upright `i` ends. */
  lemma UprightBetweenCompartments(s: Spec, i: int)
    requires s.divides >= 1
    ensures UprightX(s, i) == CompartmentX(s, i) + DiviLn(s)
    ensures UprightX(s, i) + s.uprtWd == CompartmentX(s, i + 1)
  {
    var d, u, i' := DiviLn(s), s.uprtWd, (i - 1) as real;
    assert i' * (u + d) == i' * u + i' * d;
    assert i as real * d == i' * d + d;
  }

  /** The first compartment starts at the left side and the last one ends
      exactly at the right side. */
  lemma CompartmentsFillWidth(s: Spec)
    requires s.divides >= 1
    ensures CompartmentX(s, 1) == s.lsideWd
    ensures CompartmentX(s, s.divides) + DiviLn(s) == s.width - s.rsideWd
  {
    var d, u, n := DiviLn(s), s.uprtWd, (s.divides - 1) as real;
    DiviLnCloses(s);
    assert n * (u + d) + d == n * u + s.divides as real * d;
  }

  /** The panel laid at the foot of the bookcase. */
  function Plinth(s: Spec): Panel
  {
    Panel(0.0, 0.0, s.width, s.plinHt)
  }

  /** The side panels, each present only when its width is positive. */
  function Sides(s: Spec): (r: seq<Panel>)
    ensures |r| == (if s.lsideWd > 0.0 then 1 else 0) + (if s.rsideWd > 0.0 then 1 else 0)
    ensures forall p :: p in r ==> p.y == s.plinHt && p.h == s.height - s.plinHt
  {
    (if s.lsideWd > 0.0 then [Panel(0.0, s.plinHt, s.lsideWd, s.height - s.plinHt)] else [])
    + (if s.rsideWd > 0.0
       then [Panel(s.width - s.rsideWd, s.plinHt, s.rsideWd, s.height - s.plinHt)] else [])
  }

  /** Uprights 1 to `n`, above the plinth, the `k`-th (0-based) being upright `k + 1`. */
  function Uprights(s: Spec, n: nat): (r: seq<Panel>)
    requires s.divides >= 1
    ensures |r| == n
  {
    seq(n, k => Panel(UprightX(s, k + 1), s.plinHt, s.uprtWd, s.height - s.plinHt))
  }

  /** Drawing upright `n + 1` after uprights 1 to `n`. */
  lemma UprightsSnoc(s: Spec, n: nat)
    requires s.divides >= 1
    ensures Uprights(s, n + 1)
            == Uprights(s, n) + [Panel(UprightX(s, n + 1), s.plinHt, s.uprtWd, s.height - s.plinHt)]
  {
    assert forall k :: 0 <= k < n ==> Uprights(s, n + 1)[k] == Uprights(s, n)[k];
  }

  /** One panel of height `h` at height `y` in each of compartments 1 to `n`, the
      `k`-th (0-based) filling compartment `k + 1`. */
  function Row(s: Spec, y: real, h: real, n: nat): (r: seq<Panel>)
    requires s.divides >= 1
    ensures |r| == n
  {
    seq(n, k => Panel(CompartmentX(s, k + 1), y, DiviLn(s), h))
  }

  /** Drawing the panel of compartment `n + 1` after those of compartments 1 to `n`. */
  lemma RowSnoc(s: Spec, y: real, h: real, n: nat)
    requires s.divides >= 1
    ensures Row(s, y, h, n + 1) == Row(s, y, h, n) + [Panel(CompartmentX(s, n + 1), y, DiviLn(s), h)]
  {
    assert forall k :: 0 <= k < n ==> Row(s, y, h, n + 1)[k] == Row(s, y, h, n)[k];
  }

  /** The bottom panels, one per compartment, on the plinth. */
  function Bottoms(s: Spec): seq<Panel>
    requires s.divides >= 1
  {
    Row(s, s.plinHt, s.edgeWd, s.divides)
  }

  /** The top panels, one per compartment, present only when the top thickness is positive. */
  function Tops(s: Spec): seq<Panel>
    requires s.divides >= 1
  {
    if s.topHt > 0.0 then Row(s, s.height - s.edgeWd, s.topHt, s.divides) else []
  }

  /** The running y-cursor after the first `j` shelf rows: each row sits its gap
      above the cursor, and the cursor then moves past the row's thickness. */
  function Cursor(s: Spec, hs: seq<real>, j: nat): real
    requires j <= |hs|
  {
    if j == 0 then Base(s) else Cursor(s, hs, j - 1) + hs[j - 1] + s.edgeWd
  }

  /** The height of shelf row `j` (0-based). */
  function RowY(s: Spec, hs: seq<real>, j: nat): real
    requires j < |hs|
  {
    Cursor(s, hs, j) + hs[j]
  }

  /** The first `j` shelf rows for the gaps `hs`, bottom to top. */
  function ShelfRows(s: Spec, hs: seq<real>, j: nat): seq<Panel>
    requires s.divides >= 1 && j <= |hs|
  {
    if j == 0 then [] else ShelfRows(s, hs, j - 1) + Row(s, RowY(s, hs, j - 1), s.edgeWd, s.divides)
  }

  /** Drawing shelf row `j` after the rows below it, for panels and tally alike. */
  lemma ShelfStep(s: Spec, hs: seq<real>, j: nat, m0: Materials, before: seq<Panel>)
    requires s.divides >= 1 && j < |hs|
    ensures before + ShelfRows(s, hs, j + 1)
            == (before + ShelfRows(s, hs, j)) + Row(s, RowY(s, hs, j), s.edgeWd, s.divides)
    ensures AddAll(m0, CutAll(ShelfRows(s, hs, j + 1), s.depth))
            == AddAll(AddAll(m0, CutAll(ShelfRows(s, hs, j), s.depth)),
                      CutAll(Row(s, RowY(s, hs, j), s.edgeWd, s.divides), s.depth))
  {
    AppendStep(m0, before, ShelfRows(s, hs, j), Row(s, RowY(s, hs, j), s.edgeWd, s.divides),
               s.depth);
  }

  /** Every gap height gives one row of `divides` shelves. */
  lemma {:induction false} ShelfRowsLength(s: Spec, hs: seq<real>, j: nat)
    requires s.divides >= 1 && j <= |hs|
    ensures |ShelfRows(s, hs, j)| == s.divides * j
  {
    if j > 0 {
      ShelfRowsLength(s, hs, j - 1);
      assert s.divides * j == s.divides * (j - 1) + s.divides;
    }
  }

  /** The sum of the gaps `hs`. */
  function Sum(hs: seq<real>): real
  {
    if hs == [] then 0.0 else hs[0] + Sum(hs[1..])
  }

  lemma {:induction false} SumSnoc(hs: seq<real>, h: real)
    ensures Sum(hs + [h]) == Sum(hs) + h
  {
    if hs != [] {
      assert (hs + [h])[1..] == hs[1..] + [h];
      SumSnoc(hs[1..], h);
    }
  }

  /** After `j` shelf rows the cursor has risen by their `j` gaps and `j` shelf
      thicknesses. */
  lemma {:induction false} CursorClosedForm(s: Spec, hs: seq<real>, j: nat)
    requires j <= |hs|
    ensures Cursor(s, hs, j) == s.plinHt + s.edgeWd + Sum(hs[..j]) + j as real * s.edgeWd
  {
    if j > 0 {
      CursorClosedForm(s, hs, j - 1);
      assert hs[..j] == hs[..j - 1] + [hs[j - 1]];
      SumSnoc(hs[..j - 1], hs[j - 1]);
    }
  }

  /** With non-negative gaps and a positive shelf thickness the shelf rows rise
      strictly from bottom to top. */
  lemma {:induction false} RowsAscend(s: Spec, hs: seq<real>, j: nat, k: nat)
    requires s.edgeWd > 0.0
    requires forall t :: 0 <= t < |hs| ==> hs[t] >= 0.0
    requires j < k < |hs|
    ensures RowY(s, hs, j) < RowY(s, hs, k)
  {
    if j < k - 1 {
      RowsAscend(s, hs, j, k - 1);
    }
  }

  /** Where row `j` starts among rows of `d` entries each, counted by addition. */
  function Offset(j: nat, d: nat): nat
  {
    if j == 0 then 0 else Offset(j - 1, d) + d
  }

  lemma {:induction false} OffsetIsProduct(j: nat, d: nat)
    ensures Offset(j, d) == j * d
  {
    if j > 0 {
      OffsetIsProduct(j - 1, d);
    }
  }

  /** The indexing of shelf rows, stated with `Offset`. */
  lemma {:induction false} ShelfRowsOffsetAt(s: Spec, hs: seq<real>, n: nat, j: nat, i: nat)
    requires s.divides >= 1 && j < n <= |hs| && i < s.divides
    ensures |ShelfRows(s, hs, n)| == Offset(n, s.divides)
    ensures Offset(j, s.divides) + i < Offset(n, s.divides)
    ensures ShelfRows(s, hs, n)[Offset(j, s.divides) + i]
            == Panel(CompartmentX(s, i + 1), RowY(s, hs, j), DiviLn(s), s.edgeWd)
  {
    var below, top := ShelfRows(s, hs, n - 1), Row(s, RowY(s, hs, n - 1), s.edgeWd, s.divides);
    if n - 1 == 0 {
      assert below == [];
    } else {
      ShelfRowsOffsetAt(s, hs, n - 1, if j < n - 1 then j else 0, 0);
    }
    if j < n - 1 {
      ShelfRowsOffsetAt(s, hs, n - 1, j, i);
    }
  }

  /** Panel `i` (0-based) of shelf row `j` fills compartment `i + 1` at the row's
      height: every shelf of a row has the same y. */
  lemma ShelfRowsAt(s: Spec, hs: seq<real>, n: nat, j: nat, i: nat)
    requires s.divides >= 1 && j < n <= |hs| && i < s.divides
    ensures j * s.divides + i < |ShelfRows(s, hs, n)|
    ensures ShelfRows(s, hs, n)[j * s.divides + i]
            == Panel(CompartmentX(s, i + 1), RowY(s, hs, j), DiviLn(s), s.edgeWd)
  {
    ShelfRowsOffsetAt(s, hs, n, j, i);
    OffsetIsProduct(j, s.divides);
  }

  /** The plinth followed by the sides that are present. */
  function Carcass(s: Spec): seq<Panel>
  {
    [Plinth(s)] + Sides(s)
  }

  /** The uprights between the compartments and the bottoms on the plinth. */
  function Lower(s: Spec): seq<Panel>
    requires s.divides >= 1
  {
    Uprights(s, s.divides - 1) + Bottoms(s)
  }

  /** The tops and the shelf rows. */
  function Upper(s: Spec): seq<Panel>
    requires s.divides >= 1
  {
    Tops(s) + ShelfRows(s, s.shelfHeights, |s.shelfHeights|)
  }

  /** The uprights, bottoms, tops and shelf rows, in the order they are drawn. */
  function Interior(s: Spec): seq<Panel>
    requires s.divides >= 1
  {
    Lower(s) + Upper(s)
  }

  /** The panels of one bookcase, in the order they are drawn. */
  function Layout(s: Spec): seq<Panel>
    requires s.divides >= 1
  {
    Carcass(s) + Interior(s)
  }

  /** How many panels of each kind a bookcase has. */
  lemma LayoutCounts(s: Spec)
    requires s.divides >= 1
    ensures |Bottoms(s)| == s.divides
    ensures |Tops(s)| == if s.topHt > 0.0 then s.divides else 0
    ensures |ShelfRows(s, s.shelfHeights, |s.shelfHeights|)| == s.divides * |s.shelfHeights|
    ensures |Layout(s)|
            == 1 + (if s.lsideWd > 0.0 then 1 else 0) + (if s.rsideWd > 0.0 then 1 else 0)
               + (s.divides - 1) + s.divides + (if s.topHt > 0.0 then s.divides else 0)
               + s.divides * |s.shelfHeights|
  {
    ShelfRowsLength(s, s.shelfHeights, |s.shelfHeights|);
  }

  /** Headroom above the last shelf row. */
  function TopShelf(s: Spec): (r: real)
    ensures r == s.height - (s.plinHt + s.edgeWd + Sum(s.shelfHeights)
                             + |s.shelfHeights| as real * s.edgeWd) - s.edgeWd
  {
    CursorClosedForm(s, s.shelfHeights, |s.shelfHeights|);
    assert s.shelfHeights[..|s.shelfHeights|] == s.shelfHeights;
    s.height - Cursor(s, s.shelfHeights, |s.shelfHeights|) - s.edgeWd
  }

  /** The tally a bookcase produces: the cut sizes of its panels, in drawing order. */
  function BillOfMaterials(s: Spec): Materials
    requires s.divides >= 1
  {
    TallyOf(CutAll(Layout(s), s.depth))
  }

  /** The tally of a bookcase counts one piece per panel, plus one more per panel
      wider than a stock board. */
  lemma BillOfMaterialsTotal(s: Spec)
    requires s.divides >= 1
    ensures Total(BillOfMaterials(s)) == |Layout(s)| + Oversized(Layout(s), s.depth)
  {
    TallyTotal(Layout(s), s.depth);
  }

  /** The laundry bookcase: one compartment 86.8 wide with a left side only, and
      shelf gaps 40, 40, 35, 35, 35 of thickness 1.8 above a 13 cm plinth: the
      compartment is 85 cm wide, the cursor ends at 208.8 and 46.4 cm are left. */
  lemma LaundryExample()
    ensures var s := Spec(86.8, 257.0, 30.0, 1.8, [40.0, 40.0, 35.0, 35.0, 35.0],
                          1.8, 0.0, 1.8, 13.0, 0.0, 1);
            DiviLn(s) == 85.0 && Cursor(s, s.shelfHeights, 5) == 208.8 && TopShelf(s) == 46.4
  {
    var s := Spec(86.8, 257.0, 30.0, 1.8, [40.0, 40.0, 35.0, 35.0, 35.0],
                  1.8, 0.0, 1.8, 13.0, 0.0, 1);
    var hs := s.shelfHeights;
    CursorClosedForm(s, hs, 5);
    assert hs[..5] == hs;
    assert Sum(hs) == 185.0 by {
      assert hs[1..][1..][1..][1..][1..] == [];
    }
  }
}
