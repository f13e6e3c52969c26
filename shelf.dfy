/**
 The drawing state of the bookcase script: the module-level materials tally and
 the panels drawn on the current figure, with the three operations that change
 them.
 */
module Shelf {
  import opened Tally
  import opened Cut
  import opened Geometry

  class Drawing {
    /** The materials tally, keyed by cut size. */
    var materials: Materials
    /** The rectangles drawn on the current figure, in order. */
    var panels: seq<Panel>

    constructor ()
      ensures materials == map[] && panels == []
    {
      materials := map[];
      panels := [];
    }

    /** Record one piece of size `width` by `height`. */
    method AddToMaterials(width: real, height: real)
      modifies this`materials
      ensures materials == Add(old(materials), (width, height))
    {
      var key := (width, height);
      if key in materials {
        materials := materials[key := materials[key] + 1];
      } else {
        materials := materials[key := 1];
      }
    }

    /** Draw one rectangle and record the pieces it is cut from. */
    method DrawRectangle(x: real, y: real, width: real, height: real, depth: real)
      modifies this
      ensures panels == old(panels) + [Panel(x, y, width, height)]
      ensures materials == AddAll(old(materials), Pieces(width, height, depth))
    {
      ghost var before := materials;
      panels := panels + [Panel(x, y, width, height)];
      var w, h := width, height;
      if w == DepthSentinel {
        w := depth;
      }
      if h == DepthSentinel {
        h := depth;
      }
      if w > StockLength {
        var remainder := w - StockLength;
        AddToMaterials(StockLength, h);
        ghost var ks := [(StockLength, h), (remainder, h)];
        assert materials == AddFirst(before, ks, 1);
        AddToMaterials(remainder, h);
      } else if h > w {
        AddToMaterials(h, w);
        assert materials == AddFirst(before, [(h, w)], 1);
      } else {
        AddToMaterials(w, h);
        assert materials == AddFirst(before, [(w, h)], 1);
      }
    }

    /** Draw one panel of height `h` at height `y` in each compartment, left to
        right: the loop shared by the bottoms, the tops and every shelf row. */
    method DrawRow(s: Spec, y: real, h: real, diviLn: real)
      requires s.divides >= 1 && diviLn == DiviLn(s)
      modifies this
      ensures panels == old(panels) + Row(s, y, h, s.divides)
      ensures materials == AddAll(old(materials), CutAll(Row(s, y, h, s.divides), s.depth))
    {
      for i := 1 to s.divides + 1
        invariant panels == old(panels) + Row(s, y, h, i - 1)
        invariant materials == AddAll(old(materials), CutAll(Row(s, y, h, i - 1), s.depth))
      {
        var x := CompartmentX(s, i);
        DrawRectangle(x, y, diviLn, h, s.depth);
        RowSnoc(s, y, h, i - 1);
        SnocStep(old(materials), old(panels), Row(s, y, h, i - 1), Panel(x, y, diviLn, h), s.depth);
      }
    }

    /** Draw uprights 1 to `divides - 1` between the compartments, left to right. */
    method DrawUprights(s: Spec, diviLn: real)
      requires s.divides >= 1 && diviLn == DiviLn(s)
      modifies this
      ensures panels == old(panels) + Uprights(s, s.divides - 1)
      ensures materials == AddAll(old(materials), CutAll(Uprights(s, s.divides - 1), s.depth))
    {
      for i := 1 to s.divides
        invariant panels == old(panels) + Uprights(s, i - 1)
        invariant materials == AddAll(old(materials), CutAll(Uprights(s, i - 1), s.depth))
      {
        var x := UprightX(s, i);
        DrawRectangle(x, s.plinHt, s.uprtWd, s.height - s.plinHt, s.depth);
        UprightsSnoc(s, i - 1);
        SnocStep(old(materials), old(panels), Uprights(s, i - 1),
                 Panel(x, s.plinHt, s.uprtWd, s.height - s.plinHt), s.depth);
      }
    }

    /** Draw one shelf row per gap height, bottom to top, moving the y-cursor
        past each row; returns the final cursor. */
    method DrawShelves(s: Spec, diviLn: real) returns (start: real)
      requires s.divides >= 1 && diviLn == DiviLn(s)
      modifies this
      ensures panels == old(panels) + ShelfRows(s, s.shelfHeights, |s.shelfHeights|)
      ensures materials == AddAll(old(materials),
                                  CutAll(ShelfRows(s, s.shelfHeights, |s.shelfHeights|), s.depth))
      ensures start == Cursor(s, s.shelfHeights, |s.shelfHeights|)
    {
      var hs := s.shelfHeights;
      start := s.plinHt + s.edgeWd;
      for j := 0 to |hs|
        invariant start == Cursor(s, hs, j)
        invariant panels == old(panels) + ShelfRows(s, hs, j)
        invariant materials == AddAll(old(materials), CutAll(ShelfRows(s, hs, j), s.depth))
      {
        var h := hs[j];
        var y := start + h;
        assert y == RowY(s, hs, j);
        DrawRow(s, y, s.edgeWd, diviLn);
        ShelfStep(s, hs, j, old(materials), old(panels));
        start := y + s.edgeWd;
      }
    }

    /** Draw the plinth across the full width, then each side whose width is positive. */
    method DrawCarcass(s: Spec)
      modifies this
      ensures panels == old(panels) + Carcass(s)
      ensures materials == AddAll(old(materials), CutAll(Carcass(s), s.depth))
    {
      var side := s.height - s.plinHt;
      DrawRectangle(0.0, 0.0, s.width, s.plinHt, s.depth);
      SnocStep(old(materials), old(panels), [], Plinth(s), s.depth);
      assert [] + [Plinth(s)] == [Plinth(s)];
      ghost var done := [Plinth(s)];
      if s.lsideWd > 0.0 {
        DrawRectangle(0.0, s.plinHt, s.lsideWd, side, s.depth);
        SnocStep(old(materials), old(panels), done, Panel(0.0, s.plinHt, s.lsideWd, side), s.depth);
        done := done + [Panel(0.0, s.plinHt, s.lsideWd, side)];
      }
      if s.rsideWd > 0.0 {
        DrawRectangle(s.width - s.rsideWd, s.plinHt, s.rsideWd, side, s.depth);
        SnocStep(old(materials), old(panels), done,
                 Panel(s.width - s.rsideWd, s.plinHt, s.rsideWd, side), s.depth);
        done := done + [Panel(s.width - s.rsideWd, s.plinHt, s.rsideWd, side)];
      }
      assert done == Carcass(s);
    }

    /** Draw the row of bottoms on the plinth. */
    method DrawBottoms(s: Spec, diviLn: real)
      requires s.divides >= 1 && diviLn == DiviLn(s)
      modifies this
      ensures panels == old(panels) + Bottoms(s)
      ensures materials == AddAll(old(materials), CutAll(Bottoms(s), s.depth))
    {
      DrawRow(s, s.plinHt, s.edgeWd, diviLn);
    }

    /** Draw the row of tops under the top edge, when the top height is positive. */
    method DrawTops(s: Spec, diviLn: real)
      requires s.divides >= 1 && diviLn == DiviLn(s)
      modifies this
      ensures panels == old(panels) + Tops(s)
      ensures materials == AddAll(old(materials), CutAll(Tops(s), s.depth))
    {
      if s.topHt > 0.0 {
        DrawRow(s, s.height - s.edgeWd, s.topHt, diviLn);
      } else {
        assert old(panels) + [] == old(panels);
      }
    }

    /** Draw the uprights, then the bottoms. */
    method DrawLower(s: Spec, diviLn: real)
      requires s.divides >= 1 && diviLn == DiviLn(s)
      modifies this
      ensures panels == old(panels) + Lower(s)
      ensures materials == AddAll(old(materials), CutAll(Lower(s), s.depth))
    {
      DrawUprights(s, diviLn);
      DrawBottoms(s, diviLn);
      AppendStep(old(materials), old(panels), Uprights(s, s.divides - 1), Bottoms(s), s.depth);
    }

    /** Draw the tops, then the shelf rows; returns the final y-cursor. */
    method DrawUpper(s: Spec, diviLn: real) returns (start: real)
      requires s.divides >= 1 && diviLn == DiviLn(s)
      modifies this
      ensures panels == old(panels) + Upper(s)
      ensures materials == AddAll(old(materials), CutAll(Upper(s), s.depth))
      ensures start == Cursor(s, s.shelfHeights, |s.shelfHeights|)
    {
      DrawTops(s, diviLn);
      start := DrawShelves(s, diviLn);
      AppendStep(old(materials), old(panels), Tops(s),
                 ShelfRows(s, s.shelfHeights, |s.shelfHeights|), s.depth);
    }

    /** Draw everything above the plinth between the sides; returns the final
        y-cursor. */
    method DrawInterior(s: Spec, diviLn: real) returns (start: real)
      requires s.divides >= 1 && diviLn == DiviLn(s)
      modifies this
      ensures panels == old(panels) + Interior(s)
      ensures materials == AddAll(old(materials), CutAll(Interior(s), s.depth))
      ensures start == Cursor(s, s.shelfHeights, |s.shelfHeights|)
    {
      DrawLower(s, diviLn);
      start := DrawUpper(s, diviLn);
      AppendStep(old(materials), old(panels), Lower(s), Upper(s), s.depth);
    }

    /** Draw a whole bookcase on a fresh figure, starting from an empty tally;
        returns the headroom above the last shelf row. */
    method DrawBookcase(s: Spec) returns (topShelf: real)
      requires s.divides >= 1
      modifies this
      ensures panels == Layout(s)
      ensures materials == BillOfMaterials(s)
      ensures topShelf == TopShelf(s)
    {
      materials := map[];
      panels := [];
      var diviLn := DiviLn(s);

      DrawCarcass(s);
      var start := DrawInterior(s, diviLn);
      AppendStep(map[], [], Carcass(s), Interior(s), s.depth);
      assert [] + Layout(s) == Layout(s);
      assert AddAll(map[], CutAll([], s.depth)) == map[];

      topShelf := s.height - start - s.edgeWd;
    }
  }

  /** Drawing the same bookcase twice gives the same tally and the same panels:
      nothing of the first drawing survives into the second. */
  method RedrawSameBookcase(d: Drawing, s: Spec)
    returns (first: Materials, second: Materials, firstPanels: seq<Panel>,
             secondPanels: seq<Panel>, firstTop: real, secondTop: real)
    requires s.divides >= 1
    modifies d
    ensures first == second && firstPanels == secondPanels && firstTop == secondTop
  {
    firstTop := d.DrawBookcase(s);
    first, firstPanels := d.materials, d.panels;
    secondTop := d.DrawBookcase(s);
    second, secondPanels := d.materials, d.panels;
  }
}
