/**
 The cut-size rule applied to every rectangle that is drawn: a dimension equal
 to the sentinel 2.4 stands for the bookcase depth, a width beyond the stock
 board length is cut from a full board plus a remainder, and any other panel
 is recorded with its longer side first.
 */
module Cut {
  import opened Tally

  /** Length of a stock board; a wider panel is cut from two pieces. */
  const StockLength: real := 244.0

  /** A drawn dimension of exactly this value means "the bookcase depth". */
  const DepthSentinel: real := 2.4

  /** A drawn rectangle: lower-left corner (x, y), width w and height h. */
  datatype Panel = Panel(x: real, y: real, w: real, h: real)

  /** The cut dimension behind a drawn dimension `v`. */
  function Nominal(v: real, depth: real): real
  {
    if v == DepthSentinel then depth else v
  }

  /** The cut sizes recorded for a rectangle drawn `width` by `height`. */
  function Pieces(width: real, height: real, depth: real): seq<Key>
  {
    var w := Nominal(width, depth);
    var h := Nominal(height, depth);
    if w > StockLength then [(StockLength, h), (w - StockLength, h)]
    else if h > w then [(h, w)]
    else [(w, h)]
  }

  /** A rectangle wider than a stock board is recorded as a full board and the
      remainder, both at its height; any other as one piece, longer side first. */
  lemma PiecesRule(width: real, height: real, depth: real)
    ensures var r, w, h := Pieces(width, height, depth), Nominal(width, depth), Nominal(height, depth);
      && (w > StockLength ==>
            |r| == 2 && r[0].0 == StockLength && r[0].0 + r[1].0 == w && r[0].1 == r[1].1 == h)
      && (w <= StockLength ==>
            |r| == 1 && r[0].0 >= r[0].1 && multiset{r[0].0, r[0].1} == multiset{w, h})
  {
  }

  /** A dimension drawn as the sentinel is tallied exactly as one drawn at the depth. */
  lemma SentinelIsDepth(width: real, height: real, depth: real)
    ensures Pieces(DepthSentinel, height, depth) == Pieces(depth, height, depth)
    ensures Pieces(width, DepthSentinel, depth) == Pieces(width, depth, depth)
  {
  }

  /** The sentinel is the literal 2.4, not the edge thickness: with the script's
      thickness of 1.8 a side 244 high is tallied at its drawn width, while the
      same side drawn 2.4 wide is tallied as a board of the bookcase depth. */
  lemma SentinelNotThickness()
    ensures Pieces(1.8, 244.0, 30.0) == [(244.0, 1.8)]
    ensures Pieces(DepthSentinel, 244.0, 30.0) == [(244.0, 30.0)]
  {
  }

  /** The cut sizes recorded, in order, for the panels `ps`. */
  function CutAll(ps: seq<Panel>, depth: real): seq<Key>
  {
    CutFirst(ps, depth, |ps|)
  }

  /** The cut sizes recorded, in order, for the first `n` of the panels `ps`. */
  function CutFirst(ps: seq<Panel>, depth: real, n: nat): seq<Key>
    requires n <= |ps|
  {
    if n == 0 then [] else CutFirst(ps, depth, n - 1) + Pieces(ps[n - 1].w, ps[n - 1].h, depth)
  }

  /** How many of the panels `ps` are wider than a stock board. */
  function Oversized(ps: seq<Panel>, depth: real): nat
  {
    OversizedFirst(ps, depth, |ps|)
  }

  /** How many of the first `n` panels of `ps` are wider than a stock board. */
  function OversizedFirst(ps: seq<Panel>, depth: real, n: nat): nat
    requires n <= |ps|
  {
    if n == 0 then 0
    else OversizedFirst(ps, depth, n - 1) + (if Nominal(ps[n - 1].w, depth) > StockLength then 1 else 0)
  }

  /** The pieces of the first `n` panels depend only on those panels. */
  lemma {:induction false} CutFirstSame(a: seq<Panel>, b: seq<Panel>, depth: real, n: nat)
    requires n <= |a| && n <= |b|
    requires forall i :: 0 <= i < n ==> a[i] == b[i]
    ensures CutFirst(a, depth, n) == CutFirst(b, depth, n)
    ensures OversizedFirst(a, depth, n) == OversizedFirst(b, depth, n)
  {
    if n > 0 {
      CutFirstSame(a, b, depth, n - 1);
    }
  }

  /** Drawing one more panel appends its pieces. */
  lemma CutAllSnoc(ps: seq<Panel>, p: Panel, depth: real)
    ensures CutAll(ps + [p], depth) == CutAll(ps, depth) + Pieces(p.w, p.h, depth)
    ensures Oversized(ps + [p], depth)
            == Oversized(ps, depth) + (if Nominal(p.w, depth) > StockLength then 1 else 0)
  {
    CutFirstSame(ps + [p], ps, depth, |ps|);
  }

  /** The pieces of `a` followed by the first `j` panels of `b`. */
  lemma {:induction false} CutFirstAppend(a: seq<Panel>, b: seq<Panel>, depth: real, j: nat)
    requires j <= |b|
    ensures CutFirst(a + b, depth, |a| + j) == CutAll(a, depth) + CutFirst(b, depth, j)
  {
    if j == 0 {
      CutFirstSame(a + b, a, depth, |a|);
    } else {
      CutFirstAppend(a, b, depth, j - 1);
      var p := b[j - 1];
      assert (a + b)[|a| + j - 1] == p;
      assert CutFirst(a + b, depth, |a| + j)
             == (CutAll(a, depth) + CutFirst(b, depth, j - 1)) + Pieces(p.w, p.h, depth);
    }
  }

  /** The pieces of two runs of panels are those of each run, in order. */
  lemma CutAllAppend(a: seq<Panel>, b: seq<Panel>, depth: real)
    ensures CutAll(a + b, depth) == CutAll(a, depth) + CutAll(b, depth)
  {
    CutFirstAppend(a, b, depth, |b|);
  }

  /** Recording the pieces of `b` into the tally of `a` gives the tally of `a + b`. */
  lemma TallyExtend(m: Materials, a: seq<Panel>, b: seq<Panel>, depth: real)
    requires m == TallyOf(CutAll(a, depth))
    ensures AddAll(m, CutAll(b, depth)) == TallyOf(CutAll(a + b, depth))
  {
    CutAllAppend(a, b, depth);
    AddAllAppend(map[], CutAll(a, depth), CutAll(b, depth));
  }

  /** One loop step that draws panel `p` after `done`, for panels and tally alike. */
  lemma SnocStep(m0: Materials, before: seq<Panel>, done: seq<Panel>, p: Panel, depth: real)
    ensures before + (done + [p]) == (before + done) + [p]
    ensures AddAll(m0, CutAll(done + [p], depth))
            == AddAll(AddAll(m0, CutAll(done, depth)), Pieces(p.w, p.h, depth))
  {
    CutAllSnoc(done, p, depth);
    AddAllAppend(m0, CutAll(done, depth), Pieces(p.w, p.h, depth));
  }

  /** One loop step that draws the run `more` after `done`, for panels and tally alike. */
  lemma AppendStep(m0: Materials, before: seq<Panel>, done: seq<Panel>, more: seq<Panel>,
                   depth: real)
    ensures before + (done + more) == (before + done) + more
    ensures AddAll(m0, CutAll(done + more, depth))
            == AddAll(AddAll(m0, CutAll(done, depth)), CutAll(more, depth))
  {
    assert before + (done + more) == (before + done) + more;
    CutAllAppend(done, more, depth);
    AddAllAppend(m0, CutAll(done, depth), CutAll(more, depth));
  }

  /** Each of the first `n` panels gives one piece, and each oversized one one more. */
  lemma {:induction false} CutFirstLength(ps: seq<Panel>, depth: real, n: nat)
    requires n <= |ps|
    ensures |CutFirst(ps, depth, n)| == n + OversizedFirst(ps, depth, n)
  {
    if n > 0 {
      CutFirstLength(ps, depth, n - 1);
    }
  }

  /** Every panel gives one piece, and every oversized panel one more. */
  lemma CutAllLength(ps: seq<Panel>, depth: real)
    ensures |CutAll(ps, depth)| == |ps| + Oversized(ps, depth)
  {
    CutFirstLength(ps, depth, |ps|);
  }

  /** One rectangle raises the tally's total by 2 when its width is cut from two
      pieces and by 1 otherwise. */
  lemma RectangleTotal(m: Materials, width: real, height: real, depth: real)
    ensures Total(AddAll(m, Pieces(width, height, depth)))
            == Total(m) + (if Nominal(width, depth) > StockLength then 2 else 1)
  {
    TotalAddAll(m, Pieces(width, height, depth));
  }

  /** The tally of the panels `ps` counts one piece per panel plus one per
      oversized panel. */
  lemma TallyTotal(ps: seq<Panel>, depth: real)
    ensures Total(TallyOf(CutAll(ps, depth))) == |ps| + Oversized(ps, depth)
  {
    TallyOfTotal(CutAll(ps, depth));
    CutAllLength(ps, depth);
  }

  /** A stock-split example: a 259.4 by 30 panel is recorded as a full board
      244 by 30 and a remainder 15.4 by 30. */
  lemma SplitExample(depth: real)
    ensures Pieces(259.4, 30.0, depth) == [(244.0, 30.0), (15.4, 30.0)]
    ensures TallyOf(Pieces(259.4, 30.0, depth)) == map[(244.0, 30.0) := 1, (15.4, 30.0) := 1]
  {
    var ks := Pieces(259.4, 30.0, depth);
    assert AddFirst(map[], ks, 1) == map[(244.0, 30.0) := 1];
  }
}
