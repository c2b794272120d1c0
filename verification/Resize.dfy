/**
 Commit-time repositioning in desktop-shell/shell.c: while a client resizes a
 surface from its left or top edge, the view moves so that the opposite edge
 stays put.  View coordinates are exact reals, sizes are integers.
 */
module Resize {
  datatype Edges = Edges(top: bool, bottom: bool, left: bool, right: bool)

  /** resize_edges is not zero. */
  predicate Resizing(e: Edges) { e.top || e.bottom || e.left || e.right }

  datatype Geometry = Geometry(
    mapped: bool,
    x: real, y: real,
    width: int, height: int,            // the weston_surface's size
    lastWidth: int, lastHeight: int,    // the shell surface's record of it
    edges: Edges)

  /** A commit: the new size, the client's buffer offset, and where map() would place the view. */
  datatype Commit = Commit(width: int, height: int, dx: real, dy: real, placeX: real, placeY: real)

  function Apply(g: Geometry, c: Commit): Geometry {
    var s := g.(width := c.width, height := c.height);
    if s.width == 0 then s
    else if !s.mapped then s.(mapped := true, x := c.placeX, y := c.placeY)
    else if c.dx == 0.0 && c.dy == 0.0 && s.lastWidth == s.width && s.lastHeight == s.height then s
    else
      var offX := if s.edges.left then (s.lastWidth - s.width) as real else if Resizing(s.edges) then 0.0 else c.dx;
      var offY := if s.edges.top then (s.lastHeight - s.height) as real else if Resizing(s.edges) then 0.0 else c.dy;
      s.(x := s.x + offX, y := s.y + offY, lastWidth := s.width, lastHeight := s.height)
  }

  function ApplyAll(g: Geometry, cs: seq<Commit>): Geometry {
    if cs == [] then g else Apply(ApplyAll(g, cs[..|cs| - 1]), cs[|cs| - 1])
  }

  class ShellSurface {
    var mapped: bool
    var x: real
    var y: real
    var width: int
    var height: int
    var lastWidth: int
    var lastHeight: int
    var resizeEdges: Edges

    ghost function Value(): Geometry
      reads this
    {
      Geometry(mapped, x, y, width, height, lastWidth, lastHeight, resizeEdges)
    }

    method Committed(c: Commit)
      modifies this
      ensures Value() == Apply(old(Value()), c)
    {
      width, height := c.width, c.height;
      if width == 0 {
        return;
      }
      if !mapped {
        x, y, mapped := c.placeX, c.placeY, true;
        return;
      }
      if c.dx == 0.0 && c.dy == 0.0 && lastWidth == width && lastHeight == height {
        return;
      }
      var offX, offY := c.dx, c.dy;
      if Resizing(resizeEdges) {
        offX, offY := 0.0, 0.0;
      }
      if resizeEdges.left {
        offX := (lastWidth - width) as real;
      }
      if resizeEdges.top {
        offY := (lastHeight - height) as real;
      }
      x, y := x + offX, y + offY;
      lastWidth, lastHeight := width, height;
    }
  }

  function Right(g: Geometry): real { g.x + g.width as real }
  function Bottom(g: Geometry): real { g.y + g.height as real }

  /** The edge opposite the dragged one, measured with the recorded size, never moves; other sides stay put. */
  lemma {:induction false} AnchoredToRecord(g: Geometry, cs: seq<Commit>)
    requires g.mapped && Resizing(g.edges)
    ensures var t := ApplyAll(g, cs);
            && t.mapped && t.edges == g.edges
            && (if g.edges.left then t.x + t.lastWidth as real == g.x + g.lastWidth as real else t.x == g.x)
            && (if g.edges.top then t.y + t.lastHeight as real == g.y + g.lastHeight as real else t.y == g.y)
            && (cs != [] && cs[|cs| - 1].width != 0 ==> t.lastWidth == t.width && t.lastHeight == t.height)
  {
    if cs != [] {
      AnchoredToRecord(g, cs[..|cs| - 1]);
    }
  }

  /**
   Over any commits with content, whatever buffer offsets the client sends, a
   resize keeps the edge opposite the dragged one exactly where it was, if and
   only if the recorded size was the surface's size when the resize began.
   */
  lemma OppositeEdgeStaysIffRecorded(g: Geometry, cs: seq<Commit>)
    requires g.mapped && Resizing(g.edges) && cs != [] && cs[|cs| - 1].width != 0
    ensures var t := ApplyAll(g, cs);
            && (g.edges.left ==> (Right(t) == Right(g) <==> g.lastWidth == g.width))
            && (g.edges.top ==> (Bottom(t) == Bottom(g) <==> g.lastHeight == g.height))
            && (!g.edges.left ==> t.x == g.x)
            && (!g.edges.top ==> t.y == g.y)
  {
    AnchoredToRecord(g, cs);
    assert (g.lastWidth as real == g.width as real) <==> g.lastWidth == g.width;
    assert (g.lastHeight as real == g.height as real) <==> g.lastHeight == g.height;
  }

  // ---- commits outside a resize -------------------------------------------------------

  /** The buffer offsets of the commits that have content. */
  function SumX(cs: seq<Commit>): real {
    if cs == [] then 0.0
    else SumX(cs[..|cs| - 1]) + if cs[|cs| - 1].width == 0 then 0.0 else cs[|cs| - 1].dx
  }

  function SumY(cs: seq<Commit>): real {
    if cs == [] then 0.0
    else SumY(cs[..|cs| - 1]) + if cs[|cs| - 1].width == 0 then 0.0 else cs[|cs| - 1].dy
  }

  /**
   With no edge dragged, a mapped view moves by exactly the buffer offsets the client
   sent, each along its own axis, whatever sizes it commits; the recorded size is the
   size of the last commit with content.
   */
  lemma {:induction false} OffsetsMoveView(g: Geometry, cs: seq<Commit>)
    requires g.mapped && !Resizing(g.edges)
    ensures var t := ApplyAll(g, cs);
            && t.mapped && t.edges == g.edges && t.x == g.x + SumX(cs) && t.y == g.y + SumY(cs)
            && (cs != [] && cs[|cs| - 1].width != 0 ==>
                  && t.width == t.lastWidth == cs[|cs| - 1].width
                  && t.height == t.lastHeight == cs[|cs| - 1].height)
  {
    if cs != [] {
      OffsetsMoveView(g, cs[..|cs| - 1]);
    }
  }

  /** The surface has the size last committed; a commit without content does nothing else. */
  lemma EmptyCommitOnlySizes(g: Geometry, c: Commit)
    ensures Apply(g, c).width == c.width && Apply(g, c).height == c.height
    ensures c.width == 0 ==> Apply(g, c) == g.(width := c.width, height := c.height)
  {
  }

  lemma {:induction false} ApplyAppend(g: Geometry, a: seq<Commit>, b: seq<Commit>)
    ensures ApplyAll(g, a + b) == ApplyAll(ApplyAll(g, a), b)
  {
    if b == [] {
      assert a + b == a;
    } else {
      assert (a + b)[..|a + b| - 1] == a + b[..|b| - 1];
      ApplyAppend(g, a, b[..|b| - 1]);
    }
  }

  lemma {:induction false} NoContentNoMap(g: Geometry, cs: seq<Commit>)
    requires !g.mapped && forall i :: 0 <= i < |cs| ==> cs[i].width == 0
    ensures var t := ApplyAll(g, cs); !t.mapped && t.edges == g.edges && t.x == g.x && t.y == g.y
  {
    if cs != [] {
      NoContentNoMap(g, cs[..|cs| - 1]);
    }
  }

  /**
   The first commit with content maps a view at the place chosen for it then, whatever
   offset it carries; from there the offsets of the later commits move it.
   */
  lemma FirstContentPlacesView(g: Geometry, before: seq<Commit>, first: Commit, after: seq<Commit>)
    requires !g.mapped && !Resizing(g.edges) && first.width != 0
    requires forall i :: 0 <= i < |before| ==> before[i].width == 0
    ensures var t := ApplyAll(g, before + [first] + after);
            t.mapped && t.x == first.placeX + SumX(after) && t.y == first.placeY + SumY(after)
  {
    ApplyAppend(g, before + [first], after);
    ApplyAppend(g, before, [first]);
    NoContentNoMap(g, before);
    var u := ApplyAll(g, before);
    assert [first][..0] == [];
    assert ApplyAll(u, [first]) == Apply(u, first);
    OffsetsMoveView(Apply(u, first), after);
  }

  /** A surface that has only just been mapped has no recorded size, so its first left or top resize jumps. */
  lemma FreshlyMappedSurfaceJumps(first: Commit, next: Commit, edges: Edges)
    requires first.width > 0 && first.height > 0 && next.width > 0 && (edges.left || edges.top)
    ensures var unmapped := Geometry(false, 0.0, 0.0, 0, 0, 0, 0, Edges(false, false, false, false));
            var g := Apply(unmapped, first).(edges := edges);
            var t := Apply(g, next);
            (edges.left ==> Right(t) == Right(g) - first.width as real)
            && (edges.top ==> Bottom(t) == Bottom(g) - first.height as real)
  {
  }
}
