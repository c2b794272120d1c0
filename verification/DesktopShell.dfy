/**
 The shell object itself: handlers that change the focus counts, the per-seat
 focus, the children lists and the layer in place, each proved against the
 function of the same operation in Stacking.
 */
module DesktopShell {
  import opened Wrappers
  import opened Stacking

  class Shell {
    var mapped: set<Surface>
    var children: map<Surface, seq<Surface>>
    var focusCount: map<Surface, int>
    var layer: seq<Surface>
    var seats: seq<Seat>
    var focused: map<Seat, Option<Surface>>
    var keyboard: map<Seat, Option<Surface>>
    ghost var height: map<Surface, nat>
    ghost var abandoned: map<Surface, nat>
    ghost var raisedAt: map<Surface, nat>
    ghost var clock: nat

    ghost function Snapshot(): State
      reads this
    {
      State(mapped, Tree(children, height), Focus(focusCount, focused, abandoned),
            Stack(layer, raisedAt, clock), seats, keyboard)
    }

    constructor ()
      ensures Snapshot() == EMPTY
    {
      mapped, children, focusCount, layer := {}, map[], map[], [];
      seats, focused, keyboard := [], map[], map[];
      height, abandoned, raisedAt, clock := map[], map[], map[], 0;
    }

    method GetLastChild(s: Surface) returns (child: Option<Surface>)
      requires s in children
      ensures child == LastMapped(children[s], mapped)
    {
      var kids := children[s];
      var i := |kids|;
      assert kids[..|kids|] == kids;
      while i > 0
        invariant 0 <= i <= |kids|
        invariant LastMapped(kids, mapped) == LastMapped(kids[..i], mapped)
      {
        i := i - 1;
        assert kids[..i + 1][..i] == kids[..i];
        if kids[i] in mapped {
          return Some(kids[i]);
        }
      }
      child := None;
    }

    /** shell_surface_update_layer: the view goes to the top of the workspace layer. */
    method UpdateLayer(s: Surface)
      modifies this`layer, this`raisedAt, this`clock
      ensures Stack(layer, raisedAt, clock) == Raise(old(Stack(layer, raisedAt, clock)), s)
    {
      layer := [s] + Without(layer, s);
      raisedAt, clock := raisedAt[s := clock], clock + 1;
    }

    method ActivateView(s: Surface, seat: Seat)
      requires Valid(Snapshot()) && s in children
      modifies this
      ensures Snapshot() == Activate(old(Snapshot()), s, seat)
      decreases height[s]
    {
      var child := GetLastChild(s);
      if child != None {
        ActivateView(child.value, seat);
        return;
      }
      MoveFocus(s, seat);
      keyboard := keyboard[seat := Some(s)];
      UpdateLayer(s);
    }

    method MoveFocus(s: Surface, seat: Seat)
      requires Valid(Snapshot()) && s in children
      modifies this`focusCount, this`focused
      ensures Focus(focusCount, focused, abandoned) == Refocus(old(Focus(focusCount, focused, abandoned)), s, seat)
    {
      if seat in focused && focused[seat] != None && focused[seat] != Some(s) {
        var current := focused[seat].value;
        assert current in children;
        focusCount := focusCount[current := focusCount[current] - 1];
      }
      if seat in focused && focused[seat] != Some(s) {
        focusCount := focusCount[s := focusCount[s] + 1];
        focused := focused[seat := Some(s)];
      }
    }

    method MapView(s: Surface)
      requires Valid(Snapshot()) && s in children
      modifies this
      ensures Snapshot() == MapSurface(old(Snapshot()), s)
    {
      mapped := mapped + {s};
      UpdateLayer(s);
      ActivateForAllSeats(s);
    }

    method ActivateForAllSeats(s: Surface)
      requires Valid(Snapshot()) && s in children
      modifies this
      ensures Snapshot() == ActivateAll(old(Snapshot()), s, 0)
    {
      ghost var start := Snapshot();
      var i := 0;
      while i < |seats|
        invariant i <= |seats| && Valid(Snapshot()) && s in children
        invariant ActivateAll(Snapshot(), s, i) == ActivateAll(start, s, 0)
      {
        ActivateView(s, seats[i]);
        i := i + 1;
      }
    }

    method SurfaceAdded(s: Surface)
      modifies this
      ensures Snapshot() == Add(old(Snapshot()), s)
    {
      children := children[s := []];
      focusCount := focusCount[s := 0];
      height, abandoned := height[s := 0], abandoned[s := 0];
    }

    method SurfaceRemoved(s: Surface)
      requires forall seat :: seat in focused ==> seat in seats
      modifies this
      ensures Snapshot() == RemoveSurface(old(Snapshot()), s)
    {
      InvalidateFocus(s);
      children := Unlink(children, s) - {s};
      layer := Without(layer, s);
      mapped := mapped - {s};
      focusCount := focusCount - {s};
      height := height - {s};
    }

    /** Every shell seat of the compositor's seat list forgets a focused surface that is going away. */
    method InvalidateFocus(s: Surface)
      requires forall seat :: seat in focused ==> seat in seats
      modifies this`focused
      ensures focused == Unfocus(old(focused), s)
    {
      var i := 0;
      ghost var before := focused;
      while i < |seats|
        invariant i <= |seats| && focused.Keys == before.Keys
        invariant forall seat :: seat in focused ==>
                    focused[seat] == if seat in seats[..i] && before[seat] == Some(s) then None else before[seat]
      {
        assert seats[..i + 1] == seats[..i] + [seats[i]];
        if seats[i] in focused && focused[seats[i]] == Some(s) {
          focused := focused[seats[i] := None];
        }
        i := i + 1;
      }
      assert seats[..i] == seats;
    }

    method ParentSet(s: Surface, parent: Option<Surface>)
      requires Valid(Snapshot()) && s in children && (parent.Some? ==> parent.value in children)
      modifies this`children, this`height
      ensures Snapshot() == old(Snapshot()).(tree := Reparent(old(Snapshot()).tree, s, parent))
    {
      ghost var before := Tree(children, height);
      children := Unlink(children, s);
      if parent != None {
        children := children[parent.value := children[parent.value] + [s]];
        height := Lift(before, s, parent.value);
      }
    }

    method SurfaceDestroyed(s: Surface, order: seq<Seat>)
      requires Valid(Snapshot())
      modifies this
      ensures Snapshot() == SurfaceGone(old(Snapshot()), s, order)
    {
      var i := 0;
      while i < |order|
        invariant i <= |order| && Valid(Snapshot())
        invariant SurfaceGone(Snapshot(), s, order[i..]) == SurfaceGone(old(Snapshot()), s, order)
      {
        assert order[i..][0] == order[i] && order[i..][1..] == order[i + 1..];
        if order[i] in keyboard && keyboard[order[i]] == Some(s) {
          PassFocusOn(s, order[i]);
        }
        i := i + 1;
      }
    }

    method PassFocusOn(s: Surface, seat: Seat)
      requires Valid(Snapshot())
      modifies this
      ensures Snapshot() == HandOver(old(Snapshot()), s, seat)
    {
      var i := 0;
      while i < |layer| && !(layer[i] != s && layer[i] in children)
        invariant i <= |layer|
        invariant FirstOther(layer, s, children.Keys) == FirstOther(layer[i..], s, children.Keys)
      {
        assert layer[i..][1..] == layer[i + 1..];
        i := i + 1;
      }
      if i < |layer| {
        keyboard := keyboard[seat := None];
        ActivateView(layer[i], seat);
      } else {
        keyboard := keyboard - {seat};
      }
    }

    method SeatAdded(seat: Seat)
      modifies this`seats, this`focused
      ensures Snapshot() == SeatCreated(old(Snapshot()), seat)
    {
      seats := seats + [seat];
      focused := focused[seat := None];
    }

    method SeatRemoved(seat: Seat)
      modifies this`seats, this`focused, this`keyboard, this`abandoned
      ensures Snapshot() == SeatDestroyed(old(Snapshot()), seat)
    {
      abandoned := Abandon(Focus(focusCount, focused, abandoned), seat).abandoned;
      focused := focused - {seat};
      keyboard := keyboard - {seat};
      seats := Without(seats, seat);
    }
  }
}
