/**
 Where outputs are placed: weston_output_lazy_align of frontend/main.c puts an
 output to the right of the most recently enabled one, and enabling appends it.
 */
module Placement {
  /** An enabled output: the horizontal interval it covers. */
  datatype Placed = Placed(x: int, width: nat)

  datatype Step = PlaceAndEnable(width: nat) | Destroy(at: nat)

  function NextX(outputs: seq<Placed>): int {
    if outputs == [] then 0 else outputs[|outputs| - 1].x + outputs[|outputs| - 1].width
  }

  function Do(outputs: seq<Placed>, s: Step): seq<Placed> {
    match s
    case PlaceAndEnable(w) => outputs + [Placed(NextX(outputs), w)]
    case Destroy(i) => if i < |outputs| then outputs[..i] + outputs[i + 1..] else outputs
  }

  function DoAll(steps: seq<Step>): seq<Placed> {
    if steps == [] then [] else Do(DoAll(steps[..|steps| - 1]), steps[|steps| - 1])
  }

  class OutputList {
    var outputs: seq<Placed>

    method LazyAlign() returns (x: int, y: int)
      ensures y == 0 && x == NextX(outputs)
      ensures LeftToRight(outputs) ==> forall i :: 0 <= i < |outputs| ==> outputs[i].x + outputs[i].width <= x
    {
      x, y := 0, 0;
      if |outputs| > 0 {
        var peer := outputs[|outputs| - 1];
        x := peer.x + peer.width;
      }
    }

    method PlaceEnabled(width: nat)
      modifies this
      ensures outputs == Do(old(outputs), PlaceAndEnable(width))
    {
      var x, _ := LazyAlign();
      outputs := outputs + [Placed(x, width)];
    }

    method DestroyAt(i: nat)
      modifies this
      ensures outputs == Do(old(outputs), Destroy(i))
    {
      if i < |outputs| {
        outputs := outputs[..i] + outputs[i + 1..];
      }
    }
  }

  /** Every output ends where, or before, each later one begins. */
  ghost predicate LeftToRight(outputs: seq<Placed>) {
    forall i, j :: 0 <= i < j < |outputs| ==> outputs[i].x + outputs[i].width <= outputs[j].x
  }

  lemma NothingReachesPast(outputs: seq<Placed>)
    requires LeftToRight(outputs)
    ensures forall i :: 0 <= i < |outputs| ==> outputs[i].x + outputs[i].width <= NextX(outputs)
  {
    forall i | 0 <= i < |outputs| ensures outputs[i].x + outputs[i].width <= NextX(outputs) {
      if i < |outputs| - 1 {
        assert outputs[i].x + outputs[i].width <= outputs[|outputs| - 1].x;
      }
    }
  }

  /** What a step does to the list: a placed output comes last and touches its neighbour; a destroyed one leaves. */
  lemma StepEffect(outputs: seq<Placed>, s: Step)
    ensures var t := Do(outputs, s);
            match s
            case PlaceAndEnable(w) =>
              && |t| == |outputs| + 1 && t[..|outputs|] == outputs && t[|outputs|].width == w
              && t[|outputs|].x == (if outputs == [] then 0 else Right(outputs[|outputs| - 1]))
            case Destroy(k) =>
              && |t| == (if k < |outputs| then |outputs| - 1 else |outputs|)
              && forall i :: 0 <= i < |t| ==> t[i] == outputs[if i < k then i else i + 1]
  {
  }

  function Right(p: Placed): int { p.x + p.width }

  /** As long as nothing is destroyed the outputs stand side by side, from zero, without a gap. */
  lemma {:induction false} OutputsTouch(widths: seq<nat>)
    ensures var outputs := DoAll(PlaceAll(widths));
            && |outputs| == |widths| && (forall i :: 0 <= i < |widths| ==> outputs[i].width == widths[i])
            && (outputs != [] ==> outputs[0].x == 0)
            && forall i :: 0 < i < |outputs| ==> outputs[i].x == Right(outputs[i - 1])
  {
    if widths != [] {
      OutputsTouch(widths[..|widths| - 1]);
      assert PlaceAll(widths)[..|widths| - 1] == PlaceAll(widths[..|widths| - 1]);
    }
  }

  function PlaceAll(widths: seq<nat>): seq<Step> {
    seq(|widths|, i requires 0 <= i < |widths| => PlaceAndEnable(widths[i]))
  }

  predicate Covers(p: Placed, at: int) { p.x <= at < p.x + p.width }

  /** Over any run of placements and destructions no two enabled outputs cover the same column. */
  lemma {:induction false} OutputsNeverOverlap(steps: seq<Step>)
    ensures var outputs := DoAll(steps);
            LeftToRight(outputs) &&
            forall i, j, at :: 0 <= i < j < |outputs| ==> !(Covers(outputs[i], at) && Covers(outputs[j], at))
  {
    if steps != [] {
      OutputsNeverOverlap(steps[..|steps| - 1]);
      var before := DoAll(steps[..|steps| - 1]);
      var after := DoAll(steps);
      match steps[|steps| - 1]
      case PlaceAndEnable(w) =>
        NothingReachesPast(before);
      case Destroy(k) =>
    }
  }
}
