/**
  The pure rules of the instruction engine (NavigationInstructions.cs): the
  hint table, the classifier that picks a hint for one key point of the path
  and the rule that decides whether two neighbouring instructions merge.
*/
module InstructionRules {
  import opened Geometry
  import opened Text
  import opened Constants
  import opened InstructionNode

  /** The hints, one constant each (the typos are the C# code's). */
  const GoStraight: string := "Go straight"
  const GoStraightFor: string := "Go straight for {0} meters"
  const TurnLeft: string := "Turn left"
  const TurnRight: string := "Turn right"
  const TurnAroundLeft: string := "Turn around left shoulder"
  const TurnAroundRight: string := "Turn around right shoulder"
  const GoDownstairs: string := "Go downstairs"
  const GoUpstairs: string := "Go upstairs"
  const PassDoorStraight: string := "Pass the door stright"
  const PassDoorsStraight: string := "Pass {1} doors stright"
  const PassDoorLeft: string := "Pass the door to the left"
  const PassDoorRight: string := "Pass the door to the right"
  const DestinationAhead: string := "Destination ahead"
  const DestinationIn: string := "Destination in {0} meters"
  const Arriving: string := "Arriving"

  /** The hint table, in the C# code's order. */
  const Hints: seq<string> := [
    GoStraight,
    GoStraightFor,
    TurnLeft,
    TurnRight,
    TurnAroundLeft,
    TurnAroundRight,
    GoDownstairs,
    GoUpstairs,
    PassDoorStraight,
    PassDoorsStraight,
    PassDoorLeft,
    PassDoorRight,
    DestinationAhead,
    DestinationIn,
    Arriving
  ]

  /** The prefix every straight text starts with. */
  const Straight: string := GoStraight

  /** The first ten characters of "Destination ahead": "Destinatio". */
  const DestinationPrefix: string := DestinationAhead[..10]

  function DecideStraightText(span: real): (r: string)
    ensures StartsWith(r, Straight)
    ensures r == GoStraightFor <==> span > ShowMoreDetailsMinSpan
  {
    if span > ShowMoreDetailsMinSpan then GoStraightFor else GoStraight
  }

  function DecideDestinationText(span: real): (r: string)
    ensures StartsWith(r, DestinationPrefix)
    ensures r == DestinationIn <==> span > ShowMoreDetailsMinSpan
  {
    if span > ShowMoreDetailsMinSpan then DestinationIn else DestinationAhead
  }

  /**
    The hint for an interior key point, from the elevation and the vertical
    angle of the outgoing span, the horizontal angle between the incoming and
    outgoing directions, the sign carrier `crossY` (left below zero, right
    above) and the outgoing span. All comparisons are strict.
  */
  function Classify(elevation: real, verticalAngle: real, angle: real, crossY: real, span: real): string {
    if elevation < -MinStairElevation && verticalAngle > MinStairsAngle then GoDownstairs
    else if elevation > MinStairElevation && verticalAngle > MinStairsAngle then GoUpstairs
    else if angle > BackturnAngleThreshold then
      if crossY < 0.0 then TurnAroundLeft
      else if crossY > 0.0 then TurnAroundRight
      else DecideStraightText(span)
    else if angle > TurnAngleThreshold then
      if crossY < 0.0 then TurnLeft
      else if crossY > 0.0 then TurnRight
      else DecideStraightText(span)
    else DecideStraightText(span)
  }

  /**
    Where a key point sits on the path. The C# code marks the ends with
    infinite sentinel vectors; here they are cases of their own.
  */
  datatype Position =
    | Origin(next: Vector3)
    | Interior(previous: Vector3, next: Vector3)
    | Destination(previous: Vector3)

  /** The instruction `GetInstruction` builds for the key point `current`. */
  function InstructionFor(position: Position, current: Vector3, distanceLeft: real, m: Metric): (r: Instruction)
    ensures r.distanceLeft == distanceLeft && r.point == current
    ensures position.Destination? ==> r.distanceSpan == m.distance(current, position.previous)
    ensures !position.Destination? ==> r.distanceSpan == m.distance(current, position.next)
  {
    match position
    case Destination(previous) =>
      var span := m.distance(current, previous);
      Instruction(DecideDestinationText(span), distanceLeft, span, current)
    case Origin(next) =>
      var span := m.distance(current, next);
      Instruction(DecideStraightText(span), distanceLeft, span, current)
    case Interior(previous, next) =>
      var span := m.distance(current, next);
      var elevation := next.y - current.y;
      var outgoing := Sub(next, current);
      var verticalAngle := m.angle(Up, outgoing);
      var incoming := Sub(current, previous);
      var angle := m.angle(Flatten(incoming), Flatten(outgoing));
      var crossY := Cross(Flatten(incoming), Flatten(outgoing)).y;
      Instruction(Classify(elevation, verticalAngle, angle, crossY, span), distanceLeft, span, current)
  }

  /**
    `Merge`'s decision, in its order: both straight; the candidate straight
    and shorter than the transition distance; both destination texts; equal
    texts.
  */
  predicate ShouldMerge(firstText: string, next: Instruction) {
    || (StartsWith(firstText, Straight) && StartsWith(next.text, Straight))
    || (next.distanceSpan < TransitionDistance && StartsWith(next.text, Straight))
    || (StartsWith(firstText, DestinationPrefix) && StartsWith(next.text, DestinationPrefix))
    || firstText == next.text
  }

  /** The texts the classifier can produce for an interior point. */
  predicate IsInteriorText(t: string) {
    t in [GoStraight, GoStraightFor, TurnLeft, TurnRight, TurnAroundLeft, TurnAroundRight, GoDownstairs, GoUpstairs]
  }

  predicate IsDestinationText(t: string) {
    StartsWith(t, DestinationPrefix)
  }

  /** The classifier's texts: never a destination text, never a door text. */
  lemma ClassifyRange(elevation: real, verticalAngle: real, angle: real, crossY: real, span: real)
    ensures IsInteriorText(Classify(elevation, verticalAngle, angle, crossY, span))
    ensures !IsDestinationText(Classify(elevation, verticalAngle, angle, crossY, span))
  {
    var t := Classify(elevation, verticalAngle, angle, crossY, span);
    InteriorTextsAreNotDestination(t);
  }

  lemma InteriorTextsAreNotDestination(t: string)
    requires IsInteriorText(t)
    ensures !IsDestinationText(t)
  {
    assert DestinationPrefix[0] == 'D';
  }

  /** Swaps left and right in a turn text. */
  function Mirror(t: string): string {
    if t == TurnLeft then TurnRight
    else if t == TurnRight then TurnLeft
    else if t == TurnAroundLeft then TurnAroundRight
    else if t == TurnAroundRight then TurnAroundLeft
    else t
  }

  /** Reversing the turn direction swaps left and right and changes nothing else. */
  lemma ClassifyMirror(elevation: real, verticalAngle: real, angle: real, crossY: real, span: real)
    ensures Classify(elevation, verticalAngle, angle, -crossY, span)
         == Mirror(Classify(elevation, verticalAngle, angle, crossY, span))
  {
  }

  /**
    An outgoing span within the vertical-angle threshold is never stairs,
    whatever its elevation: the horizontal angle decides. A backturn above
    144 degrees, a turn above 27, straight otherwise; an angle over a
    threshold with `crossY == 0` falls through to straight.
  */
  lemma ClassifyFlat(elevation: real, verticalAngle: real, angle: real, crossY: real, span: real)
    requires verticalAngle <= MinStairsAngle
    ensures var t := Classify(elevation, verticalAngle, angle, crossY, span);
      && t == Classify(0.0, 0.0, angle, crossY, span)
      && (angle > BackturnAngleThreshold && crossY != 0.0 ==> t == (if crossY < 0.0 then TurnAroundLeft else TurnAroundRight))
      && (TurnAngleThreshold < angle <= BackturnAngleThreshold && crossY != 0.0 ==> t == (if crossY < 0.0 then TurnLeft else TurnRight))
      && (angle <= TurnAngleThreshold || crossY == 0.0 ==> t == DecideStraightText(span))
  {
  }

  /** Stairs take precedence over any turn, and going down is tested first. */
  lemma ClassifyStairs(elevation: real, verticalAngle: real, angle: real, crossY: real, span: real)
    requires verticalAngle > MinStairsAngle
    ensures elevation < -MinStairElevation ==> Classify(elevation, verticalAngle, angle, crossY, span) == GoDownstairs
    ensures elevation > MinStairElevation ==> Classify(elevation, verticalAngle, angle, crossY, span) == GoUpstairs
    ensures -MinStairElevation <= elevation <= MinStairElevation
        ==> Classify(elevation, verticalAngle, angle, crossY, span) == Classify(0.0, 0.0, angle, crossY, span)
  {
  }

  /**
    The thresholds are strict: exactly 144 degrees is a turn, exactly 27 is
    straight, an elevation of exactly 0.47 or a vertical angle of exactly
    26.565 is not stairs. The vertical angle is measured from the vertical,
    so a nearly level span rising half a metre counts as upstairs.
  */
  lemma ClassifyBoundaries(crossY: real, span: real)
    requires crossY < 0.0
    ensures Classify(0.0, 0.0, BackturnAngleThreshold, crossY, span) == TurnLeft
    ensures Classify(0.0, 0.0, TurnAngleThreshold, crossY, span) == DecideStraightText(span)
    ensures Classify(-MinStairElevation, 90.0, 0.0, crossY, span) == DecideStraightText(span)
    ensures Classify(1.0, MinStairsAngle, 0.0, crossY, span) == DecideStraightText(span)
    ensures Classify(0.5, 88.0, 0.0, crossY, span) == GoUpstairs
  {
  }

  /**
    Only "Go straight for {0} meters" and "Destination in {0} meters" take a
    live number; "Pass {1} doors stright" has a placeholder the formatter
    never fills.
  */
  lemma PlaceholderHints(k: nat)
    requires k < |Hints|
    ensures HasPlaceholder(Hints[k]) <==> k == 1 || k == 13
  {
    if k == 1 {
      PlaceholderAt(GoStraightFor, 16);
    } else if k == 13 {
      PlaceholderAt(DestinationIn, 15);
    } else if k == 9 {
      DoorsHintHasNoPlaceholder();
    } else {
      PlainHints(k);
    }
  }

  /** "Pass {1} doors stright" has a brace, but not "{0}". */
  lemma DoorsHintHasNoPlaceholder()
    ensures !HasPlaceholder(PassDoorsStraight)
  {
    var s := PassDoorsStraight;
    forall i | 0 <= i < |s| - 1
      ensures s[i] != '{' || s[i + 1] != '0'
    {
      if i == 5 {
        assert s[i + 1] == '1';
      } else {
        assert s[i] != '{';
      }
    }
    NoPlaceholder(s);
  }

  /** The hints without any brace. */
  lemma PlainHints(k: nat)
    requires k < |Hints| && k != 1 && k != 9 && k != 13
    ensures !HasPlaceholder(Hints[k])
  {
    if k == 0 { NoBrace(GoStraight); }
    else if k == 2 { NoBrace(TurnLeft); }
    else if k == 3 { NoBrace(TurnRight); }
    else if k == 4 { NoBrace(TurnAroundLeft); }
    else if k == 5 { NoBrace(TurnAroundRight); }
    else if k == 6 { NoBrace(GoDownstairs); }
    else if k == 7 { NoBrace(GoUpstairs); }
    else if k == 8 { NoBrace(PassDoorStraight); }
    else if k == 10 { NoBrace(PassDoorLeft); }
    else if k == 11 { NoBrace(PassDoorRight); }
    else if k == 12 { NoBrace(DestinationAhead); }
    else { NoBrace(Arriving); }
  }

  /** A text without any opening brace has no placeholder. */
  lemma NoBrace(s: string)
    requires forall i :: 0 <= i < |s| ==> s[i] != '{'
    ensures !HasPlaceholder(s)
  {
    NoPlaceholder(s);
  }

  /** A straight or destination text never equals the other kind. */
  lemma StraightIsNotDestination(t: string)
    requires StartsWith(t, Straight)
    ensures !IsDestinationText(t)
  {
    assert t[0] == 'G';
  }

  /**
    An interior candidate never carries a destination text, so the third
    merge rule cannot fire for it: merging is decided by the other three.
  */
  lemma CandidateMerge(firstText: string, next: Instruction)
    requires IsInteriorText(next.text)
    ensures ShouldMerge(firstText, next) <==>
      || (StartsWith(firstText, Straight) && StartsWith(next.text, Straight))
      || (next.distanceSpan < TransitionDistance && StartsWith(next.text, Straight))
      || firstText == next.text
  {
    InteriorTextsAreNotDestination(next.text);
  }

  /** Two straight texts always merge, whatever the spans. */
  lemma StraightRuns(firstText: string, next: Instruction)
    requires StartsWith(firstText, Straight) && StartsWith(next.text, Straight)
    ensures ShouldMerge(firstText, next)
  {
  }

  /** A turn is never swallowed by a different instruction. */
  lemma TurnsAreKept(firstText: string, next: Instruction)
    requires next.text in [TurnLeft, TurnRight, TurnAroundLeft, TurnAroundRight, GoDownstairs, GoUpstairs]
    requires firstText != next.text
    ensures !ShouldMerge(firstText, next)
  {
    var t := next.text;
    if t == TurnLeft || t == TurnRight {
      assert t[0] == 'T';
    } else if t == TurnAroundLeft || t == TurnAroundRight {
      assert t[0] == 'T';
    } else {
      assert t[..11][3] != Straight[3];
      assert t[..10][0] != DestinationPrefix[0];
    }
  }
}
