/**
  What `NavigationInstructions.Calculate` produces, as pure functions of the
  path: the running distance, the candidate for each interior key point, one
  step of the backward merge loop and the finished list, plus the two
  selections the indexers make. The class in navigation_instructions.dfy is
  proved to build exactly `Build(path, metric)`.
*/
module InstructionPlan {
  import opened Wrappers
  import opened Geometry
  import opened Text
  import opened Constants
  import opened InstructionNode
  import opened InstructionRules
  import LineRendererExtensions

  /**
    The lowest index the backward loop reaches. The loop stops before index
    1, so with four or more points it ends at 2; with two or three it does
    not run and the destination index is the last one handled.
  */
  function Last(p: seq<Vector3>): (r: nat)
    requires |p| >= 2
    ensures 1 <= r <= |p| - 1 && r <= 2
    ensures |p| >= 4 ==> r == 2
  {
    if |p| <= 3 then |p| - 1 else 2
  }

  /**
    `pathLength` once the loop has handled index `lo`: the last segment, then
    `distance(p[i], p[i + 1])` for `i` from `|p| - 2` down to `lo`.
  */
  function RunningLength(p: seq<Vector3>, m: Metric, lo: nat): real
    requires |p| >= 2 && 1 <= lo <= |p| - 1
    decreases |p| - lo
  {
    if lo == |p| - 1 then m.distance(p[|p| - 1], p[|p| - 2])
    else RunningLength(p, m, lo + 1) + m.distance(p[lo], p[lo + 1])
  }

  /** The very last instruction, made before the loop. */
  function DestinationInstruction(p: seq<Vector3>, m: Metric): Instruction
    requires |p| >= 2
  {
    InstructionFor(Destination(p[|p| - 2]), p[|p| - 1], RunningLength(p, m, |p| - 1), m)
  }

  /** The candidate the loop makes at interior index `lo`. */
  function Candidate(p: seq<Vector3>, m: Metric, lo: nat): Instruction
    requires 1 <= lo <= |p| - 2
  {
    InstructionFor(Interior(p[lo - 1], p[lo + 1]), p[lo], RunningLength(p, m, lo), m)
  }

  /** The first instruction, pushed after the loop with the final running distance. */
  function OriginInstruction(p: seq<Vector3>, m: Metric): Instruction
    requires |p| >= 2
  {
    InstructionFor(Origin(p[1]), p[0], RunningLength(p, m, Last(p)), m)
  }

  /**
    One loop step on the stack (top at index 0, which is always the
    remembered `nextInstruction`): the top absorbs the candidate, or the
    candidate is pushed.
  */
  function Step(stack: seq<Instruction>, c: Instruction): (r: seq<Instruction>)
    requires |stack| >= 1
  {
    if ShouldMerge(stack[0].text, c) then [Extended(stack[0], c)] + stack[1..] else [c] + stack
  }

  /** The stack once the loop has handled index `lo`. */
  function Reduce(p: seq<Vector3>, m: Metric, lo: nat): (r: seq<Instruction>)
    requires |p| >= 2 && Last(p) <= lo <= |p| - 1
    ensures |r| >= 1
    decreases |p| - lo
  {
    if lo == |p| - 1 then [DestinationInstruction(p, m)]
    else Step(Reduce(p, m, lo + 1), Candidate(p, m, lo))
  }

  /** The instructions `Calculate` pushes, in enumeration order (origin first). */
  function Build(p: seq<Vector3>, m: Metric): seq<Instruction>
    requires |p| >= 2
  {
    [OriginInstruction(p, m)] + Reduce(p, m, Last(p))
  }

  function SpanSum(s: seq<Instruction>): real {
    if s == [] then 0.0 else s[0].distanceSpan + SpanSum(s[1..])
  }

  // ---------------------------------------------------------------------
  // Shape of the result
  // ---------------------------------------------------------------------

  /** Each step pushes at most one instruction. */
  lemma {:induction false} ReduceSize(p: seq<Vector3>, m: Metric, lo: nat)
    requires |p| >= 2 && Last(p) <= lo <= |p| - 1
    ensures 1 <= |Reduce(p, m, lo)| <= |p| - lo
    decreases |p| - lo
  {
    if lo < |p| - 1 {
      ReduceSize(p, m, lo + 1);
    }
  }

  /**
    At least the origin and the destination instruction, at most one per
    point except point 1; a path of two or three points gives exactly those
    two.
  */
  lemma BuildSize(p: seq<Vector3>, m: Metric)
    requires |p| >= 2
    ensures 2 <= |Build(p, m)| <= (if |p| <= 3 then 2 else |p| - 1)
    ensures |p| <= 3 ==> Build(p, m) == [OriginInstruction(p, m), DestinationInstruction(p, m)]
  {
    ReduceSize(p, m, Last(p));
  }

  /** The origin instruction comes first: straight text, anchored at point 0. */
  lemma BuildStartsAtOrigin(p: seq<Vector3>, m: Metric)
    requires |p| >= 2
    ensures var b := Build(p, m)[0];
      && b.point == p[0]
      && b.distanceSpan == m.distance(p[0], p[1])
      && b.distanceLeft == RunningLength(p, m, Last(p))
      && b.text == DecideStraightText(m.distance(p[0], p[1]))
  {
  }

  /**
    The bottom of the stack is the destination instruction: merges may
    change its text, span and anchor but never its distance left, the last
    segment's length.
  */
  lemma {:induction false} ReduceBottom(p: seq<Vector3>, m: Metric, lo: nat)
    requires |p| >= 2 && Last(p) <= lo <= |p| - 1
    ensures var r := Reduce(p, m, lo);
      r[|r| - 1].distanceLeft == m.distance(p[|p| - 1], p[|p| - 2])
    decreases |p| - lo
  {
    if lo < |p| - 1 {
      ReduceBottom(p, m, lo + 1);
    }
  }

  lemma BuildEndsAtDestination(p: seq<Vector3>, m: Metric)
    requires |p| >= 2
    ensures var b := Build(p, m);
      b[|b| - 1].distanceLeft == m.distance(p[|p| - 1], p[|p| - 2])
  {
    ReduceBottom(p, m, Last(p));
  }

  // ---------------------------------------------------------------------
  // Distances
  // ---------------------------------------------------------------------

  /**
    The running distance counts the last segment twice: it is the sum of the
    segments from `lo` on, plus the last segment again.
  */
  lemma {:induction false} RunningLengthCountsLastTwice(p: seq<Vector3>, m: Metric, lo: nat)
    requires |p| >= 2 && 1 <= lo <= |p| - 1
    ensures RunningLength(p, m, lo)
         == LineRendererExtensions.SegmentSum(p, m, lo, |p| - 1) + m.distance(p[|p| - 1], p[|p| - 2])
    decreases |p| - lo
  {
    if lo < |p| - 1 {
      RunningLengthCountsLastTwice(p, m, lo + 1);
      LineRendererExtensions.SegmentSumFromFront(p, m, lo, |p| - 1);
    }
  }

  /**
    With four or more points the final running distance (the origin's
    distance left) is the path's length without its first two segments and
    with its last segment twice.
  */
  lemma OriginDistanceLeft(p: seq<Vector3>, m: Metric)
    requires |p| >= 4
    ensures RunningLength(p, m, Last(p))
         == LineRendererExtensions.TotalLength(p, m) - m.distance(p[0], p[1]) - m.distance(p[1], p[2])
            + m.distance(p[|p| - 1], p[|p| - 2])
  {
    RunningLengthCountsLastTwice(p, m, 2);
    LineRendererExtensions.SegmentSumFromFront(p, m, 0, |p| - 1);
    LineRendererExtensions.SegmentSumFromFront(p, m, 1, |p| - 1);
  }

  /** Merging and pushing both keep the sum of the spans. */
  lemma {:induction false} ReduceSpans(p: seq<Vector3>, m: Metric, lo: nat)
    requires |p| >= 2 && Last(p) <= lo <= |p| - 1
    ensures SpanSum(Reduce(p, m, lo)) == RunningLength(p, m, lo)
    decreases |p| - lo
  {
    if lo < |p| - 1 {
      ReduceSpans(p, m, lo + 1);
      var stack := Reduce(p, m, lo + 1);
      var c := Candidate(p, m, lo);
      if ShouldMerge(stack[0].text, c) {
        assert ([Extended(stack[0], c)] + stack[1..])[1..] == stack[1..];
      } else {
        assert ([c] + stack)[1..] == stack;
      }
    }
  }

  /**
    The spans of the instructions add up to the first segment plus the
    running distance: segment 1-2 is never covered and the last one twice.
  */
  lemma BuildSpans(p: seq<Vector3>, m: Metric)
    requires |p| >= 2
    ensures SpanSum(Build(p, m)) == m.distance(p[0], p[1]) + RunningLength(p, m, Last(p))
  {
    ReduceSpans(p, m, Last(p));
    assert Build(p, m)[1..] == Reduce(p, m, Last(p));
  }

  /** With a well-behaved metric the running distance never shrinks going back. */
  lemma {:induction false} RunningLengthGrows(p: seq<Vector3>, m: Metric, lo: nat, hi: nat)
    requires m.Valid() && |p| >= 2 && 1 <= lo <= hi <= |p| - 1
    ensures RunningLength(p, m, lo) >= RunningLength(p, m, hi)
    decreases hi - lo
  {
    if lo < hi {
      RunningLengthGrows(p, m, lo + 1, hi);
    }
  }

  predicate NonIncreasing(s: seq<Instruction>) {
    forall i, j :: 0 <= i < j < |s| ==> s[i].distanceLeft >= s[j].distanceLeft
  }

  /**
    A step keeps the stack ordered when the candidate's distance left is at
    least the top's: a merge keeps the top's distance, a push puts the
    candidate's on top.
  */
  lemma StepOrdered(stack: seq<Instruction>, c: Instruction)
    requires |stack| >= 1 && NonIncreasing(stack)
    requires c.distanceLeft >= stack[0].distanceLeft
    ensures NonIncreasing(Step(stack, c))
    ensures Step(stack, c)[0].distanceLeft <= c.distanceLeft
  {
    var r := Step(stack, c);
    if ShouldMerge(stack[0].text, c) {
      assert r == [Extended(stack[0], c)] + stack[1..];
      forall k | 0 <= k < |r|
        ensures r[k].distanceLeft == stack[k].distanceLeft
      {
      }
    } else {
      assert r == [c] + stack;
      forall i, j | 0 <= i < j < |r|
        ensures r[i].distanceLeft >= r[j].distanceLeft
      {
        assert r[j] == stack[j - 1];
        if i > 0 {
          assert r[i] == stack[i - 1];
        } else {
          assert stack[0].distanceLeft >= stack[j - 1].distanceLeft;
        }
      }
    }
  }

  lemma {:induction false} ReduceOrdered(p: seq<Vector3>, m: Metric, lo: nat)
    requires m.Valid() && |p| >= 2 && Last(p) <= lo <= |p| - 1
    ensures NonIncreasing(Reduce(p, m, lo))
    ensures Reduce(p, m, lo)[0].distanceLeft <= RunningLength(p, m, lo)
    decreases |p| - lo
  {
    if lo < |p| - 1 {
      ReduceOrdered(p, m, lo + 1);
      RunningLengthGrows(p, m, lo, lo + 1);
      var c := Candidate(p, m, lo);
      assert c.distanceLeft == RunningLength(p, m, lo);
      StepOrdered(Reduce(p, m, lo + 1), c);
    }
  }

  /**
    Distances left never increase along the list: the origin's is the
    largest, the destination's the smallest.
  */
  lemma BuildOrdered(p: seq<Vector3>, m: Metric)
    requires m.Valid() && |p| >= 2
    ensures NonIncreasing(Build(p, m))
  {
    ReduceOrdered(p, m, Last(p));
    var r := Reduce(p, m, Last(p));
    var b := Build(p, m);
    assert forall k :: 1 <= k < |b| ==> b[k] == r[k - 1];
  }

  // ---------------------------------------------------------------------
  // Anchors and texts
  // ---------------------------------------------------------------------

  /** Every instruction on the stack is anchored at a point the loop has handled. */
  lemma {:induction false} ReduceAnchors(p: seq<Vector3>, m: Metric, lo: nat)
    requires |p| >= 2 && Last(p) <= lo <= |p| - 1
    ensures forall k :: 0 <= k < |Reduce(p, m, lo)| ==>
      exists i :: lo <= i < |p| && Reduce(p, m, lo)[k].point == p[i]
    decreases |p| - lo
  {
    if lo < |p| - 1 {
      ReduceAnchors(p, m, lo + 1);
      var stack := Reduce(p, m, lo + 1);
      var r := Reduce(p, m, lo);
      forall k | 0 <= k < |r|
        ensures exists i :: lo <= i < |p| && r[k].point == p[i]
      {
        if k == 0 {
          assert r[0].point == p[lo];
        } else if ShouldMerge(stack[0].text, Candidate(p, m, lo)) {
          assert r[k] == stack[k];
        } else {
          assert r[k] == stack[k - 1];
        }
      }
    } else {
      assert Reduce(p, m, lo)[0].point == p[|p| - 1];
    }
  }

  /**
    Point 1 is never classified: apart from the origin at point 0, every
    instruction is anchored at an index of at least `Last(p)`, which is 2
    for paths of four or more points.
  */
  lemma BuildAnchors(p: seq<Vector3>, m: Metric)
    requires |p| >= 2
    ensures Build(p, m)[0].point == p[0]
    ensures forall k :: 1 <= k < |Build(p, m)| ==>
      exists i :: Last(p) <= i < |p| && Build(p, m)[k].point == p[i]
  {
    ReduceAnchors(p, m, Last(p));
    var b := Build(p, m);
    assert forall k :: 1 <= k < |b| ==> b[k] == Reduce(p, m, Last(p))[k - 1];
  }

  /** Candidates always carry one of the classifier's texts. */
  lemma CandidateText(p: seq<Vector3>, m: Metric, lo: nat)
    requires 1 <= lo <= |p| - 2
    ensures IsInteriorText(Candidate(p, m, lo).text)
  {
    var prev, cur, next := p[lo - 1], p[lo], p[lo + 1];
    var outgoing := Sub(next, cur);
    var incoming := Sub(cur, prev);
    ClassifyRange(next.y - cur.y, m.angle(Up, outgoing), m.angle(Flatten(incoming), Flatten(outgoing)),
      Cross(Flatten(incoming), Flatten(outgoing)).y, m.distance(cur, next));
  }

  /** Every instruction above the bottom of the stack has a classifier text. */
  lemma {:induction false} ReduceTexts(p: seq<Vector3>, m: Metric, lo: nat)
    requires |p| >= 2 && Last(p) <= lo <= |p| - 1
    ensures forall k :: 0 <= k < |Reduce(p, m, lo)| - 1 ==> IsInteriorText(Reduce(p, m, lo)[k].text)
    decreases |p| - lo
  {
    if lo < |p| - 1 {
      ReduceTexts(p, m, lo + 1);
      CandidateText(p, m, lo);
      var stack := Reduce(p, m, lo + 1);
      var r := Reduce(p, m, lo);
      forall k | 0 <= k < |r| - 1
        ensures IsInteriorText(r[k].text)
      {
        if k == 0 {
          assert r[0].text == Candidate(p, m, lo).text;
        } else if ShouldMerge(stack[0].text, Candidate(p, m, lo)) {
          assert r[k] == stack[k];
        } else {
          assert r[k] == stack[k - 1];
        }
      }
    }
  }

  /**
    Only the last instruction can carry a destination text; the first is
    always a straight one.
  */
  lemma BuildTexts(p: seq<Vector3>, m: Metric)
    requires |p| >= 2
    ensures var b := Build(p, m);
      && StartsWith(b[0].text, Straight)
      && forall k :: 0 <= k < |b| - 1 ==> !IsDestinationText(b[k].text)
  {
    ReduceTexts(p, m, Last(p));
    var b := Build(p, m);
    var r := Reduce(p, m, Last(p));
    StraightIsNotDestination(b[0].text);
    forall k | 1 <= k < |b| - 1
      ensures !IsDestinationText(b[k].text)
    {
      assert b[k] == r[k - 1] && IsInteriorText(r[k - 1].text);
      InteriorTextsAreNotDestination(b[k].text);
    }
  }

  /** Inside the loop the destination-text merge rule never decides anything. */
  lemma StepIgnoresDestinationRule(p: seq<Vector3>, m: Metric, lo: nat, firstText: string)
    requires 1 <= lo <= |p| - 2
    ensures var c := Candidate(p, m, lo);
      ShouldMerge(firstText, c) <==>
        || (StartsWith(firstText, Straight) && StartsWith(c.text, Straight))
        || (c.distanceSpan < TransitionDistance && StartsWith(c.text, Straight))
        || firstText == c.text
  {
    CandidateText(p, m, lo);
    CandidateMerge(firstText, Candidate(p, m, lo));
  }

  // ---------------------------------------------------------------------
  // Selections made by the indexers
  // ---------------------------------------------------------------------

  /**
    `OrderBy(i => d - i.DistanceLeft).First(i => d - i.DistanceLeft > 0)`:
    the index of the smallest positive `d - distanceLeft`, the earliest one on
    ties (the sort is stable); `None` (the C# code throws) when no instruction
    has a distance left below `d`.
  */
  function SelectByDistance(s: seq<Instruction>, d: real): (r: Option<nat>)
    ensures r.None? <==> forall j :: 0 <= j < |s| ==> d - s[j].distanceLeft <= 0.0
    ensures r.Some? ==>
      && r.value < |s|
      && d - s[r.value].distanceLeft > 0.0
      && (forall j :: 0 <= j < |s| && d - s[j].distanceLeft > 0.0 ==>
            d - s[r.value].distanceLeft <= d - s[j].distanceLeft)
      && (forall j :: 0 <= j < r.value && d - s[j].distanceLeft > 0.0 ==>
            d - s[r.value].distanceLeft < d - s[j].distanceLeft)
    decreases |s|
  {
    if s == [] then None
    else
      var rest := SelectByDistance(s[1..], d);
      var key := d - s[0].distanceLeft;
      if key > 0.0 && (rest.None? || key <= d - s[1..][rest.value].distanceLeft) then Some(0)
      else if rest.Some? then Some(rest.value + 1)
      else None
  }

  /**
    `OrderBy(i => (position - i.ApplicablePoint).sqrMagnitude).First()`: the
    index of the nearest anchor, the earliest one on ties; `None` (the C# code
    throws) only for an empty list.
  */
  function SelectByPosition(s: seq<Instruction>, position: Vector3): (r: Option<nat>)
    ensures r.None? <==> s == []
    ensures r.Some? ==>
      && r.value < |s|
      && (forall j :: 0 <= j < |s| ==>
            SqrMagnitude(Sub(position, s[r.value].point)) <= SqrMagnitude(Sub(position, s[j].point)))
      && (forall j :: 0 <= j < r.value ==>
            SqrMagnitude(Sub(position, s[r.value].point)) < SqrMagnitude(Sub(position, s[j].point)))
    decreases |s|
  {
    if s == [] then None
    else
      var rest := SelectByPosition(s[1..], position);
      if rest.None? || SqrMagnitude(Sub(position, s[0].point)) <= SqrMagnitude(Sub(position, s[1..][rest.value].point))
      then Some(0)
      else Some(rest.value + 1)
  }

  /**
    On a list whose distances left never increase, the distance selection is
    simply the first instruction whose distance left is below `d`.
  */
  lemma SelectByDistanceOnOrdered(s: seq<Instruction>, d: real)
    requires NonIncreasing(s)
    ensures var r := SelectByDistance(s, d);
      r.Some? ==> s[r.value].distanceLeft < d && forall j :: 0 <= j < r.value ==> s[j].distanceLeft >= d
  {
  }

  /**
    On an ordered list: beyond the first distance left the first instruction
    is selected; at or below the last one nothing is.
  */
  lemma OrderedDistanceQueries(s: seq<Instruction>, d: real)
    requires |s| >= 1 && NonIncreasing(s)
    ensures d > s[0].distanceLeft ==> SelectByDistance(s, d) == Some(0)
    ensures d <= s[|s| - 1].distanceLeft ==> SelectByDistance(s, d) == None
  {
    if d > s[0].distanceLeft {
      var r := SelectByDistance(s, d);
      assert d - s[0].distanceLeft > 0.0;
      assert d - s[r.value].distanceLeft >= d - s[0].distanceLeft;
    }
    if d <= s[|s| - 1].distanceLeft {
      assert forall j :: 0 <= j < |s| ==> s[j].distanceLeft >= s[|s| - 1].distanceLeft;
    }
  }

  /**
    On the computed list: beyond the origin's distance left the origin is
    selected; at or below the destination's distance left nothing is, so
    the distance indexer throws there, at the destination itself included.
  */
  lemma BuildDistanceQueries(p: seq<Vector3>, m: Metric, d: real)
    requires m.Valid() && |p| >= 2
    ensures var b := Build(p, m);
      && (d > b[0].distanceLeft ==> SelectByDistance(b, d) == Some(0))
      && (d <= m.distance(p[|p| - 1], p[|p| - 2]) ==> SelectByDistance(b, d) == None)
  {
    var b := Build(p, m);
    BuildOrdered(p, m);
    BuildEndsAtDestination(p, m);
    assert |b| >= 1 && NonIncreasing(b);
    assert b[|b| - 1].distanceLeft == m.distance(p[|p| - 1], p[|p| - 2]);
    OrderedDistanceQueries(b, d);
  }
}
