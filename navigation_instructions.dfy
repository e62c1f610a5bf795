/**
  The instruction engine itself (NavigationInstructions.cs): a path, a stack
  of instruction nodes filled by `Calculate`, and the two indexers that pick
  the instruction to show. The stack is a sequence with its top at index 0,
  which is also the order in which the stack enumerates.
*/
module NavigationInstructionsEngine {
  import opened Wrappers
  import opened Geometry
  import opened Text
  import opened Constants
  import opened InstructionNode
  import opened InstructionRules
  import opened InstructionPlan

  /** The values of a sequence of nodes. */
  function Snapshot(s: seq<NavigationInstruction>): (r: seq<Instruction>)
    reads s
    ensures |r| == |s|
    ensures forall k :: 0 <= k < |s| ==> r[k] == s[k].Value()
  {
    if s == [] then [] else [s[0].Value()] + Snapshot(s[1..])
  }

  /**
    `Merge`: when `ShouldMerge` holds for the two texts, `first` absorbs
    `next` and the answer is true; otherwise nothing changes. `next` is never
    modified.
  */
  method Merge(first: NavigationInstruction, next: NavigationInstruction) returns (merged: bool)
    requires first.Valid()
    modifies first
    ensures first.Valid()
    ensures merged == ShouldMerge(old(first.Text), old(next.Value()))
    ensures merged ==> first.Value() == Extended(old(first.Value()), old(next.Value()))
    ensures !merged ==> first.Value() == old(first.Value())
    ensures first.Notes == old(first.Notes)
    ensures first != next ==> next.Value() == old(next.Value())
  {
    var firstInstruction := first.Text;
    var secondInstruction := next.Text;
    var stright := GoStraight;
    if StartsWith(firstInstruction, stright) && StartsWith(secondInstruction, stright) {
      first.Extend(next);
      return true;
    }
    if next.DistanceSpan < TransitionDistance && StartsWith(secondInstruction, stright) {
      first.Extend(next);
      return true;
    }
    var destination := DestinationAhead[..10];
    if StartsWith(firstInstruction, destination) && StartsWith(secondInstruction, destination) {
      first.Extend(next);
      return true;
    }
    if firstInstruction == secondInstruction {
      first.Extend(next);
      return true;
    }
    return false;
  }

  /** Pushing a node puts its value on top of the others. */
  lemma SnapshotPush(x: NavigationInstruction, s: seq<NavigationInstruction>)
    ensures Snapshot([x] + s) == [x.Value()] + Snapshot(s)
  {
    var t := [x] + s;
    assert forall k :: 1 <= k < |t| ==> t[k] == s[k - 1];
  }

  lemma ConcatAssociates<T>(a: seq<T>, b: seq<T>, c: seq<T>)
    ensures a + (b + c) == a + b + c
  {
  }

  /** A loop step only touches the top of the stack, so older entries ride along. */
  lemma StepKeepsOlder(stack: seq<Instruction>, older: seq<Instruction>, c: Instruction)
    requires |stack| >= 1
    ensures Step(stack + older, c) == Step(stack, c) + older
  {
    assert (stack + older)[0] == stack[0];
    assert (stack + older)[1..] == stack[1..] + older;
  }

  class NavigationInstructions {
    const path: seq<Vector3>
    /** `Vector3.Distance` and `Vector3.Angle`. */
    const metric: Metric
    /** The stack; index 0 is the top. */
    var instructions: seq<NavigationInstruction>
    var pathLength: real
    /** The remembered instruction the loop merges into; null before `Calculate`. */
    var nextInstruction: NavigationInstruction?

    ghost predicate Valid()
      reads this, instructions
    {
      && |path| >= 2
      && forall k :: 0 <= k < |instructions| ==> instructions[k].Valid()
    }

    /** The values on the stack, top first. */
    function Values(): seq<Instruction>
      reads this, instructions
    {
      Snapshot(instructions)
    }

    constructor (path: seq<Vector3>, metric: Metric)
      requires |path| >= 2
      ensures Valid()
      ensures this.path == path && this.metric == metric
      ensures instructions == [] && nextInstruction == null
    {
      this.path := path;
      this.metric := metric;
      instructions := [];
      pathLength := 0.0;
      nextInstruction := null;
    }

    /**
      The guarded constructor: a path of fewer than two points is rejected
      (InvalidOperationException) before anything is stored.
    */
    static method Create(path: seq<Vector3>, metric: Metric) returns (r: Result<NavigationInstructions>)
      ensures r.Failure? <==> |path| < 2
      ensures r.Failure? ==> r.error == InvalidOperation
      ensures r.Success? ==>
        && fresh(r.value) && r.value.Valid()
        && r.value.path == path && r.value.metric == metric && r.value.instructions == []
    {
      if |path| < 2 {
        return Failure(InvalidOperation);
      }
      var engine := new NavigationInstructions(path, metric);
      return Success(engine);
    }

    /** `GetInstruction`: a new node for the key point `currentP`. */
    method GetInstruction(position: Position, currentP: Vector3, distanceLeft: real) returns (r: NavigationInstruction)
      ensures fresh(r) && r.Valid()
      ensures r.Value() == InstructionFor(position, currentP, distanceLeft, metric)
    {
      var i := InstructionFor(position, currentP, distanceLeft, metric);
      r := new NavigationInstruction(i.text, i.distanceLeft, i.distanceSpan, i.point);
    }

    /** `Stack.Push`: `node` becomes the top; nothing else changes. */
    method Push(node: NavigationInstruction)
      requires Valid() && node.Valid() && node !in instructions
      modifies this
      ensures Valid()
      ensures instructions == [node] + old(instructions)
      ensures Values() == [node.Value()] + old(Values())
      ensures pathLength == old(pathLength) && nextInstruction == old(nextInstruction)
    {
      SnapshotPush(node, instructions);
      instructions := [node] + instructions;
    }

    /** The remembered instruction is the top of the stack and occurs there only. */
    ghost predicate TopIsRemembered()
      reads this
    {
      && |instructions| >= 1
      && nextInstruction == instructions[0]
      && forall k :: 1 <= k < |instructions| ==> instructions[k] != instructions[0]
    }

    /**
      The body of `Calculate`'s loop: the remembered instruction absorbs the
      candidate (`Merge`), or the candidate is pushed and remembered.
    */
    method MergeOrPush(currentInstruction: NavigationInstruction)
      requires Valid() && TopIsRemembered() && currentInstruction.Valid()
      requires currentInstruction !in instructions
      modifies this, nextInstruction
      ensures Valid() && TopIsRemembered()
      ensures Values() == Step(old(Values()), old(currentInstruction.Value()))
      ensures nextInstruction == old(nextInstruction) || nextInstruction == currentInstruction
      ensures pathLength == old(pathLength)
    {
      ghost var before := Values();
      var top := nextInstruction;
      var merged := Merge(top, currentInstruction);
      if !merged {
        Push(currentInstruction);
        nextInstruction := currentInstruction;
      } else {
        forall k | 1 <= k < |instructions|
          ensures instructions[k].Value() == before[k] && instructions[k].Valid()
        {
          assert instructions[k] != top;
        }
        assert Values() == [top.Value()] + before[1..];
      }
    }

    /**
      One iteration of `Calculate`'s loop, at interior index `i`: extend the
      running distance, classify point `i`, then merge or push.
    */
    method Visit(i: nat, ghost older: seq<Instruction>)
      requires 2 <= i <= |path| - 2
      requires Valid() && TopIsRemembered()
      requires pathLength == RunningLength(path, metric, i + 1)
      requires Values() == Reduce(path, metric, i + 1) + older
      modifies this, nextInstruction
      ensures Valid() && TopIsRemembered()
      ensures nextInstruction == old(nextInstruction) || fresh(nextInstruction)
      ensures pathLength == RunningLength(path, metric, i)
      ensures Values() == Reduce(path, metric, i) + older
    {
      var nextPoint := path[i + 1];
      var currentPoint := path[i];
      var previousPoint := path[i - 1];
      pathLength := pathLength + metric.distance(currentPoint, nextPoint);
      var currentInstruction := GetInstruction(Interior(previousPoint, nextPoint), currentPoint, pathLength);
      assert currentInstruction.Value() == Candidate(path, metric, i);
      StepKeepsOlder(Reduce(path, metric, i + 1), older, Candidate(path, metric, i));
      MergeOrPush(currentInstruction);
    }

    /**
      The start of `Calculate`: the running distance is the last segment and
      the destination instruction is pushed and remembered.
    */
    method BeginAtDestination()
      requires Valid()
      modifies this
      ensures Valid() && TopIsRemembered() && fresh(nextInstruction)
      ensures pathLength == RunningLength(path, metric, |path| - 1)
      ensures Values() == Reduce(path, metric, |path| - 1) + old(Values())
    {
      var currentPoint := path[|path| - 1];
      var previousPoint := path[|path| - 2];
      pathLength := metric.distance(currentPoint, previousPoint);
      var last := GetInstruction(Destination(previousPoint), currentPoint, pathLength);
      assert pathLength == RunningLength(path, metric, |path| - 1);
      assert Reduce(path, metric, |path| - 1) == [last.Value()];
      Push(last);
      nextInstruction := last;
    }

    /** The end of `Calculate`: the origin instruction is pushed, never merged. */
    method EndAtOrigin()
      requires Valid()
      modifies this
      ensures Valid()
      ensures pathLength == old(pathLength)
      ensures Values() == [InstructionFor(Origin(path[1]), path[0], pathLength, metric)] + old(Values())
    {
      var nextPoint := path[1];
      var currentPoint := path[0];
      var first := GetInstruction(Origin(nextPoint), currentPoint, pathLength);
      Push(first);
    }

    /**
      `Calculate`: walks the path from the destination back to the origin,
      pushing the instructions of `Build(path, metric)` on top of whatever the
      stack already held.
    */
    method Calculate()
      requires Valid()
      modifies this
      ensures Valid()
      ensures Values() == Build(path, metric) + old(Values())
      ensures pathLength == RunningLength(path, metric, Last(path))
    {
      ghost var older := Values();
      BeginAtDestination();
      var i := |path| - 2;
      while i > 1
        invariant Valid() && TopIsRemembered() && fresh(nextInstruction)
        invariant Last(path) <= i + 1 <= |path| - 1
        invariant pathLength == RunningLength(path, metric, i + 1)
        invariant Values() == Reduce(path, metric, i + 1) + older
      {
        Visit(i, older);
        i := i - 1;
      }
      assert i + 1 == Last(path);
      ghost var reduced := Reduce(path, metric, i + 1);
      ghost var origin := InstructionFor(Origin(path[1]), path[0], pathLength, metric);
      assert origin == OriginInstruction(path, metric);
      EndAtOrigin();
      assert Values() == [origin] + (reduced + older);
      ConcatAssociates([origin], reduced, older);
    }

    /**
      The distance indexer: the node with the smallest positive
      `d - DistanceLeft`, rendered at `d`; fails when no node's distance left
      is below `d`.
    */
    function AtDistance(distanceLeft: real): (r: Result<Rendered>)
      requires Valid()
      reads this, instructions
      ensures match SelectByDistance(Values(), distanceLeft)
        case None => r == Failure(InvalidOperation)
        case Some(k) => r == Success(RenderAtDistance(Values()[k], distanceLeft))
    {
      match SelectByDistance(Values(), distanceLeft)
      case None => Failure(InvalidOperation)
      case Some(k) => Success(instructions[k].UpdatedText(Some(distanceLeft)))
    }

    /**
      The position indexer: the node whose anchor is nearest to
      `actualPosition`, rendered there; fails only on an empty stack.
    */
    function AtPosition(actualPosition: Vector3): (r: Result<Rendered>)
      requires Valid()
      reads this, instructions
      ensures r.Failure? <==> instructions == []
      ensures match SelectByPosition(Values(), actualPosition)
        case None => r == Failure(InvalidOperation)
        case Some(k) => r == Success(RenderAtPosition(Values()[k], actualPosition, metric))
    {
      match SelectByPosition(Values(), actualPosition)
      case None => Failure(InvalidOperation)
      case Some(k) => Success(instructions[k].UpdatedTextAt(actualPosition, metric))
    }

    /** Enumeration yields the stack from the top: after one `Calculate`, origin first. */
    method GetEnumerator() returns (r: seq<NavigationInstruction>)
      ensures r == instructions
      ensures Snapshot(r) == Values()
    {
      r := instructions;
    }
  }

  /**
    The engine's life cycle on one path: construct (which rejects a path of
    fewer than two points), `Calculate`, then enumerate. The enumeration
    yields the origin instruction first, anchored at point 0, and the
    destination instruction last, whose distance left is the last segment.
  */
  method EnumerateRoute(path: seq<Vector3>, metric: Metric) returns (r: Result<seq<Instruction>>)
    ensures r.Failure? <==> |path| < 2
    ensures r.Success? ==> r.value == Build(path, metric)
    ensures r.Success? ==>
      && |r.value| >= 2
      && r.value[0] == OriginInstruction(path, metric)
      && r.value[0].point == path[0]
      && r.value[|r.value| - 1].distanceLeft == metric.distance(path[|path| - 1], path[|path| - 2])
  {
    var created := NavigationInstructions.Create(path, metric);
    if created.Failure? {
      return Failure(created.error);
    }
    var engine := created.value;
    engine.Calculate();
    var nodes := engine.GetEnumerator();
    BuildSize(path, metric);
    BuildEndsAtDestination(path, metric);
    return Success(Snapshot(nodes));
  }
}
