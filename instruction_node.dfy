/**
  One navigation instruction (NavigationInstruction.cs): its text, the
  distance left to the destination where it appears, the length of path it
  covers and the key point where it stops applying. Merging rewrites a node in
  place, so the node is a class; `Instruction` is its value.
*/
module InstructionNode {
  import opened Wrappers
  import opened Geometry
  import opened Text
  import opened Constants

  /** The value of a node: text, distance left, span and anchor point. */
  datatype Instruction = Instruction(text: string, distanceLeft: real, distanceSpan: real, point: Vector3)

  /** What `string.Format` produces: the template alone, or the template with its number. */
  datatype Rendered = Plain(text: string) | Formatted(template: string, value: real)

  /** Whether a text takes a live number (`canUpdate`). */
  predicate HasPlaceholder(text: string) {
    Contains(text, "{0}")
  }

  /** The value of `first` after it absorbs `next`. */
  function Extended(first: Instruction, next: Instruction): Instruction {
    Instruction(next.text, first.distanceLeft, first.distanceSpan + next.distanceSpan, next.point)
  }

  /** The live remainder shown at distance-to-destination `d`. */
  function RemainderAtDistance(i: Instruction, d: real): real {
    i.distanceSpan - (i.distanceLeft - d)
  }

  /** The live remainder shown at `position`. */
  function RemainderAtPosition(i: Instruction, position: Vector3, m: Metric): real {
    m.distance(position, i.point) - ActualTransitionDistance(i.distanceSpan)
  }

  /** Rendering by distance left: the number is substituted only into a text with a placeholder. */
  function RenderAtDistance(i: Instruction, d: real): Rendered {
    if HasPlaceholder(i.text) then Formatted(i.text, RemainderAtDistance(i, d)) else Plain(i.text)
  }

  /** Rendering by position. */
  function RenderAtPosition(i: Instruction, position: Vector3, m: Metric): Rendered {
    if HasPlaceholder(i.text) then Formatted(i.text, RemainderAtPosition(i, position, m)) else Plain(i.text)
  }

  /**
    The countdown by distance: it shows the whole span where the instruction
    appears, falls one for one as the traveller advances, and reaches zero at
    the end of the span.
  */
  lemma CountdownByDistance(i: Instruction, d1: real, d2: real)
    ensures RemainderAtDistance(i, i.distanceLeft) == i.distanceSpan
    ensures RemainderAtDistance(i, d1) - RemainderAtDistance(i, d2) == d1 - d2
    ensures RemainderAtDistance(i, i.distanceLeft - i.distanceSpan) == 0.0
  {
  }

  /**
    The countdown by position is the distance to the anchor less at most the
    transition distance, and it goes negative inside the transition window:
    nothing bounds it from below.
  */
  lemma CountdownByPosition(i: Instruction, position: Vector3, m: Metric)
    requires m.Valid()
    ensures RemainderAtPosition(i, position, m) >= m.distance(position, i.point) - TransitionDistance
    ensures i.distanceSpan > 0.0 ==> RemainderAtPosition(i, i.point, m) < 0.0
  {
  }

  class NavigationInstruction {
    var canUpdate: bool
    var Text: string
    var Notes: Option<string>
    const DistanceLeft: real
    var DistanceSpan: real
    var ApplicablePoint: Vector3

    /** `canUpdate` caches whether the text has a placeholder. */
    ghost predicate Valid()
      reads this
    {
      canUpdate == HasPlaceholder(Text)
    }

    function Value(): Instruction
      reads this
    {
      Instruction(Text, DistanceLeft, DistanceSpan, ApplicablePoint)
    }

    constructor (text: string, remainder: real, span: real, applicablePoint: Vector3)
      ensures Valid()
      ensures Value() == Instruction(text, remainder, span, applicablePoint)
      ensures Notes == None
    {
      canUpdate := Contains(text, "{0}");
      Text := text;
      DistanceLeft := remainder;
      DistanceSpan := span;
      ApplicablePoint := applicablePoint;
      Notes := None;
    }

    /** `UpdatedText(Vector3)`: the text for a traveller at `actualPosition`. */
    function UpdatedTextAt(actualPosition: Vector3, m: Metric): (r: Rendered)
      requires Valid()
      reads this
      ensures r == RenderAtPosition(Value(), actualPosition, m)
    {
      if !canUpdate then Plain(Text)
      else
        var remainder := m.distance(actualPosition, ApplicablePoint) - ActualTransitionDistance(DistanceSpan);
        Formatted(Text, remainder)
    }

    /**
      `UpdatedText(float?)`: the text for a traveller with `actualDistanceLeft`
      to go; without an argument the node's own distance left is used, so the
      number shown is the whole span.
    */
    function UpdatedText(actualDistanceLeft: Option<real>): (r: Rendered)
      requires Valid()
      reads this
      ensures r == RenderAtDistance(Value(), actualDistanceLeft.GetOr(DistanceLeft))
      ensures actualDistanceLeft == None && canUpdate ==> r == Formatted(Text, DistanceSpan)
      ensures !canUpdate ==> r == Plain(Text)
    {
      if !canUpdate then Plain(Text)
      else
        var d := actualDistanceLeft.GetOr(DistanceLeft);
        var remainder := DistanceSpan - (DistanceLeft - d);
        Formatted(Text, remainder)
    }

    /**
      Absorbs `nextInstruction`: the spans add up, text and anchor come from
      the absorbed node, the distance left and the notes stay.
    */
    method Extend(nextInstruction: NavigationInstruction)
      modifies this
      ensures Valid()
      ensures Value() == Extended(old(Value()), old(nextInstruction.Value()))
      ensures Notes == old(Notes)
    {
      canUpdate := Contains(nextInstruction.Text, "{0}");
      Text := nextInstruction.Text;
      DistanceSpan := DistanceSpan + nextInstruction.DistanceSpan;
      ApplicablePoint := nextInstruction.ApplicablePoint;
    }
  }
}
