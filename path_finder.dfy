/**
  The path finder component (PathFinder.cs): before baking and drawing a
  path it validates its inputs and picks the start and the destination.
  Transforms are represented by their positions; an unset starting point is
  `None`. Baking the NavMesh and drawing the path are engine work and not
  part of this model.

  The destination choice does not do what the component's tooltip promises
  ("closest one will be selected"): the running distance is never updated,
  so every later destination is compared with the first one only, and the
  last destination strictly closer than the first wins.
*/
module PathFinding {
  import opened Wrappers
  import opened Geometry
  import SiteAnalysis

  /** Which branch of `CalculatePath` ran. */
  datatype PathRequest = NowhereToGo | SiteNotAnalysed | Prepared

  /** The distances from the start to each destination, in order. */
  function Distances(destinations: seq<Vector3>, start: Vector3, m: Metric): (ds: seq<real>)
    ensures |ds| == |destinations|
    ensures forall i :: 0 <= i < |ds| ==> ds[i] == m.distance(destinations[i], start)
  {
    seq(|destinations|, i requires 0 <= i < |destinations| => m.distance(destinations[i], start))
  }

  /**
    The index `Prepare` settles on after looking at the first `n`
    distances: the last one strictly below the first, or 0.
  */
  function LastCloserThanFirst(ds: seq<real>, n: nat): (r: nat)
    requires 1 <= n <= |ds|
    ensures r < n
  {
    if n == 1 then 0
    else if ds[n - 1] < ds[0] then n - 1
    else LastCloserThanFirst(ds, n - 1)
  }

  /**
    What the selection is: an index strictly closer than the first one (or
    the first itself), after which none is strictly closer than the first.
  */
  lemma {:induction false} LastCloserCharacterised(ds: seq<real>, n: nat)
    requires 1 <= n <= |ds|
    ensures var r := LastCloserThanFirst(ds, n);
      && (r == 0 || ds[r] < ds[0])
      && (forall j :: r < j < n ==> ds[j] >= ds[0])
      && (r == 0 <==> forall j :: 1 <= j < n ==> ds[j] >= ds[0])
  {
    if n > 1 && ds[n - 1] >= ds[0] {
      LastCloserCharacterised(ds, n - 1);
    }
  }

  /** With two destinations the selection is the nearer one, the first on a tie. */
  lemma TwoDestinations(ds: seq<real>)
    requires |ds| == 2
    ensures var r := LastCloserThanFirst(ds, 2);
      && ds[r] <= ds[0] && ds[r] <= ds[1]
      && (r == 1 <==> ds[1] < ds[0])
  {
  }

  /**
    With three destinations at distances 10, 5 and 7 the third is chosen,
    although the second is nearer.
  */
  lemma NotTheClosest()
    ensures LastCloserThanFirst([10.0, 5.0, 7.0], 3) == 2
    ensures [10.0, 5.0, 7.0][1] < [10.0, 5.0, 7.0][2]
  {
  }

  class PathFinder {
    /** The position of the component's own transform. */
    const position: Vector3
    /** `Vector3.Distance`. */
    const metric: Metric
    const siteAnalyser: SiteAnalysis.NavigationSite
    const destinations: seq<Vector3>
    var startingPoint: Option<Vector3>
    var endingPoint: Option<Vector3>

    constructor (position: Vector3, metric: Metric, siteAnalyser: SiteAnalysis.NavigationSite,
                 destinations: seq<Vector3>, startingPoint: Option<Vector3>)
      ensures this.position == position && this.metric == metric
      ensures this.siteAnalyser == siteAnalyser && this.destinations == destinations
      ensures this.startingPoint == startingPoint && endingPoint == None
    {
      this.position := position;
      this.metric := metric;
      this.siteAnalyser := siteAnalyser;
      this.destinations := destinations;
      this.startingPoint := startingPoint;
      endingPoint := None;
    }

    /**
      `Prepare`: an unset start defaults to the component's own position;
      the destination is the first one unless a later one is strictly
      closer than the first, in which case the last such one.
    */
    method Prepare()
      requires |destinations| >= 1
      modifies this
      ensures startingPoint == Some(old(startingPoint).GetOr(position))
      ensures endingPoint == Some(destinations[
        LastCloserThanFirst(Distances(destinations, startingPoint.value, metric), |destinations|)])
    {
      if startingPoint.None? {
        startingPoint := Some(position);
      }
      endingPoint := Some(destinations[0]);
      var start := startingPoint.value;
      ghost var ds := Distances(destinations, start, metric);
      var distance := metric.distance(destinations[0], start);
      ghost var chosen := 0;
      var i := 1;
      while i < |destinations|
        invariant 1 <= i <= |destinations|
        invariant chosen == LastCloserThanFirst(ds, i)
        invariant endingPoint == Some(destinations[chosen])
        invariant startingPoint == Some(start)
      {
        var endingPointCandidate := destinations[i];
        var newDistance := metric.distance(endingPointCandidate, start);
        if newDistance < distance {
          endingPoint := Some(endingPointCandidate);
          chosen := i;
        }
        i := i + 1;
      }
    }

    /**
      `CalculatePath(force)`: nothing to do without destinations; without an
      analysed site it stops unless forced; otherwise it prepares (and then
      bakes and draws, which are not modelled).
    */
    method CalculatePath(force: bool) returns (outcome: PathRequest)
      modifies this
      ensures outcome == NowhereToGo <==> |destinations| == 0
      ensures outcome == SiteNotAnalysed <==> |destinations| > 0 && !siteAnalyser.isAnalysed && !force
      ensures outcome != Prepared ==> unchanged(this)
      ensures outcome == Prepared ==>
        && startingPoint == Some(old(startingPoint).GetOr(position))
        && endingPoint == Some(destinations[
             LastCloserThanFirst(Distances(destinations, startingPoint.value, metric), |destinations|)])
    {
      if |destinations| == 0 {
        return NowhereToGo;
      }
      if !siteAnalyser.isAnalysed {
        if force {
          // `TriggerSiteAnalysis`, which no site class declares, is not part of this model.
        } else {
          return SiteNotAnalysed;
        }
      }
      Prepare();
      return Prepared;
    }
  }
}
