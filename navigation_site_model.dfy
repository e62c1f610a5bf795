/**
  The second draft of the site base class (Models/NavigationSite.cs). Besides
  floors and obstacles it collects passages, turns every visible mesh under
  the floors and obstacles into a NavMesh build source (walkable area 0,
  non-walkable area 1), bakes, and only then raises the flag. A busy flag
  rejects re-entrant calls, a switch can mute the listeners, and any
  exception inside the analysis is logged and swallowed.

  The collectors and the bake are outside the model: each collector either
  returns a list (possibly null) or throws, and the bake either succeeds or
  throws. The bounds the loops grow only feed the bake and are not modelled.
*/
module NavMeshSite {
  import opened Wrappers
  import opened Scene

  /** What an overridden collector did. */
  datatype Collected = Returned(list: Option<seq<Node>>) | Threw

  /** A `NavMeshBuildSource`: the mesh's node, the collected object it came from, the area. */
  datatype BuildSource = BuildSource(mesh: Node, owner: Node, area: int)

  const WalkableArea := 0
  const NotWalkableArea := 1

  /** The sources one collected object yields: its visible mesh filters, in order. */
  function ObjectSources(filters: seq<Node>, owner: Node, area: int): seq<BuildSource> {
    if filters == [] then []
    else
      var rest := ObjectSources(filters[..|filters| - 1], owner, area);
      var m := filters[|filters| - 1];
      if m.hasRenderer then rest + [BuildSource(m, owner, area)] else rest
  }

  /** The sources a list of collected objects yields, object by object. */
  function SourcesOf(objects: seq<Node>, area: int): seq<BuildSource> {
    if objects == [] then []
    else
      var o := objects[|objects| - 1];
      SourcesOf(objects[..|objects| - 1], area) + ObjectSources(MeshFilters(o), o, area)
  }

  /** Every source is a visible mesh filter of a collected object, tagged with the area. */
  lemma {:induction false} ObjectSourcesSound(filters: seq<Node>, owner: Node, area: int)
    ensures forall e :: e in ObjectSources(filters, owner, area) <==>
      e.mesh in filters && e.mesh.hasRenderer && e.owner == owner && e.area == area
  {
    if filters != [] {
      ObjectSourcesSound(filters[..|filters| - 1], owner, area);
      var last := filters[|filters| - 1];
      assert filters == filters[..|filters| - 1] + [last];
    }
  }

  /**
    A source exists exactly for each collected object and each active node
    below it (itself included) that carries both a mesh filter and a
    renderer; meshes without a renderer are skipped.
  */
  lemma {:induction false} SourcesExactly(objects: seq<Node>, area: int)
    ensures forall e :: e in SourcesOf(objects, area) <==>
      && e.owner in objects
      && e.mesh in ActiveNodes(e.owner)
      && e.mesh.hasMeshFilter && e.mesh.hasRenderer
      && e.area == area
  {
    if objects != [] {
      var init := objects[..|objects| - 1];
      var o := objects[|objects| - 1];
      SourcesExactly(init, area);
      ObjectSourcesSound(MeshFilters(o), o, area);
      assert objects == init + [o];
    }
  }

  /** Whether the analysis runs to the end: no collector threw and the bake succeeded. */
  predicate Completes(f: Collected, o: Collected, p: Collected, bakeSucceeds: bool) {
    !f.Threw? && !o.Threw? && !p.Threw? && bakeSucceeds
  }

  class NavigationSite {
    var isAnalysed: bool
    var isBusy: bool
    var elements: seq<BuildSource>
    var ignoreSiteAnalysisListeners: bool
    var floors: Option<seq<Node>>
    var obstacles: Option<seq<Node>>
    var passages: Option<seq<Node>>
    /** `OnAnalysed != null`. */
    var hasListeners: bool
    /** How many times `OnAnalysed` has been invoked. */
    var notifications: nat
    /** Whether a `LineRenderer` is attached to the site's game object. */
    var hasLineRenderer: bool

    constructor (hasListeners: bool, ignoreSiteAnalysisListeners: bool, hasLineRenderer: bool)
      ensures !isAnalysed && !isBusy && elements == []
      ensures floors == None && obstacles == None && passages == None
      ensures this.hasListeners == hasListeners && notifications == 0
      ensures this.ignoreSiteAnalysisListeners == ignoreSiteAnalysisListeners
      ensures this.hasLineRenderer == hasLineRenderer
    {
      isAnalysed := false;
      isBusy := false;
      elements := [];
      this.ignoreSiteAnalysisListeners := ignoreSiteAnalysisListeners;
      floors := None;
      obstacles := None;
      passages := None;
      this.hasListeners := hasListeners;
      notifications := 0;
      this.hasLineRenderer := hasLineRenderer;
    }

    /** Whether setting the flag to `value` reaches a listener. */
    function Notifies(value: bool): (r: bool)
      reads this
      ensures r ==> value && !ignoreSiteAnalysisListeners
    {
      value && !ignoreSiteAnalysisListeners && hasListeners
    }

    /**
      The `IsAnalysed` setter: it stores the value; for true, and unless the
      listeners are muted, it invokes the delegate if it is set.
    */
    method SetIsAnalysed(value: bool)
      modifies this
      ensures isAnalysed == value
      ensures notifications == old(notifications) + (if Notifies(value) then 1 else 0)
      ensures isBusy == old(isBusy) && elements == old(elements)
      ensures floors == old(floors) && obstacles == old(obstacles) && passages == old(passages)
      ensures hasListeners == old(hasListeners) && ignoreSiteAnalysisListeners == old(ignoreSiteAnalysisListeners)
      ensures hasLineRenderer == old(hasLineRenderer)
    {
      isAnalysed := value;
      if isAnalysed && !ignoreSiteAnalysisListeners && hasListeners {
        notifications := notifications + 1;
      }
    }

    /** The flags and counters, everything but the collected lists and the sources. */
    ghost function Status(): (bool, bool, nat, bool, bool, bool)
      reads this
    {
      (isAnalysed, isBusy, notifications, hasListeners, ignoreSiteAnalysisListeners, hasLineRenderer)
    }

    /** The three collected lists. */
    ghost function Collections(): (Option<seq<Node>>, Option<seq<Node>>, Option<seq<Node>>)
      reads this
    {
      (floors, obstacles, passages)
    }

    /**
      The inner loop of `Analyse`: each mesh filter of one collected object
      that has a renderer becomes a source with the given area; the others
      are skipped.
    */
    method AddObjectSources(owner: Node, area: int)
      modifies this
      ensures elements == old(elements) + ObjectSources(MeshFilters(owner), owner, area)
      ensures Status() == old(Status()) && Collections() == old(Collections())
    {
      var meshFilters := MeshFilters(owner);
      var j := 0;
      while j < |meshFilters|
        invariant 0 <= j <= |meshFilters|
        invariant elements == old(elements) + ObjectSources(meshFilters[..j], owner, area)
        invariant Status() == old(Status()) && Collections() == old(Collections())
      {
        var meshFilter := meshFilters[j];
        assert meshFilters[..j + 1][..j] == meshFilters[..j];
        if !meshFilter.hasRenderer {
          j := j + 1;
          continue;
        }
        elements := elements + [BuildSource(meshFilter, owner, area)];
        j := j + 1;
      }
      assert meshFilters[..j] == meshFilters;
    }

    /** One of `Analyse`'s two outer loops, over the floors or over the obstacles. */
    method AddSources(objects: seq<Node>, area: int)
      modifies this
      ensures elements == old(elements) + SourcesOf(objects, area)
      ensures Status() == old(Status()) && Collections() == old(Collections())
    {
      var i := 0;
      while i < |objects|
        invariant 0 <= i <= |objects|
        invariant elements == old(elements) + SourcesOf(objects[..i], area)
        invariant Status() == old(Status()) && Collections() == old(Collections())
      {
        AddObjectSources(objects[i], area);
        assert objects[..i + 1][..i] == objects[..i];
        i := i + 1;
      }
      assert objects[..i] == objects;
    }

    /**
      The three collector calls at the start of the `try` block: each result
      is stored with null replaced by an empty list, and the first collector
      that throws stops the rest.
    */
    method Collect(f: Collected, o: Collected, p: Collected) returns (collected: bool)
      modifies this
      ensures collected == (!f.Threw? && !o.Threw? && !p.Threw?)
      ensures floors == (if f.Threw? then old(floors) else Some(f.list.GetOr([])))
      ensures obstacles == (if f.Threw? || o.Threw? then old(obstacles) else Some(o.list.GetOr([])))
      ensures passages == (if !collected then old(passages) else Some(p.list.GetOr([])))
      ensures Status() == old(Status()) && elements == old(elements)
    {
      if f.Threw? {
        return false;
      }
      floors := Some(f.list.GetOr([]));
      if o.Threw? {
        return false;
      }
      obstacles := Some(o.list.GetOr([]));
      if p.Threw? {
        return false;
      }
      passages := Some(p.list.GetOr([]));
      return true;
    }

    /** The two loops of the `try` block: floor sources first, then obstacle sources. */
    method BuildSources()
      requires floors.Some? && obstacles.Some?
      modifies this
      ensures Status() == old(Status()) && Collections() == old(Collections())
      ensures floors == old(floors) && obstacles == old(obstacles)
      ensures elements == SourcesOf(floors.value, WalkableArea) + SourcesOf(obstacles.value, NotWalkableArea)
    {
      elements := [];
      AddSources(floors.value, WalkableArea);
      AddSources(obstacles.value, NotWalkableArea);
    }

    /**
      The `try` block of `Analyse`: collect, build the sources, bake, raise
      the flag. It stops at the first collector or bake that throws;
      `completed` says whether it reached the end.
    */
    method TryAnalyse(f: Collected, o: Collected, p: Collected, bakeSucceeds: bool) returns (completed: bool)
      modifies this
      ensures completed == Completes(f, o, p, bakeSucceeds)
      ensures isAnalysed == (completed || old(isAnalysed))
      ensures notifications == old(notifications) + (if completed && Notifies(true) then 1 else 0)
      ensures floors == (if f.Threw? then old(floors) else Some(f.list.GetOr([])))
      ensures obstacles == (if f.Threw? || o.Threw? then old(obstacles) else Some(o.list.GetOr([])))
      ensures passages == (if f.Threw? || o.Threw? || p.Threw? then old(passages) else Some(p.list.GetOr([])))
      ensures elements == (if f.Threw? || o.Threw? || p.Threw? then old(elements)
        else SourcesOf(f.list.GetOr([]), WalkableArea) + SourcesOf(o.list.GetOr([]), NotWalkableArea))
      ensures isBusy == old(isBusy) && hasListeners == old(hasListeners)
      ensures ignoreSiteAnalysisListeners == old(ignoreSiteAnalysisListeners)
      ensures hasLineRenderer == old(hasLineRenderer)
    {
      var collected := Collect(f, o, p);
      if !collected {
        return false;
      }
      BuildSources();
      if !bakeSucceeds {
        return false;
      }
      SetIsAnalysed(true);
      return true;
    }

    /**
      `Analyse`: does nothing while busy; otherwise marks itself busy, clears
      the flag (silently), runs the analysis and, whatever happened, is no
      longer busy. The flag ends true exactly when the analysis completed.
    */
    method Analyse(f: Collected, o: Collected, p: Collected, bakeSucceeds: bool)
      modifies this
      ensures old(isBusy) ==> unchanged(this)
      ensures !old(isBusy) ==> !isBusy
      ensures !old(isBusy) ==> isAnalysed == Completes(f, o, p, bakeSucceeds)
      ensures !old(isBusy) ==>
        notifications == old(notifications) + (if Completes(f, o, p, bakeSucceeds) && Notifies(true) then 1 else 0)
      ensures !old(isBusy) && !f.Threw? && !o.Threw? && !p.Threw? ==>
        && floors == Some(f.list.GetOr([]))
        && obstacles == Some(o.list.GetOr([]))
        && passages == Some(p.list.GetOr([]))
        && elements == SourcesOf(f.list.GetOr([]), WalkableArea) + SourcesOf(o.list.GetOr([]), NotWalkableArea)
      ensures hasListeners == old(hasListeners) && ignoreSiteAnalysisListeners == old(ignoreSiteAnalysisListeners)
      ensures hasLineRenderer == old(hasLineRenderer)
    {
      if isBusy {
        return;
      }
      isBusy := true;
      SetIsAnalysed(false);
      var completed := TryAnalyse(f, o, p, bakeSucceeds);
      isBusy := false;
    }

    /**
      `RemoveAllNavMeshData`: destroys the attached line renderer, if any,
      and clears the flag, which never notifies.
    */
    method RemoveAllNavMeshData()
      modifies this
      ensures !isAnalysed && !hasLineRenderer
      ensures notifications == old(notifications)
      ensures isBusy == old(isBusy) && elements == old(elements)
      ensures floors == old(floors) && obstacles == old(obstacles) && passages == old(passages)
      ensures hasListeners == old(hasListeners) && ignoreSiteAnalysisListeners == old(ignoreSiteAnalysisListeners)
    {
      if hasLineRenderer {
        hasLineRenderer := false;
      }
      SetIsAnalysed(false);
    }
  }

  /** A failed bake leaves the site unanalysed, not busy, and the listeners unaware. */
  method FailedBake(floors: seq<Node>) returns (analysed: bool, busy: bool, count: nat)
    ensures !analysed && !busy && count == 0
  {
    var site := new NavigationSite(true, false, false);
    site.Analyse(Returned(Some(floors)), Returned(None), Returned(None), false);
    analysed := site.isAnalysed;
    busy := site.isBusy;
    count := site.notifications;
  }

  /** Muted listeners are never notified, even by a complete analysis. */
  method MutedListeners() returns (analysed: bool, count: nat)
    ensures analysed && count == 0
  {
    var site := new NavigationSite(true, true, false);
    site.Analyse(Returned(None), Returned(None), Returned(None), true);
    analysed := site.isAnalysed;
    count := site.notifications;
  }
}
