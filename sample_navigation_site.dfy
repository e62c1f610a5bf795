/**
  The second sample site (Models/SampleNavigationSite.cs). Its search differs
  from the first draft's: a matched node, leaf or not, contributes every
  node of its subtree that is active in the hierarchy, itself first, and
  the search does not look below it. It also collects passages (doors).
  As in the first draft the search walks into inactive children, and
  `ancestorsActive` says whether every ancestor of `n` is active.
*/
module NavigationSiteSearch {
  import opened Scene
  import SiteSearch

  const Doors: seq<string> := ["Doors"]

  /** What `FindElementsOfCategory` collects below `n`. */
  function Found(n: Node, categories: seq<string>, ancestorsActive: bool): seq<Node>
    decreases n, 1
  {
    if n.name in categories then VisibleNodes(n, ancestorsActive)
    else FoundForest(n.children, categories, ancestorsActive && n.active)
  }

  function FoundForest(s: seq<Node>, categories: seq<string>, ancestorsActive: bool): seq<Node>
    decreases s, 0
  {
    if s == [] then [] else Found(s[0], categories, ancestorsActive) + FoundForest(s[1..], categories, ancestorsActive)
  }

  /** Every node of the subtree is active. */
  ghost predicate AllActive(n: Node) {
    && n.active
    && forall i :: 0 <= i < |n.children| ==> AllActive(n.children[i])
  }

  /**
    Everything found is an active node of the subtree below only active
    ancestors, and there are never more results than nodes: a node below a
    matched one is reached only through it, never a second time by the
    search itself.
  */
  lemma {:induction false} FoundWithin(n: Node, categories: seq<string>, ancestorsActive: bool)
    ensures forall x :: x in Found(n, categories, ancestorsActive) ==>
      ancestorsActive && x in AllNodes(n) && x.active
    ensures |Found(n, categories, ancestorsActive)| <= |AllNodes(n)|
    decreases n, 1
  {
    if n.name in categories {
      ActiveNodesWithin(n);
    } else {
      FoundForestWithin(n.children, categories, ancestorsActive && n.active);
    }
  }

  lemma {:induction false} FoundForestWithin(s: seq<Node>, categories: seq<string>, ancestorsActive: bool)
    ensures forall x :: x in FoundForest(s, categories, ancestorsActive) ==>
      ancestorsActive && x in AllForest(s) && x.active
    ensures |FoundForest(s, categories, ancestorsActive)| <= |AllForest(s)|
    decreases s, 0
  {
    if s != [] {
      FoundWithin(s[0], categories, ancestorsActive);
      FoundForestWithin(s[1..], categories, ancestorsActive);
    }
  }

  /**
    Below an inactive node this draft finds nothing, whatever the names:
    the search walks into the hidden subtree, but every listing it takes
    there is empty.
  */
  lemma {:induction false} HiddenSubtreeYieldsNothing(n: Node, categories: seq<string>)
    ensures Found(n, categories, false) == []
    decreases n, 1
  {
    if n.name !in categories {
      HiddenForestYieldsNothing(n.children, categories);
    }
  }

  lemma {:induction false} HiddenForestYieldsNothing(s: seq<Node>, categories: seq<string>)
    ensures FoundForest(s, categories, false) == []
    decreases s, 0
  {
    if s != [] {
      HiddenSubtreeYieldsNothing(s[0], categories);
      HiddenForestYieldsNothing(s[1..], categories);
    }
  }

  /** A non-matching leaf yields nothing; a subtree with no match yields nothing. */
  lemma {:induction false} NothingNamedNothingFound(n: Node, categories: seq<string>, ancestorsActive: bool)
    requires SiteSearch.NoneNamed(n, categories)
    ensures Found(n, categories, ancestorsActive) == []
    decreases n, 1
  {
    assert n in AllNodes(n);
    NothingNamedNothingFoundForest(n.children, categories, ancestorsActive && n.active);
  }

  lemma {:induction false} NothingNamedNothingFoundForest(s: seq<Node>, categories: seq<string>, ancestorsActive: bool)
    requires forall x :: x in AllForest(s) ==> x.name !in categories
    ensures FoundForest(s, categories, ancestorsActive) == []
    decreases s, 0
  {
    if s != [] {
      assert AllForest(s) == AllNodes(s[0]) + AllForest(s[1..]);
      NothingNamedNothingFound(s[0], categories, ancestorsActive);
      NothingNamedNothingFoundForest(s[1..], categories, ancestorsActive);
    }
  }

  /**
    On a matched, active node with children the two drafts differ by exactly
    that node: this one lists it first, the other skips it.
  */
  lemma MatchedParentDifference(n: Node, categories: seq<string>)
    requires n.name in categories && n.active && n.children != []
    ensures Found(n, categories, true) == [n] + SiteSearch.Found(n, categories, true)
  {
  }

  /**
    On a fully active tree below active ancestors the first draft finds
    nothing this one misses: this draft only adds the matched grouping
    nodes themselves.
  */
  lemma {:induction false} DraftsOnActiveTrees(n: Node, categories: seq<string>)
    requires AllActive(n)
    ensures multiset(SiteSearch.Found(n, categories, true)) <= multiset(Found(n, categories, true))
    decreases n, 1
  {
    if |n.children| == 0 {
    } else if n.name in categories {
      assert Found(n, categories, true) == [n] + SiteSearch.Found(n, categories, true);
    } else {
      DraftsOnActiveForests(n.children, categories);
    }
  }

  lemma {:induction false} DraftsOnActiveForests(s: seq<Node>, categories: seq<string>)
    requires forall i :: 0 <= i < |s| ==> AllActive(s[i])
    ensures multiset(SiteSearch.FoundForest(s, categories, true)) <= multiset(FoundForest(s, categories, true))
    decreases s, 0
  {
    if s != [] {
      DraftsOnActiveTrees(s[0], categories);
      DraftsOnActiveForests(s[1..], categories);
    }
  }

  class SampleNavigationSite {
    /** The site's own transform, the root of every search. */
    const transform: Node
    /** Whether every ancestor of `transform` in the scene is active. */
    const ancestorsActive: bool

    constructor (transform: Node, ancestorsActive: bool)
      ensures this.transform == transform && this.ancestorsActive == ancestorsActive
    {
      this.transform := transform;
      this.ancestorsActive := ancestorsActive;
    }

    /**
      `FindElementsOfCategory`: a matched node answers with the part of its
      subtree that is active in the hierarchy, any other node with the
      concatenation of its children's answers. `ancestorsActive` stands for
      what Unity reads from the hierarchy above `transform`.
    */
    method FindElementsOfCategory(transform: Node, categories: seq<string>, ancestorsActive: bool) returns (result: seq<Node>)
      ensures result == Found(transform, categories, ancestorsActive)
      decreases transform
    {
      result := [];
      if transform.name in categories {
        var elements := VisibleNodes(transform, ancestorsActive);
        result := result + elements;
        return;
      }
      var children := transform.children;
      var k := 0;
      while k < |children|
        invariant 0 <= k <= |children|
        invariant result + FoundForest(children[k..], categories, ancestorsActive && transform.active)
               == FoundForest(children, categories, ancestorsActive && transform.active)
      {
        var child := children[k];
        var found := FindElementsOfCategory(child, categories, ancestorsActive && transform.active);
        assert children[k..][1..] == children[k + 1..];
        result := result + found;
        k := k + 1;
      }
      assert children[k..] == [];
    }

    /** `GetFloors` (Topography, Floors, Stairs). */
    method GetFloors() returns (floors: seq<Node>)
      ensures floors == Found(transform, SiteSearch.Floors, ancestorsActive)
      ensures forall x :: x in floors ==> ancestorsActive && x in AllNodes(transform) && x.active
    {
      floors := FindElementsOfCategory(transform, SiteSearch.Floors, ancestorsActive);
      FoundWithin(transform, SiteSearch.Floors, ancestorsActive);
    }

    /** `GetObstacles`: walls, then furniture, then structural columns. */
    method GetObstacles() returns (obstacles: seq<Node>)
      ensures obstacles == Found(transform, SiteSearch.Walls, ancestorsActive)
                         + Found(transform, SiteSearch.Furniture, ancestorsActive)
                         + Found(transform, SiteSearch.Columns, ancestorsActive)
      ensures forall x :: x in obstacles ==> ancestorsActive && x in AllNodes(transform) && x.active
    {
      obstacles := FindElementsOfCategory(transform, SiteSearch.Walls, ancestorsActive);
      var furniture := FindElementsOfCategory(transform, SiteSearch.Furniture, ancestorsActive);
      var columns := FindElementsOfCategory(transform, SiteSearch.Columns, ancestorsActive);
      obstacles := obstacles + furniture;
      obstacles := obstacles + columns;
      FoundWithin(transform, SiteSearch.Walls, ancestorsActive);
      FoundWithin(transform, SiteSearch.Furniture, ancestorsActive);
      FoundWithin(transform, SiteSearch.Columns, ancestorsActive);
    }

    /** `GetPassages`: the doors. */
    method GetPassages() returns (passages: seq<Node>)
      ensures passages == Found(transform, Doors, ancestorsActive)
      ensures forall x :: x in passages ==> ancestorsActive && x in AllNodes(transform) && x.active
    {
      passages := FindElementsOfCategory(transform, Doors, ancestorsActive);
      FoundWithin(transform, Doors, ancestorsActive);
    }
  }
}
