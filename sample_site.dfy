/**
  The first sample site (SampleSite.cs): it finds floors and obstacles by the
  category names the Revit glTF exporter gives to the grouping nodes of a
  model. In this draft a matched grouping node contributes its descendants
  that are active in the hierarchy but not itself, while a matched leaf
  contributes itself, active or not. The search itself walks into inactive
  children; `ancestorsActive` says whether every ancestor of `n` is active.
*/
module SiteSearch {
  import opened Scene

  const Floors: seq<string> := ["Topography", "Floors", "Stairs"]
  const Walls: seq<string> := ["Walls"]
  const Furniture: seq<string> := ["Furniture"]
  const Columns: seq<string> := ["Structural Columns"]

  /** What `FindElementsOfCategory` collects below `n`. */
  function Found(n: Node, categories: seq<string>, ancestorsActive: bool): seq<Node>
    decreases n, 1
  {
    if |n.children| == 0 then
      if n.name in categories then [n] else []
    else if n.name in categories then SkipOne(VisibleNodes(n, ancestorsActive))
    else FoundForest(n.children, categories, ancestorsActive && n.active)
  }

  /** The children's results, concatenated in child order; `ancestorsActive` is about the children's ancestors. */
  function FoundForest(s: seq<Node>, categories: seq<string>, ancestorsActive: bool): seq<Node>
    decreases s, 0
  {
    if s == [] then [] else Found(s[0], categories, ancestorsActive) + FoundForest(s[1..], categories, ancestorsActive)
  }

  /** No name in the subtree is one of the categories. */
  ghost predicate NoneNamed(n: Node, categories: seq<string>) {
    forall x :: x in AllNodes(n) ==> x.name !in categories
  }

  /**
    Everything found is a node of the subtree. It is active, and below only
    active ancestors, unless it is a matched leaf, which is taken whatever
    its flag and its ancestors' flags.
  */
  lemma {:induction false} FoundWithin(n: Node, categories: seq<string>, ancestorsActive: bool)
    ensures forall x :: x in Found(n, categories, ancestorsActive) ==>
      && x in AllNodes(n)
      && ((ancestorsActive && x.active) || (x.children == [] && x.name in categories))
    decreases n, 1
  {
    if |n.children| == 0 {
    } else if n.name in categories {
      ActiveNodesWithin(n);
      var a := VisibleNodes(n, ancestorsActive);
      forall x | x in SkipOne(a) ensures x in a {
        var i :| 0 <= i < |SkipOne(a)| && SkipOne(a)[i] == x;
        assert a[i + 1] == x;
      }
    } else {
      FoundForestWithin(n.children, categories, ancestorsActive && n.active);
    }
  }

  lemma {:induction false} FoundForestWithin(s: seq<Node>, categories: seq<string>, ancestorsActive: bool)
    ensures forall x :: x in FoundForest(s, categories, ancestorsActive) ==>
      && x in AllForest(s)
      && ((ancestorsActive && x.active) || (x.children == [] && x.name in categories))
    decreases s, 0
  {
    if s != [] {
      FoundWithin(s[0], categories, ancestorsActive);
      FoundForestWithin(s[1..], categories, ancestorsActive);
    }
  }

  /** A subtree with no node of the categories yields nothing. */
  lemma {:induction false} NothingNamedNothingFound(n: Node, categories: seq<string>, ancestorsActive: bool)
    requires NoneNamed(n, categories)
    ensures Found(n, categories, ancestorsActive) == []
    decreases n, 1
  {
    assert n in AllNodes(n);
    if |n.children| != 0 {
      NothingNamedNothingFoundForest(n.children, categories, ancestorsActive && n.active);
    }
  }

  lemma {:induction false} NothingNamedNothingFoundForest(s: seq<Node>, categories: seq<string>, ancestorsActive: bool)
    requires forall x :: x in AllForest(s) ==> x.name !in categories
    ensures FoundForest(s, categories, ancestorsActive) == []
    decreases s, 0
  {
    if s != [] {
      assert AllForest(s) == AllNodes(s[0]) + AllForest(s[1..]);
      NothingNamedNothingFound(s[0], categories, ancestorsActive);
      NothingNamedNothingFoundForest(s[1..], categories, ancestorsActive);
    }
  }

  class SampleSite {
    /** The site's own transform, the root of every search. */
    const transform: Node
    /** Whether every ancestor of `transform` in the scene is active. */
    const ancestorsActive: bool

    constructor (transform: Node, ancestorsActive: bool)
      ensures this.transform == transform && this.ancestorsActive == ancestorsActive
    {
      this.transform := transform;
      this.ancestorsActive := ancestorsActive;
    }

    /**
      `FindElementsOfCategory`: a leaf answers for itself, a matched node
      with children answers with its descendants active in the hierarchy,
      any other node with the concatenation of its children's answers.
      `ancestorsActive` stands for what Unity reads from the hierarchy
      above `transform`.
    */
    method FindElementsOfCategory(transform: Node, categories: seq<string>, ancestorsActive: bool) returns (result: seq<Node>)
      ensures result == Found(transform, categories, ancestorsActive)
      decreases transform
    {
      result := [];
      if |transform.children| == 0 {
        if transform.name in categories {
          result := result + [transform];
        }
        return;
      }
      if transform.name in categories {
        var elements := SkipOne(VisibleNodes(transform, ancestorsActive));
        result := result + elements;
        return;
      }
      var children := transform.children;
      var k := 0;
      while k < |children|
        invariant 0 <= k <= |children|
        invariant result + FoundForest(children[k..], categories, ancestorsActive && transform.active)
               == FoundForest(children, categories, ancestorsActive && transform.active)
      {
        var child := children[k];
        var found := FindElementsOfCategory(child, categories, ancestorsActive && transform.active);
        assert children[k..][1..] == children[k + 1..];
        result := result + found;
        k := k + 1;
      }
      assert children[k..] == [];
    }

    /** `GetFloors`: topography, floors and stairs, searched from the site's root. */
    method GetFloors() returns (floors: seq<Node>)
      ensures floors == Found(transform, Floors, ancestorsActive)
      ensures forall x :: x in floors ==>
        && x in AllNodes(transform)
        && ((ancestorsActive && x.active) || (x.children == [] && x.name in Floors))
    {
      floors := FindElementsOfCategory(transform, Floors, ancestorsActive);
      FoundWithin(transform, Floors, ancestorsActive);
    }

    /** `GetObstacles`: walls, then furniture, then structural columns. */
    method GetObstacles() returns (obstacles: seq<Node>)
      ensures obstacles == Found(transform, Walls, ancestorsActive)
                         + Found(transform, Furniture, ancestorsActive)
                         + Found(transform, Columns, ancestorsActive)
      ensures forall x :: x in obstacles ==>
        && x in AllNodes(transform)
        && ((ancestorsActive && x.active) || (x.children == [] && x.name in Walls + Furniture + Columns))
    {
      obstacles := FindElementsOfCategory(transform, Walls, ancestorsActive);
      var furniture := FindElementsOfCategory(transform, Furniture, ancestorsActive);
      var columns := FindElementsOfCategory(transform, Columns, ancestorsActive);
      obstacles := obstacles + furniture;
      obstacles := obstacles + columns;
      FoundWithin(transform, Walls, ancestorsActive);
      FoundWithin(transform, Furniture, ancestorsActive);
      FoundWithin(transform, Columns, ancestorsActive);
    }
  }
}
