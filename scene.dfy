/**
  The scene hierarchy the sites search: a tree of named game objects, each
  with its own active flag and the two components the analysis looks for.
  A node is active in the hierarchy when it and every one of its ancestors
  are active. A tree value does not know its ancestors, so the searches
  carry that fact down as a flag, `ancestorsActive`.
  `GetComponentsInChildren(includeInactive: false)` is the pre-order list of
  the nodes of a subtree that are active in the hierarchy; an inactive node
  hides its whole subtree.
*/
module Scene {

  datatype Node = Node(
    name: string,
    active: bool,
    hasMeshFilter: bool,
    hasRenderer: bool,
    children: seq<Node>)

  /** Every node of the subtree, in pre-order. */
  function AllNodes(n: Node): seq<Node>
    decreases n, 1
  {
    [n] + AllForest(n.children)
  }

  function AllForest(s: seq<Node>): seq<Node>
    decreases s, 0
  {
    if s == [] then [] else AllNodes(s[0]) + AllForest(s[1..])
  }

  /** The active nodes of a subtree whose root has only active ancestors. */
  function ActiveNodes(n: Node): seq<Node>
    decreases n, 1
  {
    if !n.active then [] else [n] + ActiveForest(n.children)
  }

  function ActiveForest(s: seq<Node>): seq<Node>
    decreases s, 0
  {
    if s == [] then [] else ActiveNodes(s[0]) + ActiveForest(s[1..])
  }

  /**
    `GetComponentsInChildren<Transform>(includeInactive: false)` called on
    `n`, where `ancestorsActive` says whether all of `n`'s ancestors are
    active: below an inactive ancestor nothing is listed.
  */
  function VisibleNodes(n: Node, ancestorsActive: bool): seq<Node> {
    if ancestorsActive then ActiveNodes(n) else []
  }

  /**
    `GetComponentsInChildren<MeshFilter>()`: the active nodes carrying a
    mesh filter, for a node whose ancestors are all active.
  */
  function MeshFilters(n: Node): seq<Node> {
    WithMeshFilter(ActiveNodes(n))
  }

  function WithMeshFilter(s: seq<Node>): (r: seq<Node>)
    ensures forall x :: x in r <==> x in s && x.hasMeshFilter
    ensures |r| <= |s|
  {
    if s == [] then []
    else if s[0].hasMeshFilter then [s[0]] + WithMeshFilter(s[1..])
    else WithMeshFilter(s[1..])
  }

  /** LINQ's `Skip(1)`. */
  function SkipOne<T>(s: seq<T>): seq<T> {
    if s == [] then [] else s[1..]
  }

  /** The active nodes of a subtree are nodes of it, active ones, and no more of them. */
  lemma {:induction false} ActiveNodesWithin(n: Node)
    ensures forall x :: x in ActiveNodes(n) ==> x in AllNodes(n) && x.active
    ensures |ActiveNodes(n)| <= |AllNodes(n)|
    decreases n, 1
  {
    if n.active {
      ActiveForestWithin(n.children);
    }
  }

  lemma {:induction false} ActiveForestWithin(s: seq<Node>)
    ensures forall x :: x in ActiveForest(s) ==> x in AllForest(s) && x.active
    ensures |ActiveForest(s)| <= |AllForest(s)|
    decreases s, 0
  {
    if s != [] {
      ActiveNodesWithin(s[0]);
      ActiveForestWithin(s[1..]);
    }
  }

  /** An active node comes first in its own list, so `Skip(1)` drops exactly it. */
  lemma ActiveRootFirst(n: Node)
    requires n.active
    ensures ActiveNodes(n) == [n] + SkipOne(ActiveNodes(n))
  {
  }

  /**
    Filtering keeps the order: filtering a concatenation is concatenating
    the filtered parts, so the mesh filters come in the listing's order.
  */
  lemma {:induction false} WithMeshFilterAppend(a: seq<Node>, b: seq<Node>)
    ensures WithMeshFilter(a + b) == WithMeshFilter(a) + WithMeshFilter(b)
  {
    if a == [] {
      assert a + b == b;
    } else {
      var ab := a + b;
      assert ab != [] && ab[0] == a[0] && ab[1..] == a[1..] + b;
      WithMeshFilterAppend(a[1..], b);
      if a[0].hasMeshFilter {
        calc {
          WithMeshFilter(ab);
          [a[0]] + WithMeshFilter(a[1..] + b);
          [a[0]] + (WithMeshFilter(a[1..]) + WithMeshFilter(b));
          ([a[0]] + WithMeshFilter(a[1..])) + WithMeshFilter(b);
          WithMeshFilter(a) + WithMeshFilter(b);
        }
      } else {
        calc {
          WithMeshFilter(ab);
          WithMeshFilter(a[1..] + b);
          WithMeshFilter(a) + WithMeshFilter(b);
        }
      }
    }
  }
}
