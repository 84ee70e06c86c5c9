/**
 * The hierarchy view (Views/HierarchyView.cs): the tree of scene objects
 * shown beside the viewport, the map from object identifiers to tree nodes,
 * the node labels, and the requests the view raises to its presenter.
 *
 * The view reads the scene arena it is given; it never writes to it. What
 * it raises is recorded, in order, in a log of requests.
 */
module HierarchyViews {
  import opened Wrappers
  import opened SceneObjects

  // ---------------------------------------------------------------------
  // Descendants and a measure for walking down the forest
  // ---------------------------------------------------------------------

  /** The objects on o's parent chain, o included. */
  ghost function AncestorsOf(objs: map<Id, Node>, o: Id): set<Id> {
    set a | a in objs && Ancestor(objs, a, o)
  }

  /** Shrinks by at least one from an object to each of its children. */
  ghost function Rank(objs: map<Id, Node>, o: Id): nat {
    |objs.Keys - AncestorsOf(objs, o)|
  }

  /** In a consistent arena a listed child names its owner as parent. */
  lemma ChildNamesParent(objs: map<Id, Node>, o: Id, c: Id)
    requires Consistent(objs) && o in objs && c in objs[o].children
    ensures c in objs && objs[c].parent == Some(o)
  {
    assert multiset(objs[o].children)[c] > 0;
  }

  lemma SubsetSmaller(a: set<Id>, b: set<Id>, c: Id)
    requires a <= b && c in b && c !in a
    ensures |a| < |b|
  {
    assert a <= b - {c};
    assert |b - {c}| == |b| - 1;
    SubsetNoLarger(a, b - {c});
  }

  lemma {:induction false} SubsetNoLarger(a: set<Id>, b: set<Id>)
    requires a <= b
    ensures |a| <= |b|
    decreases |b|
  {
    if a != {} {
      var x :| x in a;
      SubsetNoLarger(a - {x}, b - {x});
    }
  }

  /** Going down one level strictly lowers the rank in a forest. */
  lemma ChildRankSmaller(objs: map<Id, Node>, o: Id, c: Id)
    requires Forest(objs) && o in objs && c in objs[o].children
    ensures Rank(objs, c) < Rank(objs, o)
  {
    ChildNamesParent(objs, o, c);
    forall a | a in AncestorsOf(objs, o) ensures a in AncestorsOf(objs, c) {
      var k: nat :| Up(objs, o, k) == Some(a);
      assert Up(objs, c, k + 1) == Up(objs, o, k);
    }
    assert Up(objs, c, 0) == Some(c);
    assert c in AncestorsOf(objs, c);
    if c in AncestorsOf(objs, o) {
      var k: nat :| Up(objs, o, k) == Some(c);
      assert Up(objs, c, k + 1) == Up(objs, o, k);
      NoCycle(objs, c, k);
      assert false;
    }
    SubsetSmaller(objs.Keys - AncestorsOf(objs, c), objs.Keys - AncestorsOf(objs, o), c);
  }

  /** A descendant other than o itself lies below one of o's children. */
  lemma DescendantBelowChild(objs: map<Id, Node>, o: Id, d: Id) returns (c: Id)
    requires Consistent(objs) && o in objs && Ancestor(objs, o, d) && d != o
    ensures c in objs[o].children && Ancestor(objs, c, d)
  {
    var k: nat :| Up(objs, d, k) == Some(o);
    assert k > 0;
    var u := Up(objs, d, k - 1);
    UpStep(objs, d, k - 1);
    if u == None {
      assert false;
    }
    c := u.value;
    assert ParentOf(objs, c) == Some(o);
    assert multiset(objs[o].children)[c] == 1;
  }

  /** Whatever lies below a child of o lies below o. */
  lemma ChildDescendant(objs: map<Id, Node>, o: Id, c: Id, d: Id)
    requires Consistent(objs) && o in objs && c in objs[o].children && Ancestor(objs, c, d)
    ensures Ancestor(objs, o, d)
  {
    ChildNamesParent(objs, o, c);
    var k: nat :| Up(objs, d, k) == Some(c);
    UpStep(objs, d, k);
    assert Up(objs, d, k + 1) == Some(o);
  }

  // ---------------------------------------------------------------------
  // The ancestry walk and the drag-drop guard
  // ---------------------------------------------------------------------

  /** HierarchyView.IsAncestor: walk up from obj until the chain ends,
      answering true on meeting potentialAncestor. The walk ends only in a
      forest, hence the precondition. */
  method IsAncestor(objs: map<Id, Node>, potentialAncestor: Id, obj: Id) returns (r: bool)
    requires Acyclic(objs)
    ensures r <==> Ancestor(objs, potentialAncestor, obj)
  {
    ghost var bound: nat := 1;
    if obj in objs {
      assert Ends(objs, obj);
      bound :| Up(objs, obj, bound) == None;
    }
    var current: Option<Id> := Some(obj);
    ghost var k: nat := 0;
    while current.Some?
      invariant current == Up(objs, obj, k)
      invariant k <= bound
      invariant forall j :: 0 <= j < k ==> Up(objs, obj, j) != Some(potentialAncestor)
      decreases bound - k
    {
      if current.value == potentialAncestor {
        return true;
      }
      UpStep(objs, obj, k);
      current := ParentOf(objs, current.value);
      k := k + 1;
    }
    forall j: nat ensures Up(objs, obj, j) != Some(potentialAncestor) {
      if j >= k {
        UpStaysNone(objs, obj, k, j);
      }
    }
    r := false;
  }

  // ---------------------------------------------------------------------
  // Node labels
  // ---------------------------------------------------------------------

  const EyeIcon: string := "\U{1F441}"
  const HiddenIcon: string := "\U{1F6AB}"
  const LockIcon: string := "\U{1F512}"

  /** HierarchyView.UpdateNodeText: visibility icon, space, lock icon (empty
      when unlocked), space, name. */
  function Label(n: Node): (s: string)
    ensures |s| == (if n.isLocked then 4 else 3) + |n.name|
    ensures s[..1] == (if n.isVisible then EyeIcon else HiddenIcon) && s[1] == ' '
  {
    (if n.isVisible then EyeIcon else HiddenIcon) + " " + (if n.isLocked then LockIcon else "") + " " + n.name
  }

  /** Reads the flags and the name back out of a label. */
  function ParseLabel(s: string): Option<(bool, bool, string)> {
    if |s| >= 3 && (s[..1] == EyeIcon || s[..1] == HiddenIcon) && s[1] == ' ' then
      if |s| >= 4 && s[2..3] == LockIcon && s[3] == ' ' then Some((s[..1] == EyeIcon, true, s[4..]))
      else if s[2] == ' ' then Some((s[..1] == EyeIcon, false, s[3..]))
      else None
    else None
  }

  /** A label carries the visibility flag, the lock flag and the whole name. */
  lemma LabelRoundTrip(n: Node)
    ensures ParseLabel(Label(n)) == Some((n.isVisible, n.isLocked, n.name))
  {
    var s := Label(n);
    if n.isLocked {
      assert s[2..3] == LockIcon && s[3] == ' ' && s[4..] == n.name;
    } else {
      assert s[2] == ' ' && s[3..] == n.name;
    }
  }

  // ---------------------------------------------------------------------
  // The pre-order walk SetObjects makes
  // ---------------------------------------------------------------------

  /** A TreeNode of the view: its label and the object whose node it was
      added under (None for a top-level node). */
  datatype TreeNode = TreeNode(text: string, parentTag: Option<Id>)

  /** One `_objectNodes[obj.Id] = node` assignment. */
  datatype Entry = Entry(tag: Id, node: TreeNode)

  /** The assignments AddObjectRecursive(o, parent) makes, in order: o's
      own node first, then the subtrees of its children in Children order. */
  ghost function Visit(objs: map<Id, Node>, o: Id, parentTag: Option<Id>): seq<Entry>
    requires Forest(objs) && o in objs
    decreases Rank(objs, o), 1, 0
  {
    [Entry(o, TreeNode(Label(objs[o]), parentTag))] + VisitChildren(objs, o, |objs[o].children|)
  }

  /** The assignments made for the first n children of o. */
  ghost function VisitChildren(objs: map<Id, Node>, o: Id, n: nat): seq<Entry>
    requires Forest(objs) && o in objs && n <= |objs[o].children|
    decreases Rank(objs, o), 0, n
  {
    if n == 0 then []
    else
      var c := objs[o].children[n - 1];
      ChildRankSmaller(objs, o, c);
      ChildNamesParent(objs, o, c);
      VisitChildren(objs, o, n - 1) + Visit(objs, c, Some(o))
  }

  /** The dictionary holds what the first n children's subtrees assign
      on top of start. */
  ghost predicate Built(m: map<Id, TreeNode>, start: map<Id, TreeNode>, objs: map<Id, Node>, o: Id, n: nat)
    requires Forest(objs) && o in objs && n <= |objs[o].children|
  {
    m == Apply(start, VisitChildren(objs, o, n))
  }

  /** The tags of a run of assignments. */
  function Tags(es: seq<Entry>): (r: seq<Id>)
    ensures |r| == |es| && forall i :: 0 <= i < |es| ==> r[i] == es[i].tag
  {
    seq(|es|, i requires 0 <= i < |es| => es[i].tag)
  }

  /** The dictionary after a run of assignments, later ones overwriting. */
  function Apply(m: map<Id, TreeNode>, es: seq<Entry>): (r: map<Id, TreeNode>)
    ensures forall t :: t in r <==> t in m || t in Tags(es)
  {
    if es == [] then m
    else Apply(m, es[..|es| - 1])[es[|es| - 1].tag := es[|es| - 1].node]
  }

  /** Exactly the objects of o's subtree get a node: the walk's tags are
      o's descendants, o included. */
  lemma {:induction false} VisitTags(objs: map<Id, Node>, o: Id, parentTag: Option<Id>, d: Id)
    requires Forest(objs) && o in objs
    ensures d in Tags(Visit(objs, o, parentTag)) <==> Ancestor(objs, o, d)
    decreases Rank(objs, o)
  {
    var rest := VisitChildren(objs, o, |objs[o].children|);
    TagsConcat([Entry(o, TreeNode(Label(objs[o]), parentTag))], rest);
    assert Up(objs, o, 0) == Some(o);
    if d != o {
      VisitChildrenTags(objs, o, |objs[o].children|, d);
      if Ancestor(objs, o, d) {
        var c := DescendantBelowChild(objs, o, d);
        var i :| 0 <= i < |objs[o].children| && objs[o].children[i] == c;
        ChildRankSmaller(objs, o, c);
        VisitTags(objs, c, Some(o), d);
        assert InChildSubtree(objs, o, |objs[o].children|, d, i);
      }
      if d in Tags(rest) {
        var i :| 0 <= i < |objs[o].children| && InChildSubtree(objs, o, |objs[o].children|, d, i);
        var c := objs[o].children[i];
        ChildRankSmaller(objs, o, c);
        VisitTags(objs, c, Some(o), d);
        ChildDescendant(objs, o, c, d);
      }
    } else {
      assert Tags(Visit(objs, o, parentTag))[0] == o;
    }
  }

  /** d gets a node in the subtree of o's i-th child, one of its first n. */
  ghost predicate InChildSubtree(objs: map<Id, Node>, o: Id, n: nat, d: Id, i: int)
    requires Forest(objs) && o in objs && n <= |objs[o].children|
  {
    0 <= i < n && objs[o].children[i] in objs && d in Tags(Visit(objs, objs[o].children[i], Some(o)))
  }

  /** The walk over the first n children assigns exactly what the
      children's own walks assign. */
  lemma {:induction false} VisitChildrenTags(objs: map<Id, Node>, o: Id, n: nat, d: Id)
    requires Forest(objs) && o in objs && n <= |objs[o].children|
    ensures d in Tags(VisitChildren(objs, o, n)) <==> exists i :: InChildSubtree(objs, o, n, d, i)
  {
    if n > 0 {
      VisitChildrenTags(objs, o, n - 1, d);
      var c := objs[o].children[n - 1];
      ChildNamesParent(objs, o, c);
      VisitChildrenTagsStep(objs, o, n, c, d);
      if d in Tags(VisitChildren(objs, o, n - 1)) {
        var i :| InChildSubtree(objs, o, n - 1, d, i);
        assert InChildSubtree(objs, o, n, d, i);
      }
      if d in Tags(Visit(objs, c, Some(o))) {
        assert InChildSubtree(objs, o, n, d, n - 1);
      }
      if exists i :: InChildSubtree(objs, o, n, d, i) {
        var i :| InChildSubtree(objs, o, n, d, i);
        if i < n - 1 {
          assert InChildSubtree(objs, o, n - 1, d, i);
        }
      }
    } else {
      assert VisitChildren(objs, o, 0) == [];
    }
  }

  /** The tags of n children's subtrees: those of the first n - 1 and those
      of the n-th. */
  lemma VisitChildrenTagsStep(objs: map<Id, Node>, o: Id, n: nat, c: Id, d: Id)
    requires Forest(objs) && o in objs && 0 < n <= |objs[o].children|
    requires c == objs[o].children[n - 1] && c in objs
    ensures d in Tags(VisitChildren(objs, o, n)) <==>
      d in Tags(VisitChildren(objs, o, n - 1)) || d in Tags(Visit(objs, c, Some(o)))
  {
    ChildRankSmaller(objs, o, c);
    TagsConcat(VisitChildren(objs, o, n - 1), Visit(objs, c, Some(o)));
  }

  lemma TagsConcat(a: seq<Entry>, b: seq<Entry>)
    ensures Tags(a + b) == Tags(a) + Tags(b)
  {
  }

  /** Apply over a concatenation is Apply over each part in turn. */
  lemma {:induction false} ApplyConcat(m: map<Id, TreeNode>, a: seq<Entry>, b: seq<Entry>)
    ensures Apply(m, a + b) == Apply(Apply(m, a), b)
    decreases |b|
  {
    if b == [] {
      assert a + b == a;
    } else {
      var b' := b[..|b| - 1];
      assert (a + b)[..|a + b| - 1] == a + b';
      ApplyConcat(m, a, b');
    }
  }

  /** Walking o's subtree is assigning o's node, then walking the
      children's subtrees. */
  lemma ApplyVisit(m: map<Id, TreeNode>, objs: map<Id, Node>, o: Id, parentTag: Option<Id>)
    requires Forest(objs) && o in objs
    ensures Apply(m, Visit(objs, o, parentTag)) ==
      Apply(m[o := TreeNode(Label(objs[o]), parentTag)], VisitChildren(objs, o, |objs[o].children|))
  {
    var head := [Entry(o, TreeNode(Label(objs[o]), parentTag))];
    assert Apply(m, head) == m[o := TreeNode(Label(objs[o]), parentTag)];
    ApplyConcat(m, head, VisitChildren(objs, o, |objs[o].children|));
  }

  /** Walking one more child's subtree. */
  lemma ApplyVisitChildren(m: map<Id, TreeNode>, objs: map<Id, Node>, o: Id, i: nat)
    requires Forest(objs) && o in objs && i < |objs[o].children|
    ensures objs[o].children[i] in objs
    ensures Apply(m, VisitChildren(objs, o, i + 1)) ==
      Apply(Apply(m, VisitChildren(objs, o, i)), Visit(objs, objs[o].children[i], Some(o)))
  {
    ChildNamesParent(objs, o, objs[o].children[i]);
    ApplyConcat(m, VisitChildren(objs, o, i), Visit(objs, objs[o].children[i], Some(o)));
  }

  /** The node the view shows for d: d's label, under d's parent. */
  function NodeFor(objs: map<Id, Node>, d: Id): TreeNode
    requires d in objs
  {
    TreeNode(Label(objs[d]), objs[d].parent)
  }

  /** Every assignment in es gives its object the node NodeFor describes. */
  ghost predicate Mirrors(objs: map<Id, Node>, es: seq<Entry>) {
    forall i :: 0 <= i < |es| ==> EntryMirrors(objs, es[i])
  }

  /** One assignment gives its object the node NodeFor describes. */
  ghost predicate EntryMirrors(objs: map<Id, Node>, e: Entry) {
    e.tag in objs && e.node == NodeFor(objs, e.tag)
  }

  lemma MirrorsConcat(objs: map<Id, Node>, a: seq<Entry>, b: seq<Entry>)
    requires Mirrors(objs, a) && Mirrors(objs, b)
    ensures Mirrors(objs, a + b)
  {
    forall i | 0 <= i < |a + b|
      ensures EntryMirrors(objs, (a + b)[i])
    {
      if i >= |a| {
        assert (a + b)[i] == b[i - |a|];
      }
    }
  }

  /** Walking from an object placed under its own parent gives every
      object of the subtree its label and places it under its parent. */
  lemma {:induction false} VisitMirrors(objs: map<Id, Node>, o: Id, parentTag: Option<Id>)
    requires Forest(objs) && o in objs && parentTag == objs[o].parent
    ensures Mirrors(objs, Visit(objs, o, parentTag))
    decreases Rank(objs, o), 1
  {
    var head := [Entry(o, TreeNode(Label(objs[o]), parentTag))];
    VisitChildrenMirror(objs, o, |objs[o].children|);
    MirrorsConcat(objs, head, VisitChildren(objs, o, |objs[o].children|));
  }

  lemma {:induction false} VisitChildrenMirror(objs: map<Id, Node>, o: Id, n: nat)
    requires Forest(objs) && o in objs && n <= |objs[o].children|
    ensures Mirrors(objs, VisitChildren(objs, o, n))
    decreases Rank(objs, o), 0, n
  {
    if n > 0 {
      var c := objs[o].children[n - 1];
      ChildNamesParent(objs, o, c);
      VisitChildrenMirror(objs, o, n - 1);
      ChildMirrors(objs, o, c);
      MirrorsConcat(objs, VisitChildren(objs, o, n - 1), Visit(objs, c, Some(o)));
    }
  }

  /** The subtree walk of a child of o, placed under o. */
  lemma {:induction false} ChildMirrors(objs: map<Id, Node>, o: Id, c: Id)
    requires Forest(objs) && o in objs && c in objs[o].children
    ensures c in objs && Mirrors(objs, Visit(objs, c, Some(o)))
    decreases Rank(objs, o), 0, 0
  {
    ChildRankSmaller(objs, o, c);
    ChildNamesParent(objs, o, c);
    VisitMirrors(objs, c, Some(o));
  }

  /** A dictionary whose entries all mirror the arena keeps doing so under
      mirroring assignments. */
  lemma {:induction false} ApplyMirrors(objs: map<Id, Node>, m: map<Id, TreeNode>, es: seq<Entry>)
    requires forall t :: t in m ==> t in objs && m[t] == NodeFor(objs, t)
    requires Mirrors(objs, es)
    ensures forall t :: t in Apply(m, es) ==> t in objs && Apply(m, es)[t] == NodeFor(objs, t)
    decreases |es|
  {
    if es != [] {
      assert EntryMirrors(objs, es[|es| - 1]);
      ApplyMirrors(objs, m, es[..|es| - 1]);
    }
  }

  /** The assignments SetObjects makes for the first n roots. */
  ghost function VisitRoots(objs: map<Id, Node>, roots: seq<Id>, n: nat): seq<Entry>
    requires Forest(objs) && n <= |roots|
    requires forall r :: r in roots ==> r in objs
  {
    if n == 0 then [] else VisitRoots(objs, roots, n - 1) + Visit(objs, roots[n - 1], None)
  }

  /** d lies below one of the first n roots. */
  ghost predicate BelowRoot(objs: map<Id, Node>, roots: seq<Id>, n: nat, d: Id)
    requires n <= |roots|
  {
    exists i :: 0 <= i < n && Ancestor(objs, roots[i], d)
  }

  lemma BelowRootStep(objs: map<Id, Node>, roots: seq<Id>, n: nat, d: Id)
    requires 0 < n <= |roots|
    ensures BelowRoot(objs, roots, n, d) <==>
      BelowRoot(objs, roots, n - 1, d) || Ancestor(objs, roots[n - 1], d)
  {
    if BelowRoot(objs, roots, n, d) {
      var i :| 0 <= i < n && Ancestor(objs, roots[i], d);
      if i < n - 1 {
        assert BelowRoot(objs, roots, n - 1, d);
      }
    }
  }

  lemma {:induction false} VisitRootsTags(objs: map<Id, Node>, roots: seq<Id>, n: nat, d: Id)
    requires Forest(objs) && n <= |roots|
    requires forall r :: r in roots ==> r in objs
    ensures d in Tags(VisitRoots(objs, roots, n)) <==> BelowRoot(objs, roots, n, d)
  {
    if n > 0 {
      var before := VisitRoots(objs, roots, n - 1);
      var below := Visit(objs, roots[n - 1], None);
      assert d in Tags(VisitRoots(objs, roots, n)) <==> d in Tags(before) || d in Tags(below) by {
        assert VisitRoots(objs, roots, n) == before + below;
        TagsConcat(before, below);
      }
      VisitRootsTags(objs, roots, n - 1, d);
      VisitTags(objs, roots[n - 1], None, d);
      BelowRootStep(objs, roots, n, d);
    }
  }

  lemma {:induction false} VisitRootsMirror(objs: map<Id, Node>, roots: seq<Id>, n: nat)
    requires Forest(objs) && n <= |roots|
    requires forall r :: r in roots ==> r in objs && objs[r].parent == None
    ensures Mirrors(objs, VisitRoots(objs, roots, n))
  {
    if n > 0 {
      VisitRootsMirror(objs, roots, n - 1);
      VisitMirrors(objs, roots[n - 1], None);
      MirrorsConcat(objs, VisitRoots(objs, roots, n - 1), Visit(objs, roots[n - 1], None));
    }
  }

  /** After SetObjects(roots) the dictionary holds an entry for exactly the
      objects of the roots' subtrees; when the roots are top-level objects,
      each entry is labelled with its object and placed under its parent. */
  lemma SetObjectsContents(objs: map<Id, Node>, roots: seq<Id>, d: Id)
    requires Forest(objs)
    requires forall r :: r in roots ==> r in objs
    ensures d in Apply(map[], VisitRoots(objs, roots, |roots|)) <==>
      exists i :: 0 <= i < |roots| && Ancestor(objs, roots[i], d)
    ensures (forall r :: r in roots ==> objs[r].parent == None) && d in Apply(map[], VisitRoots(objs, roots, |roots|)) ==>
      d in objs && Apply(map[], VisitRoots(objs, roots, |roots|))[d] == NodeFor(objs, d)
  {
    VisitRootsTags(objs, roots, |roots|, d);
    if forall r :: r in roots ==> objs[r].parent == None {
      VisitRootsMirror(objs, roots, |roots|);
      ApplyMirrors(objs, map[], VisitRoots(objs, roots, |roots|));
    }
  }

  // ---------------------------------------------------------------------
  // The view
  // ---------------------------------------------------------------------

  /** What the view raises towards its presenter. */
  datatype ViewEvent =
    | ViewLoaded
    | ObjectSelected(obj: Id)
    | ObjectRenamed(obj: Id, newName: string)
    | ObjectVisibilityChanged(obj: Id, isVisible: bool)
    | ObjectLockStateChanged(obj: Id, isLocked: bool)
    | ObjectParentChanged(obj: Id, newParent: Id)
    | DeleteRequested(obj: Id)
    | DuplicateRequested(obj: Id)

  class HierarchyView {
    /** `_objectNodes`: the tree node shown for each object. */
    var objectNodes: map<Id, TreeNode>
    /** Every event raised so far, in order. */
    var raised: seq<ViewEvent>

    constructor ()
      ensures objectNodes == map[] && raised == []
    {
      objectNodes := map[];
      raised := [];
    }

    /** The Load handler. */
    method Load()
      modifies this`raised
      ensures raised == old(raised) + [ViewLoaded]
    {
      raised := raised + [ViewLoaded];
    }

    /** HierarchyView.SetObjects: clear, then add each root with its subtree. */
    method SetObjects(objs: map<Id, Node>, roots: seq<Id>)
      requires Forest(objs)
      requires forall r :: r in roots ==> r in objs
      modifies this`objectNodes
      ensures objectNodes == Apply(map[], VisitRoots(objs, roots, |roots|))
    {
      objectNodes := map[];
      for i := 0 to |roots|
        invariant objectNodes == Apply(map[], VisitRoots(objs, roots, i))
      {
        AddObjectRecursive(objs, roots[i], None);
        ApplyConcat(map[], VisitRoots(objs, roots, i), Visit(objs, roots[i], None));
      }
    }

    /** HierarchyView.AddObject: place obj under its parent's node. The
        dictionary lookup throws when the parent has no node yet; then
        nothing changes and `thrown` is set. */
    method AddObject(objs: map<Id, Node>, obj: Id) returns (thrown: bool)
      requires Forest(objs) && obj in objs
      modifies this`objectNodes
      ensures thrown <==> objs[obj].parent.Some? && objs[obj].parent.value !in old(objectNodes)
      ensures thrown ==> objectNodes == old(objectNodes)
      ensures !thrown ==> objectNodes == Apply(old(objectNodes), Visit(objs, obj, objs[obj].parent))
    {
      var parent := objs[obj].parent;
      if parent.Some? && parent.value !in objectNodes {
        return true;
      }
      AddObjectRecursive(objs, obj, parent);
      thrown := false;
    }

    /** HierarchyView.RemoveObject: drop obj's entry only; the entries of
        its descendants stay. Unknown objects are ignored. */
    method RemoveObject(obj: Id)
      modifies this`objectNodes
      ensures objectNodes == old(objectNodes) - {obj}
    {
      if obj in objectNodes {
        objectNodes := objectNodes - {obj};
      }
    }

    /** HierarchyView.UpdateObject: relabel obj's node, if it has one. */
    method UpdateObject(objs: map<Id, Node>, obj: Id)
      requires obj in objs
      modifies this`objectNodes
      ensures obj in old(objectNodes) ==>
        objectNodes == old(objectNodes)[obj := old(objectNodes)[obj].(text := Label(objs[obj]))]
      ensures obj !in old(objectNodes) ==> objectNodes == old(objectNodes)
    {
      if obj in objectNodes {
        objectNodes := objectNodes[obj := objectNodes[obj].(text := Label(objs[obj]))];
      }
    }

    /** HierarchyView.AddObjectRecursive: o's node first, then each child's
        subtree, in Children order. */
    method AddObjectRecursive(objs: map<Id, Node>, o: Id, parentTag: Option<Id>)
      requires Forest(objs) && o in objs
      modifies this`objectNodes
      ensures objectNodes == Apply(old(objectNodes), Visit(objs, o, parentTag))
      decreases Rank(objs, o), 2
    {
      objectNodes := objectNodes[o := TreeNode(Label(objs[o]), parentTag)];
      AddChildSubtrees(objs, o);
      ApplyVisit(old(objectNodes), objs, o, parentTag);
    }

    /** AddObjectRecursive's loop over o's children. */
    method AddChildSubtrees(objs: map<Id, Node>, o: Id)
      requires Forest(objs) && o in objs
      modifies this`objectNodes
      ensures objectNodes == Apply(old(objectNodes), VisitChildren(objs, o, |objs[o].children|))
      decreases Rank(objs, o), 1
    {
      ghost var start := objectNodes;
      var n := |objs[o].children|;
      for i := 0 to n
        invariant Built(objectNodes, start, objs, o, i)
      {
        AddChildSubtree(objs, o, i, start);
      }
    }

    /** One pass of AddObjectRecursive's loop: the subtree of o's i-th
        child. */
    method AddChildSubtree(objs: map<Id, Node>, o: Id, i: nat, ghost start: map<Id, TreeNode>)
      requires Forest(objs) && o in objs && i < |objs[o].children|
      requires Built(objectNodes, start, objs, o, i)
      modifies this`objectNodes
      ensures Built(objectNodes, start, objs, o, i + 1)
      decreases Rank(objs, o), 0
    {
      ApplyVisitChildren(start, objs, o, i);
      ChildRankSmaller(objs, o, objs[o].children[i]);
      AddObjectRecursive(objs, objs[o].children[i], Some(o));
    }

    /** AfterSelect: a node tagged with a scene object announces it. */
    method OnTreeViewAfterSelect(tag: Option<Id>)
      modifies this`raised
      ensures raised == old(raised) + (if tag.Some? then [ObjectSelected(tag.value)] else [])
    {
      if tag.Some? {
        raised := raised + [ObjectSelected(tag.value)];
      }
    }

    /** AfterLabelEdit: an edit that was not cancelled and produced a label
        renames the node's object. */
    method OnTreeViewAfterLabelEdit(cancelEdit: bool, newLabel: Option<string>, tag: Option<Id>)
      modifies this`raised
      ensures raised == old(raised) +
        (if !cancelEdit && newLabel.Some? && tag.Some? then [ObjectRenamed(tag.value, newLabel.value)] else [])
    {
      if !cancelEdit && newLabel.Some? {
        if tag.Some? {
          raised := raised + [ObjectRenamed(tag.value, newLabel.value)];
        }
      }
    }

    /** DragDrop: both ends must be scene objects and the target must not
        lie in the dragged object's subtree; only then is the reparent
        requested, and such a reparent keeps the forest a forest. */
    method OnTreeViewDragDrop(objs: map<Id, Node>, dragged: Option<Id>, target: Option<Id>)
      requires Acyclic(objs)
      requires dragged.Some? ==> dragged.value in objs
      requires target.Some? ==> target.value in objs
      modifies this`raised
      ensures raised == old(raised) +
        (if dragged.Some? && target.Some? && !Ancestor(objs, dragged.value, target.value)
         then [ObjectParentChanged(dragged.value, target.value)] else [])
      ensures raised != old(raised) ==>
        dragged.Some? && target.Some? && Acyclic(Reparented(objs, dragged.value, target))
    {
      if dragged.Some? && target.Some? {
        var isAncestor := IsAncestor(objs, dragged.value, target.value);
        if !isAncestor {
          raised := raised + [ObjectParentChanged(dragged.value, target.value)];
          ReparentAcyclicIff(objs, dragged.value, target.value);
        }
      }
    }

    /** Context menu Delete on the selected node. */
    method DeleteSelected(selected: Option<Id>)
      modifies this`raised
      ensures raised == old(raised) + (if selected.Some? then [DeleteRequested(selected.value)] else [])
    {
      if selected.Some? {
        raised := raised + [DeleteRequested(selected.value)];
      }
    }

    /** Context menu Duplicate on the selected node. */
    method DuplicateSelected(selected: Option<Id>)
      modifies this`raised
      ensures raised == old(raised) + (if selected.Some? then [DuplicateRequested(selected.value)] else [])
    {
      if selected.Some? {
        raised := raised + [DuplicateRequested(selected.value)];
      }
    }

    /** Show/Hide asks for the opposite of the object's visibility. */
    method ToggleVisibility(objs: map<Id, Node>, selected: Option<Id>)
      requires selected.Some? ==> selected.value in objs
      modifies this`raised
      ensures selected.None? ==> raised == old(raised)
      ensures selected.Some? ==>
        raised == old(raised) + [ObjectVisibilityChanged(selected.value, !objs[selected.value].isVisible)]
    {
      if selected.Some? {
        raised := raised + [ObjectVisibilityChanged(selected.value, !objs[selected.value].isVisible)];
      }
    }

    /** Lock/Unlock asks for the opposite of the object's lock state. */
    method ToggleLockState(objs: map<Id, Node>, selected: Option<Id>)
      requires selected.Some? ==> selected.value in objs
      modifies this`raised
      ensures selected.None? ==> raised == old(raised)
      ensures selected.Some? ==>
        raised == old(raised) + [ObjectLockStateChanged(selected.value, !objs[selected.value].isLocked)]
    {
      if selected.Some? {
        raised := raised + [ObjectLockStateChanged(selected.value, !objs[selected.value].isLocked)];
      }
    }
  }
}
