/**
 * The scene-object hierarchy (Core/Models/SceneObject.cs).
 *
 * Every SceneObject lives in one arena, a map from its identifier to its
 * fields; the parent back-reference and the owned Children list hold
 * identifiers. The PropertyChanged events raised by the objects are recorded,
 * in order, in one notification log of (sender, property name) pairs.
 */
module SceneObjects {
  import opened Wrappers
  import opened Transforms

  /** SceneObject.Id: unique for the lifetime of the object. */
  type Id = nat

  /** The private fields of one SceneObject plus its Children list. */
  datatype Node = Node(
    name: string,
    isVisible: bool,
    isLocked: bool,
    position: Vector3,
    rotation: Quaternion,
    scale: Vector3,
    parent: Option<Id>,
    children: seq<Id>)

  /** One PropertyChanged event: the sender and the property name it carries. */
  datatype Notification = Notification(sender: Id, property: string)

  /** A freshly constructed object: visible, unlocked, at the origin, identity
      rotation, unit scale, no parent and no children. */
  function NewNode(name: string): Node {
    Node(name, true, false, Zero, Identity, One, None, [])
  }

  /** The object a node's parent field names, if any and if it exists. */
  function ParentOf(objs: map<Id, Node>, o: Id): Option<Id> {
    if o in objs then objs[o].parent else None
  }

  /** Every parent and every child an object names is itself an object. */
  ghost predicate Closed(objs: map<Id, Node>) {
    forall o :: o in objs ==>
      (objs[o].parent.Some? ==> objs[o].parent.value in objs) &&
      (forall c :: c in objs[o].children ==> c in objs)
  }

  /** The ownership invariant: x occurs in p.Children exactly once when
      x.Parent is p, and not at all otherwise. */
  ghost predicate Consistent(objs: map<Id, Node>) {
    Closed(objs) &&
    forall p, x {:trigger multiset(objs[p].children)[x]} :: p in objs && x in objs ==>
      multiset(objs[p].children)[x] == if objs[x].parent == Some(p) then 1 else 0
  }

  /** List<T>.IndexOf: the position of the first occurrence of x, or |s|
      when there is none. */
  function IndexOf(s: seq<Id>, x: Id): (i: nat)
    ensures i <= |s|
    ensures i < |s| ==> s[i] == x
    ensures forall k :: 0 <= k < i ==> s[k] != x
  {
    if s == [] || s[0] == x then 0
    else 1 + IndexOf(s[1..], x)
  }

  /** List<T>.Remove: drop the first occurrence of x, if there is one. */
  function RemoveFirst(s: seq<Id>, x: Id): (r: seq<Id>)
    ensures x !in s ==> r == s
    ensures multiset(r) == multiset(s) - multiset{x}
  {
    var i := IndexOf(s, x);
    if i == |s| then s
    else
      assert s == s[..i] + [x] + s[i + 1..];
      s[..i] + s[i + 1..]
  }

  /** ParentChanged's first step, `oldParent?.Children.Remove(this)`. */
  function Detach(objs: map<Id, Node>, q: Option<Id>, x: Id): (r: map<Id, Node>)
    ensures r.Keys == objs.Keys
  {
    if q.Some? && q.value in objs
    then objs[q.value := objs[q.value].(children := RemoveFirst(objs[q.value].children, x))]
    else objs
  }

  /** ParentChanged's second step, `newParent?.Children.Add(this)`. */
  function Attach(objs: map<Id, Node>, p: Option<Id>, x: Id): (r: map<Id, Node>)
    ensures r.Keys == objs.Keys
  {
    if p.Some? && p.value in objs
    then objs[p.value := objs[p.value].(children := objs[p.value].children + [x])]
    else objs
  }

  /** The arena after `x.Parent = p`: nothing when p is already the parent;
      otherwise the parent field is set, then x is removed from the old
      parent's Children and appended to the new parent's Children. */
  function Reparented(objs: map<Id, Node>, x: Id, p: Option<Id>): map<Id, Node>
    requires x in objs
  {
    var oldParent := objs[x].parent;
    if oldParent == p then objs
    else Attach(Detach(objs[x := objs[x].(parent := p)], oldParent, x), p, x)
  }

  /** The notifications raised by TransformChanged: WorldMatrix on each
      direct child, in Children order. */
  function WorldMatrixNotifications(children: seq<Id>): (r: seq<Notification>)
    ensures |r| == |children|
    ensures forall i :: 0 <= i < |r| ==> r[i] == Notification(children[i], "WorldMatrix")
  {
    if children == [] then []
    else WorldMatrixNotifications(children[..|children| - 1]) + [Notification(children[|children| - 1], "WorldMatrix")]
  }

  function Senders(ns: seq<Notification>): (r: seq<Id>)
    ensures |r| == |ns| && forall i :: 0 <= i < |ns| ==> r[i] == ns[i].sender
  {
    if ns == [] then [] else [ns[0].sender] + Senders(ns[1..])
  }

  // ---------------------------------------------------------------------
  // Ancestry along parent links
  // ---------------------------------------------------------------------

  /** The object k parent-steps above o (Some(o) for k = 0), or None once
      the chain has left the root. */
  function Up(objs: map<Id, Node>, o: Id, k: nat): Option<Id>
    decreases k
  {
    if k == 0 then Some(o)
    else match ParentOf(objs, o)
      case None => None
      case Some(p) => Up(objs, p, k - 1)
  }

  /** a is o itself or lies on o's parent chain. */
  ghost predicate Ancestor(objs: map<Id, Node>, a: Id, o: Id) {
    exists k: nat :: Up(objs, o, k) == Some(a)
  }

  /** Every parent chain ends at a root: the hierarchy is a forest. */
  ghost predicate Acyclic(objs: map<Id, Node>) {
    forall o {:trigger Ends(objs, o)} :: o in objs ==> Ends(objs, o)
  }

  /** o's parent chain reaches a root. */
  ghost predicate Ends(objs: map<Id, Node>, o: Id) {
    exists k: nat :: Up(objs, o, k) == None
  }

  /** The arena is a well-formed forest: ownership is consistent and every
      parent chain ends. */
  ghost predicate Forest(objs: map<Id, Node>) {
    Consistent(objs) && Acyclic(objs)
  }

  /** Once a parent chain has ended it stays ended. */
  lemma {:induction false} UpStaysNone(objs: map<Id, Node>, o: Id, k: nat, j: nat)
    requires Up(objs, o, k) == None && k <= j
    ensures Up(objs, o, j) == None
    decreases k
  {
    assert k > 0;
    match ParentOf(objs, o)
    case None =>
    case Some(p) => UpStaysNone(objs, p, k - 1, j - 1);
  }

  /** Walking a + b steps is walking a steps and then b more. */
  lemma {:induction false} UpAdd(objs: map<Id, Node>, o: Id, a: nat, b: nat)
    ensures Up(objs, o, a + b) == match Up(objs, o, a) case None => None case Some(y) => Up(objs, y, b)
    decreases a
  {
    if a > 0 {
      match ParentOf(objs, o)
      case None =>
        if b > 0 { UpStaysNone(objs, o, a, a + b); }
      case Some(p) => UpAdd(objs, p, a - 1, b);
    }
  }

  /** One more step is the parent of the object reached so far. */
  lemma UpStep(objs: map<Id, Node>, o: Id, k: nat)
    ensures Up(objs, o, k + 1) == match Up(objs, o, k) case None => None case Some(y) => ParentOf(objs, y)
  {
    UpAdd(objs, o, k, 1);
  }

  /** A chain that leads from c back to c never ends. */
  lemma {:induction false} CycleNeverEnds(objs: map<Id, Node>, c: Id, k: nat, n: nat)
    requires Up(objs, c, k + 1) == Some(c)
    ensures Up(objs, c, n) != None
    decreases n
  {
    if n > k + 1 {
      UpAdd(objs, c, k + 1, n - (k + 1));
      CycleNeverEnds(objs, c, k, n - (k + 1));
    } else if Up(objs, c, n) == None {
      UpStaysNone(objs, c, n, k + 1);
    }
  }

  /** In a forest no object is its own strict ancestor. */
  lemma NoCycle(objs: map<Id, Node>, c: Id, k: nat)
    requires Acyclic(objs) && c in objs
    ensures Up(objs, c, k + 1) != Some(c)
  {
    if Up(objs, c, k + 1) == Some(c) {
      assert Ends(objs, c);
      var n: nat :| Up(objs, c, n) == None;
      CycleNeverEnds(objs, c, k, n);
    }
  }

  /** The first step at which a chain reaches a. */
  lemma {:induction false} FirstReach(objs: map<Id, Node>, o: Id, a: Id, k: nat) returns (m: nat)
    requires Up(objs, o, k) == Some(a)
    ensures m <= k && Up(objs, o, m) == Some(a)
    ensures forall j :: 0 <= j < m ==> Up(objs, o, j) != Some(a)
    decreases k
  {
    if j :| 0 <= j < k && Up(objs, o, j) == Some(a) {
      m := FirstReach(objs, o, a, j);
    } else {
      m := k;
    }
  }

  // ---------------------------------------------------------------------
  // Reparenting
  // ---------------------------------------------------------------------

  /** Detach changes only the Children of the old parent. */
  lemma DetachAt(objs: map<Id, Node>, q: Option<Id>, x: Id, y: Id)
    requires y in objs
    ensures y in Detach(objs, q, x)
    ensures Detach(objs, q, x)[y] ==
      objs[y].(children := if Some(y) == q then RemoveFirst(objs[y].children, x) else objs[y].children)
  {
  }

  /** Attach changes only the Children of the new parent. */
  lemma AttachAt(objs: map<Id, Node>, p: Option<Id>, x: Id, y: Id)
    requires y in objs
    ensures y in Attach(objs, p, x)
    ensures Attach(objs, p, x)[y] ==
      objs[y].(children := if Some(y) == p then objs[y].children + [x] else objs[y].children)
  {
  }

  /** What a real reparent does to one object y: its parent field changes
      only if it is x, its name, flags and transform never change, and its
      Children lose x if it was the old parent and gain x at the end if it
      is the new one. */
  lemma ReparentedAt(objs: map<Id, Node>, x: Id, p: Option<Id>, y: Id)
    requires x in objs && y in objs && objs[x].parent != p
    ensures y in Reparented(objs, x, p)
    ensures Reparented(objs, x, p)[y] == objs[y].(
      parent := if y == x then p else objs[y].parent,
      children :=
        var afterRemove := if Some(y) == objs[x].parent then RemoveFirst(objs[y].children, x) else objs[y].children;
        if Some(y) == p then afterRemove + [x] else afterRemove)
  {
    var m := objs[x := objs[x].(parent := p)];
    DetachAt(m, objs[x].parent, x, y);
    AttachAt(Detach(m, objs[x].parent, x), p, x, y);
  }

  /** The ownership count of z in y's Children after x moves to p. */
  lemma ReparentedCount(objs: map<Id, Node>, x: Id, p: Option<Id>, y: Id, z: Id)
    requires Consistent(objs) && x in objs && y in objs && z in objs && objs[x].parent != p
    ensures var r := Reparented(objs, x, p);
      multiset(r[y].children)[z] == if r[z].parent == Some(y) then 1 else 0
  {
    ReparentedAt(objs, x, p, y);
    ReparentedAt(objs, x, p, z);
    var q := objs[x].parent;
    var before := multiset(objs[y].children)[z];
    var afterRemove: seq<Id> := if Some(y) == q then RemoveFirst(objs[y].children, x) else objs[y].children;
    assert multiset(afterRemove)[z] == before - (if Some(y) == q && z == x then 1 else 0);
    if Some(y) == p {
      assert multiset(afterRemove + [x])[z] == multiset(afterRemove)[z] + (if z == x then 1 else 0);
    }
  }

  /** After x moves to p, every parent and child y names is still an object. */
  lemma ReparentedClosedAt(objs: map<Id, Node>, x: Id, p: Option<Id>, y: Id)
    requires Closed(objs) && x in objs && y in objs && objs[x].parent != p
    requires p.Some? ==> p.value in objs
    ensures var r := Reparented(objs, x, p);
      (r[y].parent.Some? ==> r[y].parent.value in objs) &&
      (forall c :: c in r[y].children ==> c in objs)
  {
    ReparentedAt(objs, x, p, y);
    var r := Reparented(objs, x, p);
    var afterRemove: seq<Id> := if Some(y) == objs[x].parent then RemoveFirst(objs[y].children, x) else objs[y].children;
    forall c | c in r[y].children ensures c in objs {
      if c != x {
        assert c in afterRemove;
        assert multiset(afterRemove)[c] <= multiset(objs[y].children)[c];
      }
    }
  }

  /** Setting Parent keeps the ownership invariant: afterwards x occurs
      exactly once in p's Children, nowhere else, and every other object's
      membership is as before. */
  lemma ReparentKeepsConsistency(objs: map<Id, Node>, x: Id, p: Option<Id>)
    requires Consistent(objs) && x in objs
    requires p.Some? ==> p.value in objs
    ensures Consistent(Reparented(objs, x, p))
  {
    if objs[x].parent != p {
      var r := Reparented(objs, x, p);
      forall y, z | y in r && z in r
        ensures multiset(r[y].children)[z] == if r[z].parent == Some(y) then 1 else 0
      {
        ReparentedCount(objs, x, p, y, z);
      }
      forall y | y in r
        ensures (r[y].parent.Some? ==> r[y].parent.value in r) && (forall c :: c in r[y].children ==> c in r)
      {
        ReparentedClosedAt(objs, x, p, y);
      }
    }
  }

  /** The objects whose parent fields agree between two arenas, except x. */
  ghost predicate SameParentsExcept(objs: map<Id, Node>, r: map<Id, Node>, x: Id) {
    forall y :: y != x ==> ParentOf(r, y) == ParentOf(objs, y)
  }

  /** A chain that never meets x walks the same way in both arenas. */
  lemma {:induction false} ChainAvoidingX(objs: map<Id, Node>, r: map<Id, Node>, x: Id, o: Id, k: nat)
    requires SameParentsExcept(objs, r, x)
    requires forall j :: 0 <= j < k ==> Up(objs, o, j) != Some(x)
    ensures Up(r, o, k) == Up(objs, o, k)
    decreases k
  {
    if k > 0 {
      assert Up(objs, o, 0) == Some(o);
      match ParentOf(objs, o)
      case None =>
      case Some(p) =>
        forall j | 0 <= j < k - 1 ensures Up(objs, p, j) != Some(x) {
          assert Up(objs, o, j + 1) == Up(objs, p, j);
        }
        ChainAvoidingX(objs, r, x, p, k - 1);
    }
  }

  /** The drag-drop guard is exactly what keeps the forest a forest:
      making t the parent of x keeps every chain finite iff x is not t
      and not one of t's ancestors. */
  lemma ReparentAcyclicIff(objs: map<Id, Node>, x: Id, t: Id)
    requires Acyclic(objs) && x in objs && t in objs
    ensures Acyclic(Reparented(objs, x, Some(t))) <==> !Ancestor(objs, x, t)
  {
    var r := Reparented(objs, x, Some(t));
    assert SameParentsExcept(objs, r, x) && ParentOf(r, x) == Some(t);
    if !Ancestor(objs, x, t) {
      forall o | o in r ensures Ends(r, o) {
        assert Ends(objs, o);
        var k: nat :| Up(objs, o, k) == None;
        var n := EndsAfterReparent(objs, r, x, t, o, k);
      }
    } else {
      var k: nat :| Up(objs, t, k) == Some(x);
      var m := FirstReach(objs, t, x, k);
      ChainAvoidingX(objs, r, x, t, m);
      assert Up(r, x, m + 1) == Some(x);
      forall n: nat ensures Up(r, x, n) != None {
        CycleNeverEnds(r, x, m, n);
      }
      assert x in r && !Ends(r, x);
    }
  }

  /** The forward half of ReparentAcyclicIff, chain by chain. */
  lemma {:induction false} EndsAfterReparent(objs: map<Id, Node>, r: map<Id, Node>, x: Id, t: Id, o: Id, k: nat) returns (n: nat)
    requires Acyclic(objs) && t in objs
    requires SameParentsExcept(objs, r, x) && ParentOf(r, x) == Some(t)
    requires forall j: nat :: Up(objs, t, j) != Some(x)
    requires Up(objs, o, k) == None
    ensures Up(r, o, n) == None
    decreases k
  {
    if o == x {
      assert Ends(objs, t);
      var kt: nat :| Up(objs, t, kt) == None;
      ChainAvoidingX(objs, r, x, t, kt);
      n := kt + 1;
    } else {
      match ParentOf(objs, o)
      case None =>
        n := 1;
      case Some(p) =>
        var n' := EndsAfterReparent(objs, r, x, t, p, k - 1);
        n := n' + 1;
    }
  }

  // ---------------------------------------------------------------------
  // Notification fan-out
  // ---------------------------------------------------------------------

  /** TransformChanged reaches the direct children only, each exactly once:
      an object receives one WorldMatrix notification iff its parent is the
      changed object, so a grandchild receives none. */
  lemma FanOutReachesDirectChildrenOnce(objs: map<Id, Node>, id: Id, s: Id)
    requires Consistent(objs) && id in objs && s in objs
    ensures multiset(Senders(WorldMatrixNotifications(objs[id].children)))[s] ==
            if objs[s].parent == Some(id) then 1 else 0
  {
    assert Senders(WorldMatrixNotifications(objs[id].children)) == objs[id].children;
  }

  // ---------------------------------------------------------------------
  // The arena of live objects
  // ---------------------------------------------------------------------

  class SceneGraph {
    /** Every live SceneObject, by identifier. */
    var objects: map<Id, Node>
    /** Every PropertyChanged event raised so far, in order. */
    var log: seq<Notification>
    ghost predicate Valid()
      reads this
    {
      Consistent(objects)
    }

    constructor ()
      ensures Valid() && objects == map[] && log == []
    {
      objects := map[];
      log := [];
    }

    /** `new SceneObject(name)`: the default fields under a new identifier.
        Guid.NewGuid is an input here, one no live object carries. The
        constructor's own Name assignment happens before anyone can
        subscribe, so nothing is logged. */
    method Create(name: string, id: Id)
      requires Valid() && id !in objects
      modifies this`objects
      ensures Valid()
      ensures objects == old(objects)[id := NewNode(name)] && log == old(log)
      ensures objects[id].isVisible && !objects[id].isLocked
      ensures objects[id].rotation == Identity && objects[id].scale == One
      ensures objects[id].parent == None && objects[id].children == []
    {
      objects := objects[id := NewNode(name)];
      assert Consistent(objects) by {
        forall p, x | p in objects && x in objects
          ensures multiset(objects[p].children)[x] == if objects[x].parent == Some(p) then 1 else 0
        {
          if x != id && p != id {
            assert objects[p] == old(objects)[p] && objects[x] == old(objects)[x];
          }
        }
      }
    }

    /** SceneObject.OnPropertyChanged: record the event. */
    method OnPropertyChanged(id: Id, property: string)
      modifies this`log
      ensures log == old(log) + [Notification(id, property)]
    {
      log := log + [Notification(id, property)];
    }

    method SetName(id: Id, value: string)
      requires Valid() && id in objects
      modifies this`objects, this`log
      ensures Valid()
      ensures old(objects[id].name) == value ==> objects == old(objects) && log == old(log)
      ensures old(objects[id].name) != value ==>
        objects == old(objects)[id := old(objects[id]).(name := value)] &&
        log == old(log) + [Notification(id, "Name")]
    {
      if objects[id].name != value {
        objects := objects[id := objects[id].(name := value)];
        OnPropertyChanged(id, "Name");
      }
    }

    method SetVisible(id: Id, value: bool)
      requires Valid() && id in objects
      modifies this`objects, this`log
      ensures Valid()
      ensures old(objects[id].isVisible) == value ==> objects == old(objects) && log == old(log)
      ensures old(objects[id].isVisible) != value ==>
        objects == old(objects)[id := old(objects[id]).(isVisible := value)] &&
        log == old(log) + [Notification(id, "IsVisible")]
    {
      if objects[id].isVisible != value {
        objects := objects[id := objects[id].(isVisible := value)];
        OnPropertyChanged(id, "IsVisible");
      }
    }

    method SetLocked(id: Id, value: bool)
      requires Valid() && id in objects
      modifies this`objects, this`log
      ensures Valid()
      ensures old(objects[id].isLocked) == value ==> objects == old(objects) && log == old(log)
      ensures old(objects[id].isLocked) != value ==>
        objects == old(objects)[id := old(objects[id]).(isLocked := value)] &&
        log == old(log) + [Notification(id, "IsLocked")]
    {
      if objects[id].isLocked != value {
        objects := objects[id := objects[id].(isLocked := value)];
        OnPropertyChanged(id, "IsLocked");
      }
    }

    /** SceneObject.TransformChanged: WorldMatrix on each direct child. */
    method TransformChanged(id: Id)
      requires id in objects
      modifies this`log
      ensures log == old(log) + WorldMatrixNotifications(objects[id].children)
    {
      var children := objects[id].children;
      for i := 0 to |children|
        invariant log == old(log) + WorldMatrixNotifications(children[..i])
      {
        assert children[..i + 1][..i] == children[..i];
        ParentTransformChanged(children[i]);
      }
      assert children[..|children|] == children;
    }

    /** SceneObject.ParentTransformChanged: this object's WorldMatrix changed.
        It does not recurse into the object's own children. */
    method ParentTransformChanged(id: Id)
      modifies this`log
      ensures log == old(log) + [Notification(id, "WorldMatrix")]
    {
      OnPropertyChanged(id, "WorldMatrix");
    }

    method SetPosition(id: Id, value: Vector3)
      requires Valid() && id in objects
      modifies this`objects, this`log
      ensures Valid()
      ensures Vector3Equals(old(objects[id].position), value) ==> objects == old(objects) && log == old(log)
      ensures !Vector3Equals(old(objects[id].position), value) ==>
        objects == old(objects)[id := old(objects[id]).(position := value)] &&
        log == old(log) + [Notification(id, "Position")] + WorldMatrixNotifications(old(objects[id].children))
    {
      if !Vector3Equals(objects[id].position, value) {
        objects := objects[id := objects[id].(position := value)];
        OnPropertyChanged(id, "Position");
        TransformChanged(id);
      }
    }

    method SetRotation(id: Id, value: Quaternion)
      requires Valid() && id in objects
      modifies this`objects, this`log
      ensures Valid()
      ensures QuaternionEquals(old(objects[id].rotation), value) ==> objects == old(objects) && log == old(log)
      ensures !QuaternionEquals(old(objects[id].rotation), value) ==>
        objects == old(objects)[id := old(objects[id]).(rotation := value)] &&
        log == old(log) + [Notification(id, "Rotation")] + WorldMatrixNotifications(old(objects[id].children))
    {
      if !QuaternionEquals(objects[id].rotation, value) {
        objects := objects[id := objects[id].(rotation := value)];
        OnPropertyChanged(id, "Rotation");
        TransformChanged(id);
      }
    }

    method SetScale(id: Id, value: Vector3)
      requires Valid() && id in objects
      modifies this`objects, this`log
      ensures Valid()
      ensures Vector3Equals(old(objects[id].scale), value) ==> objects == old(objects) && log == old(log)
      ensures !Vector3Equals(old(objects[id].scale), value) ==>
        objects == old(objects)[id := old(objects[id]).(scale := value)] &&
        log == old(log) + [Notification(id, "Scale")] + WorldMatrixNotifications(old(objects[id].children))
    {
      if !Vector3Equals(objects[id].scale, value) {
        objects := objects[id := objects[id].(scale := value)];
        OnPropertyChanged(id, "Scale");
        TransformChanged(id);
      }
    }

    /** The Parent setter. No ancestry check is made: a caller that wants a
        forest must ensure p is not id and not below id (ReparentAcyclicIff). */
    method SetParent(id: Id, p: Option<Id>)
      requires Valid() && id in objects
      requires p.Some? ==> p.value in objects
      modifies this`objects, this`log
      ensures Valid()
      ensures objects == Reparented(old(objects), id, p)
      ensures old(objects[id].parent) == p ==> log == old(log)
      ensures old(objects[id].parent) != p ==>
        log == old(log) + [Notification(id, "WorldMatrix"), Notification(id, "Parent")]
    {
      if objects[id].parent != p {
        var oldParent := objects[id].parent;
        ghost var before := objects;
        objects := objects[id := objects[id].(parent := p)];
        ParentChanged(id, oldParent, p);
        OnPropertyChanged(id, "Parent");
        ReparentKeepsConsistency(before, id, p);
      }
    }

    /** SceneObject.ParentChanged: move id between the Children lists, then
        announce its new world transform. */
    method ParentChanged(id: Id, oldParent: Option<Id>, newParent: Option<Id>)
      modifies this`objects, this`log
      ensures objects == Attach(Detach(old(objects), oldParent, id), newParent, id)
      ensures log == old(log) + [Notification(id, "WorldMatrix")]
    {
      if oldParent.Some? && oldParent.value in objects {
        objects := objects[oldParent.value := objects[oldParent.value].(children := RemoveFirst(objects[oldParent.value].children, id))];
      }
      if newParent.Some? && newParent.value in objects {
        objects := objects[newParent.value := objects[newParent.value].(children := objects[newParent.value].children + [id])];
      }
      ParentTransformChanged(id);
    }
  }
}
