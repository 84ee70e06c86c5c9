/**
 * HierarchyPresenter: the handlers that turn hierarchy-view requests into
 * edits of scene objects and calls on the scene service, and scene-service
 * events into view updates.
 *
 * The scene service and the view are oracles whose implementations are not
 * part of this model: every call the presenter makes on either is recorded,
 * in order, in `calls`, and what a call returns (the root objects, the
 * duplicate) is a parameter of the handler that makes it.  Edits of scene
 * objects go through the SceneGraph setters, so their notifications land in
 * the graph's own log.  A null object is None.
 */
module HierarchyPresenters {
  import opened Wrappers
  import opened SceneObjects

  /** One call on ISceneService or IHierarchyView. */
  datatype Call =
    // ISceneService
    | GetRootObjects
    | SetSelection(selected: Option<Id>)
    | NotifyObjectModified(obj: Id)
    | RemoveObject(obj: Id)
    | DuplicateObject(obj: Id)
    // IHierarchyView
    | SetObjects(roots: seq<Id>)
    | UpdateSelection(selection: seq<Id>)
    | AddObject(added: Option<Id>)
    | RemoveFromView(removed: Option<Id>)
    | UpdateObject(modified: Option<Id>)

  /** The calls a delete request makes: RemoveObject exactly when there is
      an object and it is not locked. */
  function DeleteCalls(objs: map<Id, Node>, obj: Option<Id>): (r: seq<Call>)
    requires obj.Some? ==> obj.value in objs
    ensures |r| <= 1
    ensures r != [] <==> obj.Some? && !objs[obj.value].isLocked
    ensures forall c :: c in r ==> c == RemoveObject(obj.value)
  {
    if obj.Some? && !objs[obj.value].isLocked then [RemoveObject(obj.value)] else []
  }

  /** A locked object is never passed to RemoveObject, whatever the request. */
  lemma LockedNeverRemoved(objs: map<Id, Node>, obj: Option<Id>, x: Id)
    requires obj.Some? ==> obj.value in objs
    requires x in objs && objs[x].isLocked
    ensures RemoveObject(x) !in DeleteCalls(objs, obj)
  {
  }

  /** The calls a duplicate request makes: DuplicateObject, then SetSelection
      of the duplicate only when the service returned one. */
  function DuplicateCalls(obj: Option<Id>, duplicate: Option<Id>): (r: seq<Call>)
    ensures obj.None? <==> r == []
    ensures obj.Some? ==> r[0] == DuplicateObject(obj.value)
    ensures SetSelection(duplicate) in r <==> obj.Some? && duplicate.Some?
    ensures SetSelection(None) !in r
  {
    if obj.None? then []
    else if duplicate.Some? then [DuplicateObject(obj.value), SetSelection(duplicate)]
    else [DuplicateObject(obj.value)]
  }

  /** The constructor's argument checks, in order: the name of the first
      missing argument, which ArgumentNullException carries, or None when
      both are present. */
  function MissingArgument(hasView: bool, hasSceneService: bool): (r: Option<string>)
    ensures r.None? <==> hasView && hasSceneService
    ensures r == Some("view") <==> !hasView
    ensures r == Some("sceneService") <==> hasView && !hasSceneService
  {
    if !hasView then Some("view")
    else if !hasSceneService then Some("sceneService")
    else None
  }

  class HierarchyPresenter {
    const scene: SceneGraph
    /** Every call made on the scene service and the view, in order. */
    var calls: seq<Call>

    ghost predicate Valid()
      reads this, scene
    {
      scene.Valid()
    }

    /** The constructor once both arguments are present: its null checks
        are MissingArgument.  The view is not a field, only its calls are. */
    constructor (sceneService: SceneGraph)
      ensures scene == sceneService && calls == []
    {
      scene := sceneService;
      calls := [];
    }

    /** RefreshHierarchy: ask the service for its root objects and show
        exactly those. `roots` is what GetRootObjects answers. */
    method RefreshHierarchy(roots: seq<Id>)
      modifies this`calls
      ensures calls == old(calls) + [GetRootObjects, SetObjects(roots)]
    {
      calls := calls + [GetRootObjects, SetObjects(roots)];
    }

    method OnViewLoaded(roots: seq<Id>)
      modifies this`calls
      ensures calls == old(calls) + [GetRootObjects, SetObjects(roots)]
    {
      RefreshHierarchy(roots);
    }

    method OnSceneChanged(roots: seq<Id>)
      modifies this`calls
      ensures calls == old(calls) + [GetRootObjects, SetObjects(roots)]
    {
      RefreshHierarchy(roots);
    }

    /** The selection is passed on as it comes, null included. */
    method OnObjectSelected(selected: Option<Id>)
      modifies this`calls
      ensures calls == old(calls) + [SetSelection(selected)]
    {
      calls := calls + [SetSelection(selected)];
    }

    /** Rename: store the new name (a notification only if it differs) and
        tell the service once. */
    method OnObjectRenamed(obj: Option<Id>, newName: string)
      requires Valid() && (obj.Some? ==> obj.value in scene.objects)
      modifies this`calls, scene`objects, scene`log
      ensures Valid()
      ensures obj.None? ==>
        calls == old(calls) && scene.objects == old(scene.objects) && scene.log == old(scene.log)
      ensures obj.Some? ==>
        scene.objects == old(scene.objects)[obj.value := old(scene.objects)[obj.value].(name := newName)] &&
        scene.objects[obj.value].name == newName &&
        calls == old(calls) + [NotifyObjectModified(obj.value)]
      ensures obj.Some? ==>
        scene.log == old(scene.log) +
          (if old(scene.objects)[obj.value].name == newName then [] else [Notification(obj.value, "Name")])
    {
      if obj.Some? {
        var id := obj.value;
        scene.SetName(id, newName);
        calls := calls + [NotifyObjectModified(id)];
      }
    }

    method OnObjectVisibilityChanged(obj: Option<Id>, isVisible: bool)
      requires Valid() && (obj.Some? ==> obj.value in scene.objects)
      modifies this`calls, scene`objects, scene`log
      ensures Valid()
      ensures obj.None? ==>
        calls == old(calls) && scene.objects == old(scene.objects) && scene.log == old(scene.log)
      ensures obj.Some? ==>
        scene.objects == old(scene.objects)[obj.value := old(scene.objects)[obj.value].(isVisible := isVisible)] &&
        scene.objects[obj.value].isVisible == isVisible &&
        calls == old(calls) + [NotifyObjectModified(obj.value)]
      ensures obj.Some? ==>
        scene.log == old(scene.log) +
          (if old(scene.objects)[obj.value].isVisible == isVisible then [] else [Notification(obj.value, "IsVisible")])
    {
      if obj.Some? {
        var id := obj.value;
        scene.SetVisible(id, isVisible);
        calls := calls + [NotifyObjectModified(id)];
      }
    }

    method OnObjectLockStateChanged(obj: Option<Id>, isLocked: bool)
      requires Valid() && (obj.Some? ==> obj.value in scene.objects)
      modifies this`calls, scene`objects, scene`log
      ensures Valid()
      ensures obj.None? ==>
        calls == old(calls) && scene.objects == old(scene.objects) && scene.log == old(scene.log)
      ensures obj.Some? ==>
        scene.objects == old(scene.objects)[obj.value := old(scene.objects)[obj.value].(isLocked := isLocked)] &&
        scene.objects[obj.value].isLocked == isLocked &&
        calls == old(calls) + [NotifyObjectModified(obj.value)]
      ensures obj.Some? ==>
        scene.log == old(scene.log) +
          (if old(scene.objects)[obj.value].isLocked == isLocked then [] else [Notification(obj.value, "IsLocked")])
    {
      if obj.Some? {
        var id := obj.value;
        scene.SetLocked(id, isLocked);
        calls := calls + [NotifyObjectModified(id)];
      }
    }

    /** Reparent, notify, then refresh the whole view. The presenter does no
        ancestry check of its own: a reparent the view's drag-drop guard lets
        through keeps an acyclic scene acyclic. */
    method OnObjectParentChanged(obj: Option<Id>, newParent: Option<Id>, roots: seq<Id>)
      requires Valid() && (obj.Some? ==> obj.value in scene.objects)
      requires newParent.Some? ==> newParent.value in scene.objects
      modifies this`calls, scene`objects, scene`log
      ensures Valid()
      ensures obj.None? ==>
        calls == old(calls) && scene.objects == old(scene.objects) && scene.log == old(scene.log)
      ensures obj.Some? ==>
        scene.objects == Reparented(old(scene.objects), obj.value, newParent) &&
        calls == old(calls) + [NotifyObjectModified(obj.value), GetRootObjects, SetObjects(roots)]
      ensures obj.Some? ==>
        scene.log == old(scene.log) +
          (if old(scene.objects)[obj.value].parent == newParent then []
           else [Notification(obj.value, "WorldMatrix"), Notification(obj.value, "Parent")])
      ensures (obj.Some? && newParent.Some? && Acyclic(old(scene.objects)) &&
               !Ancestor(old(scene.objects), obj.value, newParent.value)) ==>
        Acyclic(scene.objects)
    {
      if obj.Some? {
        var id := obj.value;
        ghost var before := scene.objects;
        scene.SetParent(id, newParent);
        calls := calls + [NotifyObjectModified(id)];
        RefreshHierarchy(roots);
        if newParent.Some? && Acyclic(before) {
          ReparentAcyclicIff(before, id, newParent.value);
        }
      }
    }

    /** Delete: only an object that is not locked is handed to the service. */
    method OnDeleteRequested(obj: Option<Id>)
      requires Valid() && (obj.Some? ==> obj.value in scene.objects)
      modifies this`calls
      ensures calls == old(calls) + DeleteCalls(scene.objects, obj)
    {
      if obj.Some? && !scene.objects[obj.value].isLocked {
        calls := calls + [RemoveObject(obj.value)];
      }
    }

    /** Duplicate; `duplicate` is what DuplicateObject answers. */
    method OnDuplicateRequested(obj: Option<Id>, duplicate: Option<Id>)
      modifies this`calls
      ensures calls == old(calls) + DuplicateCalls(obj, duplicate)
    {
      if obj.Some? {
        calls := calls + [DuplicateObject(obj.value)];
        if duplicate.Some? {
          calls := calls + [SetSelection(duplicate)];
        }
      }
    }

    method OnSelectionChanged(selection: seq<Id>)
      modifies this`calls
      ensures calls == old(calls) + [UpdateSelection(selection)]
    {
      calls := calls + [UpdateSelection(selection)];
    }

    method OnObjectAdded(obj: Option<Id>)
      modifies this`calls
      ensures calls == old(calls) + [AddObject(obj)]
    {
      calls := calls + [AddObject(obj)];
    }

    method OnObjectRemoved(obj: Option<Id>)
      modifies this`calls
      ensures calls == old(calls) + [RemoveFromView(obj)]
    {
      calls := calls + [RemoveFromView(obj)];
    }

    method OnObjectModified(obj: Option<Id>)
      modifies this`calls
      ensures calls == old(calls) + [UpdateObject(obj)]
    {
      calls := calls + [UpdateObject(obj)];
    }
  }
}
