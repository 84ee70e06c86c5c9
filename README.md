# BrickElement CAD editor: a verified model of its core

The editor is a WinForms desktop application for building scenes of
geometric objects. This project models, in Dafny, the parts of it that hold
logic rather than drawing code:

- **Scene objects** (`scene_object.dfy`, `transforms.dfy`). Scene objects form
  a parent/children hierarchy. Every property setter does nothing for an
  unchanged value, and otherwise stores the value and raises
  `PropertyChanged`. A transform change notifies the direct children's
  `WorldMatrix`. The Parent setter moves the object between the two parents'
  `Children` lists.
- **Application state** (`application_state.dfy`). The document, selection,
  operation and tool flags that named events move, with two invariants: unsaved
  changes imply an open document, and a modifiable selection is a selection.
- **Presenters** (`hierarchy_presenter.dfy`, `main_presenter.dfy`).
  - The hierarchy presenter turns view requests into edits of scene objects
    and scene-service calls. It refuses to delete a locked object.
  - The main presenter runs the new / open / save / save-as / save-changes
    prompt flow over the application state.
- **Hierarchy view** (`hierarchy_view.dfy`). The object-to-node map that
  `SetObjects` builds by a pre-order walk, the node labels, the `IsAncestor`
  walk, and the drag-drop guard that keeps reparenting acyclic.
- **Main-window widgets** (`toolstrip.dfy`, `library_panel.dfy`,
  `hierarchy_panel.dfy`, `status_strip.dfy`, `layout.dfy`). These are the tool
  strip's group exclusion, the primitive library's category and search
  filter, the window's own hierarchy tree with its check-box cascade and
  emoji-keeping rename, the status bar's progress rule, and the splitter
  distance clamps.

Objects whose fields the source updates in place are Dafny classes whose
methods carry `modifies` clauses. Each method is proved against a function
on values, and the properties are lemmas about those functions.

Services, views, dialogs and the file system are oracles. Every call made on
them is recorded, in order, in a log. What they answer is a parameter of the
handler that asks.

`wrappers.dfy` holds the `Option` type that stands for C#'s null.

## Model

| member | source | states |
|---|---|---|
| Transforms.Vector3EqualsSelf | Core/Models/SceneObject.cs:80 | under Vector3's `==`, which the Position and Scale setters use, a value equals itself exactly when none of its components is NaN |
| Transforms.QuaternionEqualsSelf | Core/Models/SceneObject.cs:97 | the same for Quaternion's `==`, which the Rotation setter uses |
| Transforms.DefaultsAreNumbers | Core/Models/SceneObject.cs:14-16 | the default position (Zero), scale (One) and rotation (Identity) hold no NaN, and Zero differs from One |
| SceneObjects.IndexOf | Core/Models/SceneObject.cs:208 | the index `List.Remove` looks for: the first position holding x, or the length when x is absent |
| SceneObjects.RemoveFirst | Core/Models/SceneObject.cs:208 | `Children.Remove(this)`: the list is unchanged when x is absent; otherwise exactly one occurrence of x is gone (multiset difference) |
| SceneObjects.WorldMatrixNotifications | Core/Models/SceneObject.cs:183-199 | TransformChanged's notifications: one "WorldMatrix" per direct child, in Children order |
| SceneObjects.ReparentedAt | Core/Models/SceneObject.cs:129-139 | what assigning Parent does to each object y: only x's parent field changes; y's Children lose x if y was the old parent and gain x at the end if y is the new one; names, flags and transforms never change |
| SceneObjects.ReparentKeepsConsistency | Core/Models/SceneObject.cs:126-144 | the Parent setter keeps the ownership invariant: every object occurs exactly once in its parent's Children and in no other Children list, and every referenced object exists |
| SceneObjects.NoCycle | Core/Models/SceneObject.cs:126-139 | in an arena whose parent chains all end, no object is its own strict ancestor |
| SceneObjects.ReparentAcyclicIff | Core/Models/SceneObject.cs:129-138 | the setter makes no ancestry check. Giving x the parent t keeps every parent chain finite exactly when x is not t and not one of t's ancestors (both directions) |
| SceneObjects.FanOutReachesDirectChildrenOnce | Core/Models/SceneObject.cs:183-199 | a transform change notifies each object once if its parent is the changed object and never otherwise; grandchildren are not notified |
| SceneObjects.SceneGraph.Create | Core/Models/SceneObject.cs:11-17 | a new object is visible, unlocked, at the origin, with identity rotation, unit scale, no parent and no children, under an identifier no live object has; the constructor's Name assignment raises nothing |
| SceneObjects.SceneGraph.OnPropertyChanged | Core/Models/SceneObject.cs:217-220 | appends exactly one (sender, property) event to the log |
| SceneObjects.SceneGraph.SetName | Core/Models/SceneObject.cs:27-38 | an equal name changes nothing and raises nothing; a different one is stored and raises "Name" once; the ownership invariant holds after |
| SceneObjects.SceneGraph.SetVisible | Core/Models/SceneObject.cs:43-54 | the same for IsVisible and "IsVisible" |
| SceneObjects.SceneGraph.SetLocked | Core/Models/SceneObject.cs:59-70 | the same for IsLocked and "IsLocked" |
| SceneObjects.SceneGraph.SetPosition | Core/Models/SceneObject.cs:75-87 | a value equal under float `==` changes nothing; any other value, NaN included, is stored and raises "Position" and then one "WorldMatrix" per direct child |
| SceneObjects.SceneGraph.SetRotation | Core/Models/SceneObject.cs:92-104 | the same for Rotation |
| SceneObjects.SceneGraph.SetScale | Core/Models/SceneObject.cs:109-121 | the same for Scale |
| SceneObjects.SceneGraph.TransformChanged | Core/Models/SceneObject.cs:183-190 | the log grows by exactly the WorldMatrix notifications of the direct children, in order (loop invariant) |
| SceneObjects.SceneGraph.ParentTransformChanged | Core/Models/SceneObject.cs:195-199 | one "WorldMatrix" notification for the object itself; it does not recurse |
| SceneObjects.SceneGraph.SetParent | Core/Models/SceneObject.cs:126-139 | the arena becomes Reparented (Children moved, ownership invariant kept). A real change logs "WorldMatrix" then "Parent"; the same parent logs nothing |
| SceneObjects.SceneGraph.ParentChanged | Core/Models/SceneObject.cs:206-211 | x leaves the old parent's Children, is appended to the new parent's Children, and one "WorldMatrix" is raised |
| ApplicationStates.Initial | Core/Models/ApplicationState.cs:54-63 | Reset's state: no document, no changes, no operation, no selection, Select tool, null path; it satisfies both invariants |
| ApplicationStates.StepKeepsInv | Core/Models/ApplicationState.cs:54-142 | every event keeps both invariants: unsaved changes imply an open document, and a modifiable selection implies a selection |
| ApplicationStates.RunKeepsInv | Core/Models/ApplicationState.cs:54-142 | any sequence of events keeps both invariants |
| ApplicationStates.OpenedEffect | Core/Models/ApplicationState.cs:69-74 | DocumentOpened opens with no unsaved changes and records the path, even a null one; the other fields are unchanged |
| ApplicationStates.ModifiedEffect | Core/Models/ApplicationState.cs:79-85 | without an open document nothing changes; unsaved is set exactly when a document is open or already set; no other field changes |
| ApplicationStates.SavedEffect | Core/Models/ApplicationState.cs:91-98 | without an open document nothing changes; with one, unsaved is cleared and the path recorded, and nothing else changes |
| ApplicationStates.SelectionChangedEffect | Core/Models/ApplicationState.cs:129-133 | HasSelection becomes h; CanModifySelection holds exactly when both c and h hold; the invariant is kept |
| ApplicationStates.OwnFieldOnly | Core/Models/ApplicationState.cs:111-142 | OperationStarted, OperationCompleted and ToolSelected each set their own field and leave every other field as it was |
| ApplicationStates.ClosedForgets | Core/Models/ApplicationState.cs:103-106 | DocumentClosed leaves the Reset state, whatever the state before |
| ApplicationStates.DocumentEventsIdempotent | Core/Models/ApplicationState.cs:69-98 | repeating DocumentModified, DocumentSaved(p) or DocumentOpened(p) has no further effect |
| ApplicationStates.ApplicationState.Reset | Core/Models/ApplicationState.cs:54-63 | the object's properties become Initial() |
| ApplicationStates.ApplicationState.DocumentOpened | Core/Models/ApplicationState.cs:69-74 | the properties become Opened(old, path) |
| ApplicationStates.ApplicationState.DocumentModified | Core/Models/ApplicationState.cs:79-85 | the properties become Modified(old) |
| ApplicationStates.ApplicationState.DocumentSaved | Core/Models/ApplicationState.cs:91-98 | the properties become Saved(old, path) |
| ApplicationStates.ApplicationState.DocumentClosed | Core/Models/ApplicationState.cs:103-106 | the properties become the Reset state |
| ApplicationStates.ApplicationState.OperationStarted | Core/Models/ApplicationState.cs:111-114 | only IsOperationInProgress is set |
| ApplicationStates.ApplicationState.OperationCompleted | Core/Models/ApplicationState.cs:119-122 | only IsOperationInProgress is cleared |
| ApplicationStates.ApplicationState.SelectionChanged | Core/Models/ApplicationState.cs:129-133 | the properties become SelectionChangedIn(old, h, c) |
| ApplicationStates.ApplicationState.ToolSelected | Core/Models/ApplicationState.cs:139-142 | only CurrentTool changes |
| HierarchyViews.ChildRankSmaller | Views/HierarchyView.cs:197-200 | the recursion over Children terminates in a forest: a child's rank is strictly below its parent's |
| HierarchyViews.IsAncestor | Views/HierarchyView.cs:273-283 | the walk up the parent chain answers true exactly when potentialAncestor is obj or one of obj's ancestors (both directions; loop invariant over the chain) |
| HierarchyViews.Label | Views/HierarchyView.cs:203-208 | the node text is the visibility icon, a space, the lock icon (empty when unlocked), a space and the name; its length and first characters follow from the flags |
| HierarchyViews.LabelRoundTrip | Views/HierarchyView.cs:203-208 | a label determines the object's visibility, its lock state and its whole name: parsing it back returns all three |
| HierarchyViews.Tags | Views/HierarchyView.cs:195 | the keys a run of `_objectNodes[obj.Id] = node` assignments writes, one per assignment, in order |
| HierarchyViews.Apply | Views/HierarchyView.cs:195 | after a run of dictionary assignments a key is present exactly when it was before or was assigned |
| HierarchyViews.VisitTags | Views/HierarchyView.cs:185-201 | AddObjectRecursive(o) gives a node to o and to every descendant of o, and to nothing else (both directions) |
| HierarchyViews.VisitChildrenTags | Views/HierarchyView.cs:197-200 | the loop over the first n children assigns exactly the keys that the children's own recursive calls assign |
| HierarchyViews.ApplyVisit | Views/HierarchyView.cs:185-201 | the recursive add first assigns o's own node and then walks the children |
| HierarchyViews.ApplyVisitChildren | Views/HierarchyView.cs:197-200 | one more loop pass applies the next child's subtree on top of the dictionary built so far |
| HierarchyViews.VisitMirrors | Views/HierarchyView.cs:185-201 | when o is placed under its real parent, every node added for o's subtree carries its object's label and sits under that object's parent |
| HierarchyViews.SetObjectsContents | Views/HierarchyView.cs:107-124 | after SetObjects(roots), an object has an entry exactly when it lies in some root's subtree. When the roots are top-level, each entry is labelled with its object and placed under its parent |
| HierarchyViews.HierarchyView.constructor | Views/HierarchyView.cs:27-64 | the view starts with an empty object-to-node dictionary and has raised nothing |
| HierarchyViews.HierarchyView.Load | Views/HierarchyView.cs:63 | loading raises ViewLoaded once |
| HierarchyViews.HierarchyView.SetObjects | Views/HierarchyView.cs:107-124 | the dictionary is cleared, then holds the nodes the recursive adds of the roots make, in order (loop invariant) |
| HierarchyViews.HierarchyView.AddObject | Views/HierarchyView.cs:126-130 | an object whose parent has no node yet makes the dictionary lookup throw and changes nothing; otherwise its subtree is added under its parent's node |
| HierarchyViews.HierarchyView.RemoveObject | Views/HierarchyView.cs:132-139 | only obj's entry is removed. The entries of its descendants stay, and an unknown object is ignored |
| HierarchyViews.HierarchyView.UpdateObject | Views/HierarchyView.cs:141-147 | a known object's node is relabelled and keeps its place; an unknown object changes nothing |
| HierarchyViews.HierarchyView.AddObjectRecursive | Views/HierarchyView.cs:185-201 | the dictionary becomes Apply(old, Visit(o)): o's node first, then each child's subtree in Children order |
| HierarchyViews.HierarchyView.AddChildSubtrees | Views/HierarchyView.cs:197-200 | AddObjectRecursive's loop: all the children's subtrees in order (loop invariant) |
| HierarchyViews.HierarchyView.AddChildSubtree | Views/HierarchyView.cs:199 | one loop pass: the i-th child's subtree is added |
| HierarchyViews.HierarchyView.OnTreeViewAfterSelect | Views/HierarchyView.cs:210-217 | a node tagged with a scene object raises ObjectSelected for it; an untagged node raises nothing |
| HierarchyViews.HierarchyView.OnTreeViewAfterLabelEdit | Views/HierarchyView.cs:219-229 | a rename is raised exactly when the edit was not cancelled, a label was produced and the node is tagged |
| HierarchyViews.HierarchyView.OnTreeViewDragDrop | Views/HierarchyView.cs:255-271 | the reparent is requested exactly when both nodes carry objects and the target is not in the dragged object's subtree; any reparent it requests keeps every parent chain finite |
| HierarchyViews.HierarchyView.DeleteSelected | Views/HierarchyView.cs:293-300 | DeleteRequested for the selected object, nothing without one |
| HierarchyViews.HierarchyView.DuplicateSelected | Views/HierarchyView.cs:302-309 | DuplicateRequested for the selected object, nothing without one |
| HierarchyViews.HierarchyView.ToggleVisibility | Views/HierarchyView.cs:311-318 | asks for the opposite of the selected object's visibility; nothing without a selection |
| HierarchyViews.HierarchyView.ToggleLockState | Views/HierarchyView.cs:320-327 | asks for the opposite of the selected object's lock state; nothing without a selection |
| HierarchyPresenters.DeleteCalls | Presenters/HierarchyPresenter.cs:92-98 | a delete request calls RemoveObject at most once, and does so exactly when there is an object and it is not locked |
| HierarchyPresenters.LockedNeverRemoved | Presenters/HierarchyPresenter.cs:94 | a locked object is never handed to RemoveObject, whatever the request |
| HierarchyPresenters.DuplicateCalls | Presenters/HierarchyPresenter.cs:100-110 | a request without an object makes no call. With one, DuplicateObject comes first, and the duplicate is selected exactly when the service returned one. Null is never selected |
| HierarchyPresenters.MissingArgument | Presenters/HierarchyPresenter.cs:24-25 | the constructor's null checks, in order: the exception names view when the view is missing, otherwise sceneService when the service is missing, and there is none exactly when both are present |
| HierarchyPresenters.HierarchyPresenter.constructor | Presenters/HierarchyPresenter.cs:22-43 | once both arguments are present, the presenter starts with its scene service and no calls made |
| HierarchyPresenters.HierarchyPresenter.RefreshHierarchy | Presenters/HierarchyPresenter.cs:137-141 | asks the service for its roots, then shows exactly those |
| HierarchyPresenters.HierarchyPresenter.OnViewLoaded | Presenters/HierarchyPresenter.cs:45-48 | a refresh |
| HierarchyPresenters.HierarchyPresenter.OnSceneChanged | Presenters/HierarchyPresenter.cs:112-115 | a refresh |
| HierarchyPresenters.HierarchyPresenter.OnObjectSelected | Presenters/HierarchyPresenter.cs:50-53 | the selection is passed to the service as it comes, null included |
| HierarchyPresenters.HierarchyPresenter.OnObjectRenamed | Presenters/HierarchyPresenter.cs:55-62 | a null object changes and calls nothing. Otherwise the name is stored, the graph's log gains one Name notification exactly when the name differs, and the service is told once |
| HierarchyPresenters.HierarchyPresenter.OnObjectVisibilityChanged | Presenters/HierarchyPresenter.cs:64-71 | the same for IsVisible: the flag is stored, one IsVisible notification exactly when it differs, the service told once |
| HierarchyPresenters.HierarchyPresenter.OnObjectLockStateChanged | Presenters/HierarchyPresenter.cs:73-80 | the same for IsLocked: the flag is stored, one IsLocked notification exactly when it differs, the service told once |
| HierarchyPresenters.HierarchyPresenter.OnObjectParentChanged | Presenters/HierarchyPresenter.cs:82-90 | reparents, notifies the service, then refreshes, with no ancestry check of its own. The log gains WorldMatrix then Parent exactly when the parent differs. A reparent that the view's drag-drop guard allows keeps the scene acyclic |
| HierarchyPresenters.HierarchyPresenter.OnDeleteRequested | Presenters/HierarchyPresenter.cs:92-98 | makes exactly DeleteCalls |
| HierarchyPresenters.HierarchyPresenter.OnDuplicateRequested | Presenters/HierarchyPresenter.cs:100-110 | makes exactly DuplicateCalls |
| HierarchyPresenters.HierarchyPresenter.OnSelectionChanged | Presenters/HierarchyPresenter.cs:117-120 | forwards the selection to the view |
| HierarchyPresenters.HierarchyPresenter.OnObjectAdded | Presenters/HierarchyPresenter.cs:122-125 | forwards the added object to the view |
| HierarchyPresenters.HierarchyPresenter.OnObjectRemoved | Presenters/HierarchyPresenter.cs:127-130 | forwards the removed object to the view |
| HierarchyPresenters.HierarchyPresenter.OnObjectModified | Presenters/HierarchyPresenter.cs:132-135 | forwards the modified object to the view |
| MainPresenters.MissingArgument | Presenters/MainPresenter.cs:35-37 | the constructor's null checks, in order: the exception names the first missing argument, and there is none exactly when all three are present |
| MainPresenters.PromptWithoutChanges | Presenters/MainPresenter.cs:182-194 | without unsaved changes the prompt lets the caller go on, shows nothing and changes nothing |
| MainPresenters.PromptWithChanges | Presenters/MainPresenter.cs:184-193 | with unsaved changes the dialog is shown. Cancel stops the caller; any answer other than Yes or Cancel lets it go on with the state untouched; Yes lets it go on exactly when saving cleared the unsaved flag |
| MainPresenters.PromptYesSucceedsIff | Presenters/MainPresenter.cs:187-191 | answering Yes goes on exactly when a path is known (the current one, or one chosen in the save dialog) and saving does not throw (both directions) |
| MainPresenters.SaveWithoutPath | Presenters/MainPresenter.cs:100-119 | Save without a current path is Save As. Save As whose dialog answers null or empty shows the dialog and does nothing else |
| MainPresenters.FailureOnlyShowsError | Presenters/MainPresenter.cs:86-95 | a save or open that throws leaves the state as it was before the file operation; a failed save ends by showing "Failed to save file: " with the message |
| MainPresenters.NewOpensUntitled | Presenters/MainPresenter.cs:69-77 | a New that goes ahead leaves an open document with no unsaved changes and a null path |
| MainPresenters.OpenEffect | Presenters/MainPresenter.cs:79-98 | an empty dialog answer changes nothing beyond what the prompt did; a successful open records the chosen path with no unsaved changes |
| MainPresenters.DocumentFlowKeepsInv | Presenters/MainPresenter.cs:69-133 | the prompt, New, Open and Save all keep the application-state invariants |
| MainPresenters.MainPresenter.constructor | Presenters/MainPresenter.cs:30-38 | the presenter starts with a fresh application state in its Reset state and no calls made |
| MainPresenters.MainPresenter.UpdateViewState | Presenters/MainPresenter.cs:176-180 | shows the title from the current path, then the whole state |
| MainPresenters.MainPresenter.OnViewLoaded | Presenters/MainPresenter.cs:63-67 | one view-state update |
| MainPresenters.MainPresenter.SaveDocument | Presenters/MainPresenter.cs:121-133 | state and calls follow SaveDocumentOutcome: a successful save is recorded and shown, a failure only shows the error |
| MainPresenters.MainPresenter.OnSaveAsRequested | Presenters/MainPresenter.cs:112-119 | state and calls follow SaveAsOutcome |
| MainPresenters.MainPresenter.OnSaveRequested | Presenters/MainPresenter.cs:100-110 | state and calls follow SaveOutcome |
| MainPresenters.MainPresenter.PromptSaveChanges | Presenters/MainPresenter.cs:182-195 | the answer, state and calls follow PromptOutcome |
| MainPresenters.MainPresenter.OnNewFileRequested | Presenters/MainPresenter.cs:69-77 | state and calls follow NewOutcome |
| MainPresenters.MainPresenter.OnOpenFileRequested | Presenters/MainPresenter.cs:79-98 | state and calls follow OpenOutcome |
| MainPresenters.MainPresenter.OnObjectSelected | Presenters/MainPresenter.cs:135-138 | the selection is passed to the scene service |
| MainPresenters.MainPresenter.OnCameraMoved | Presenters/MainPresenter.cs:140-143 | the camera update is passed to the viewport presenter |
| MainPresenters.MainPresenter.OnToolSelected | Presenters/MainPresenter.cs:145-150 | the tool is recorded, passed to the viewport, and the view updated |
| MainPresenters.MainPresenter.OnSceneChanged | Presenters/MainPresenter.cs:152-156 | a scene change marks unsaved changes only when a document is open, then updates the view |
| MainPresenters.MainPresenter.OnSelectionChanged | Presenters/MainPresenter.cs:158-162 | the selection flags are recorded (modifiable only with a selection), then the view is updated |
| MainPresenters.MainPresenter.OnOperationStarted | Presenters/MainPresenter.cs:164-168 | the operation flag is set, then the view is updated |
| MainPresenters.MainPresenter.OnOperationCompleted | Presenters/MainPresenter.cs:170-174 | the operation flag is cleared, then the view is updated |
| Toolstrip.ToggleIffGrouped | TestEditorFromClaude/MainForm/Toolstrip/ToolstripManager.cs:129-187 | a tool is a toggle tool exactly when it belongs to a group (Transform, Creation or ViewMode) |
| Toolstrip.CreateToolButton | TestEditorFromClaude/MainForm/Toolstrip/ToolstripManager.cs:103-127 | the button carries its tool, is enabled, checks on click exactly for toggle tools, and starts checked exactly when it is a default |
| Toolstrip.PositionOf | TestEditorFromClaude/MainForm/Toolstrip/ToolstripManager.cs:33-91 | every tool has a button in the 22-item strip at the position CreateTools gives it |
| Toolstrip.ToolsHaveOneButton | TestEditorFromClaude/MainForm/Toolstrip/ToolstripManager.cs:33-91 | the only item holding a tool is that tool's position; the rest are other tools or the five separators |
| Toolstrip.InitialItems | TestEditorFromClaude/MainForm/Toolstrip/ToolstripManager.cs:33-101 | CreateTools' 22 items, in order: six groups of buttons separated by separators |
| Toolstrip.InitialStrip | TestEditorFromClaude/MainForm/Toolstrip/ToolstripManager.cs:13-18 | the constructed strip is well-formed: the current tool is a button |
| Toolstrip.InitialChecked | TestEditorFromClaude/MainForm/Toolstrip/ToolstripManager.cs:120-124 | initially every button is enabled and exactly Select and Solid are checked. Solid, the last default created, is the current tool |
| Toolstrip.Activate | TestEditorFromClaude/MainForm/Toolstrip/ToolstripManager.cs:158-169 | SetActiveTool keeps the strip well-formed and its length unchanged |
| Toolstrip.ActivateEffect | TestEditorFromClaude/MainForm/Toolstrip/ToolstripManager.cs:158-176 | after SetActiveTool(n), n is checked and current. The previous current button is unchecked exactly when it is another button of n's group, and every other item is unchanged |
| Toolstrip.Click | TestEditorFromClaude/MainForm/Toolstrip/ToolstripManager.cs:144-156 | a click on anything other than a toggle tool's button leaves the strip unchanged |
| Toolstrip.ClickToggle | TestEditorFromClaude/MainForm/Toolstrip/ToolstripManager.cs:144-169 | a click on a toggle tool checks it and makes it current; no other item changes unless it is the current button of the same group |
| Toolstrip.ScenarioStart | TestEditorFromClaude/MainForm/Toolstrip/ToolstripManager.cs:33-91 | the start of the Move/Wireframe/Rotate run: Select and Solid checked, Solid current |
| Toolstrip.ScenarioMove | TestEditorFromClaude/MainForm/Toolstrip/ToolstripManager.cs:158-169 | clicking Move while Solid is current leaves Select checked |
| Toolstrip.ScenarioWireframe | TestEditorFromClaude/MainForm/Toolstrip/ToolstripManager.cs:158-169 | clicking Wireframe while Move is current leaves Solid checked |
| Toolstrip.ScenarioRotate | TestEditorFromClaude/MainForm/Toolstrip/ToolstripManager.cs:158-169 | clicking Rotate while Wireframe is current leaves Move checked |
| Toolstrip.MoveWireframeRotate | TestEditorFromClaude/MainForm/Toolstrip/ToolstripManager.cs:158-169 | exclusion is only against the single current tool. After Move, Wireframe, Rotate, all three of Select, Move and Rotate are checked, and so are Wireframe and Solid |
| Toolstrip.FindTool | TestEditorFromClaude/MainForm/Toolstrip/ToolstripManager.cs:196-203 | the position of the first button tagged with the tool, or the item count when there is none |
| Toolstrip.WithEnabled | TestEditorFromClaude/MainForm/Toolstrip/ToolstripManager.cs:194-204 | only the first button tagged with the tool changes, and only its Enabled flag |
| Toolstrip.WithChecked | TestEditorFromClaude/MainForm/Toolstrip/ToolstripManager.cs:206-216 | only the first button tagged with the tool changes, and only its Checked flag |
| Toolstrip.ToolStripManager.constructor | TestEditorFromClaude/MainForm/Toolstrip/ToolstripManager.cs:13-18 | the manager holds InitialStrip and has raised nothing |
| Toolstrip.ToolStripManager.SetActiveTool | TestEditorFromClaude/MainForm/Toolstrip/ToolstripManager.cs:158-169 | the strip becomes Activate(old, n) |
| Toolstrip.ToolStripManager.OnToolButtonClick | TestEditorFromClaude/MainForm/Toolstrip/ToolstripManager.cs:144-156 | the strip becomes Click(old, n). ToolSelected is raised for every button clicked, toggle or not, and for nothing else |
| Toolstrip.ToolStripManager.EnableTool | TestEditorFromClaude/MainForm/Toolstrip/ToolstripManager.cs:194-204 | the items become WithEnabled(old, tool, enabled): the scan stops at the first match (loop invariant) |
| Toolstrip.ToolStripManager.SetToolChecked | TestEditorFromClaude/MainForm/Toolstrip/ToolstripManager.cs:206-216 | the items become WithChecked(old, tool, isChecked) |
| LibraryPanels.CategoryList | TestEditorFromClaude/MainForm/Library/LibraryPanel.cs:112-173 | each category's list holds one primitive per type of that category, in the order InitializePrimitives adds them |
| LibraryPanels.Catalogue | TestEditorFromClaude/MainForm/Library/LibraryPanel.cs:112-180 | the dictionary maps every category to its list |
| LibraryPanels.CategoryIndex | TestEditorFromClaude/MainForm/Library/LibraryPanel.cs:366-374 | every category sits in the declaration-order list of categories |
| LibraryPanels.EveryCategoryListed | TestEditorFromClaude/MainForm/Library/LibraryPanel.cs:366-374 | the enum-order list names every category |
| LibraryPanels.ValuesInCategoryOrder | TestEditorFromClaude/MainForm/Library/LibraryPanel.cs:310-313 | enumerating a full dictionary in category order concatenates the six lists in that order |
| LibraryPanels.CatalogueSizes | TestEditorFromClaude/MainForm/Library/LibraryPanel.cs:112-180 | the lists hold 7, 5, 4, 4, 5 and 4 primitives, 29 in all; "All" lists them category by category |
| LibraryPanels.DisplayName | TestEditorFromClaude/MainForm/Library/LibraryPanel.cs:327-339 | no display name is empty or "All" |
| LibraryPanels.DisplayNamesDistinct | TestEditorFromClaude/MainForm/Library/LibraryPanel.cs:327-339 | two categories share a display name exactly when they are the same category |
| LibraryPanels.ComboItems | TestEditorFromClaude/MainForm/Library/LibraryPanel.cs:67-71 | the combo box holds "All" and then every display name in enum order |
| LibraryPanels.FirstNamed | TestEditorFromClaude/MainForm/Library/LibraryPanel.cs:286-291 | the category found carries the name asked for; none is found exactly when no category carries it |
| LibraryPanels.FindCategory | TestEditorFromClaude/MainForm/Library/LibraryPanel.cs:286-291 | the lookup loop returns FirstNamed(cats, name) (loop invariant) |
| LibraryPanels.NameLookupRoundTrip | TestEditorFromClaude/MainForm/Library/LibraryPanel.cs:286-291 | looking a category up by its own display name finds that category |
| LibraryPanels.SelectedCategoryByIndex | TestEditorFromClaude/MainForm/Library/LibraryPanel.cs:280-292 | combo index 0 means "All"; index i > 0 selects the (i-1)-th category |
| LibraryPanels.IndexOfItem | TestEditorFromClaude/MainForm/Library/LibraryPanel.cs:353 | the first index holding the item, or -1 exactly when no item equals it |
| LibraryPanels.ComboIndexOfCategory | TestEditorFromClaude/MainForm/Library/LibraryPanel.cs:350-354 | selecting by display name lands on an index after "All" that selects that category |
| LibraryPanels.SearchTextOf | TestEditorFromClaude/MainForm/Library/LibraryPanel.cs:294-297 | the search is empty exactly for the placeholder or an empty box; otherwise it is the box's text |
| LibraryPanels.Fold | TestEditorFromClaude/MainForm/Library/LibraryPanel.cs:319-320 | folding never yields a lower-case ASCII letter and leaves every other character alone |
| LibraryPanels.IndexFrom | TestEditorFromClaude/MainForm/Library/LibraryPanel.cs:319-320 | the result is the first case-insensitive match at or after the start, and -1 exactly when there is none |
| LibraryPanels.IndexOfFinds | TestEditorFromClaude/MainForm/Library/LibraryPanel.cs:319-320 | IndexOf is non-negative exactly when the text contains the pattern, ignoring case |
| LibraryPanels.KeepsIff | TestEditorFromClaude/MainForm/Library/LibraryPanel.cs:318-321 | a primitive is kept exactly when its name or description contains the search text, ignoring case |
| LibraryPanels.Where | TestEditorFromClaude/MainForm/Library/LibraryPanel.cs:318-321 | the filtered list is no longer than its input and holds only kept items of it |
| LibraryPanels.WhereIsSubsequence | TestEditorFromClaude/MainForm/Library/LibraryPanel.cs:318-321 | filtering keeps the original order: the result is a subsequence of the input |
| LibraryPanels.WhereIff | TestEditorFromClaude/MainForm/Library/LibraryPanel.cs:318-321 | an item is in the result exactly when it is in the input and kept |
| LibraryPanels.WhereIdempotent | TestEditorFromClaude/MainForm/Library/LibraryPanel.cs:318-321 | filtering twice with the same text is filtering once |
| LibraryPanels.EmptySearchShowsCategory | TestEditorFromClaude/MainForm/Library/LibraryPanel.cs:299-325 | with the placeholder or an empty box, "All" shows all 29 primitives and any other index shows its category's list |
| LibraryPanels.LibraryPanel.constructor | TestEditorFromClaude/MainForm/Library/LibraryPanel.cs:20-29 | the panel starts on "All", with the placeholder in the box, the full catalogue in the dictionary and buttons matching both, so coherent |
| LibraryPanels.LibraryPanel.InitializeComponent | TestEditorFromClaude/MainForm/Library/LibraryPanel.cs:31-73 | the box holds the placeholder, the combo box its items with "All" selected, and the flow panel is empty |
| LibraryPanels.LibraryPanel.Put | TestEditorFromClaude/MainForm/Library/LibraryPanel.cs:174-179 | the dictionary indexer stores the list; a new key goes to the end of the enumeration order |
| LibraryPanels.LibraryPanel.InitializePrimitives | TestEditorFromClaude/MainForm/Library/LibraryPanel.cs:112-180 | the dictionary becomes the catalogue, its keys in category order |
| LibraryPanels.LibraryPanel.CreateCategoryCombo | TestEditorFromClaude/MainForm/Library/LibraryPanel.cs:54-73 | the combo box holds ComboItems() and selects "All" (loop invariant) |
| LibraryPanels.LibraryPanel.GetSelectedCategory | TestEditorFromClaude/MainForm/Library/LibraryPanel.cs:280-292 | returns the category the selected item stands for, none for "All" |
| LibraryPanels.LibraryPanel.GetFilteredPrimitives | TestEditorFromClaude/MainForm/Library/LibraryPanel.cs:299-325 | returns the category's list, or every list in enumeration order, filtered by a non-empty search text (loop invariant) |
| LibraryPanels.LibraryPanel.PopulatePrimitives | TestEditorFromClaude/MainForm/Library/LibraryPanel.cs:182-196 | the buttons become exactly the primitives for the current selection and search text |
| LibraryPanels.LibraryPanel.RefreshPrimitives | TestEditorFromClaude/MainForm/Library/LibraryPanel.cs:345-348 | the buttons are brought up to date |
| LibraryPanels.LibraryPanel.OnSearchTextChanged | TestEditorFromClaude/MainForm/Library/LibraryPanel.cs:242-248 | repopulates unless the box holds the placeholder, in which case the buttons stay as they were |
| LibraryPanels.LibraryPanel.SetSearchText | TestEditorFromClaude/MainForm/Library/LibraryPanel.cs:242-248 | the text changes and the change handler runs only when the new text differs |
| LibraryPanels.LibraryPanel.UserTypes | TestEditorFromClaude/MainForm/Library/LibraryPanel.cs:242-248 | from any coherent panel: after typing any text other than the placeholder the buttons match it; typing the placeholder leaves the buttons as they were. The panel stays coherent |
| LibraryPanels.LibraryPanel.OnSearchBoxEnter | TestEditorFromClaude/MainForm/Library/LibraryPanel.cs:250-257 | from any coherent panel, stale buttons included: the placeholder gives way to an empty box, and afterwards the buttons match the selection and the search |
| LibraryPanels.LibraryPanel.OnSearchBoxLeave | TestEditorFromClaude/MainForm/Library/LibraryPanel.cs:259-266 | an empty box gets the placeholder back. The buttons do not change; they stay up to date if they were, because both texts mean an empty search |
| LibraryPanels.LibraryPanel.SetSelectedIndex | TestEditorFromClaude/MainForm/Library/LibraryPanel.cs:229-240 | the selection changes, and the buttons are repopulated only when the index differs |
| LibraryPanels.LibraryPanel.OnCategoryChanged | TestEditorFromClaude/MainForm/Library/LibraryPanel.cs:237-240 | the buttons are brought up to date |
| LibraryPanels.LibraryPanel.SelectCategory | TestEditorFromClaude/MainForm/Library/LibraryPanel.cs:350-354 | from any coherent panel: afterwards the selected item stands for the category; the buttons match it whenever the index changed or they already matched |
| LibraryPanels.LibraryPanel.ClearSearch | TestEditorFromClaude/MainForm/Library/LibraryPanel.cs:356-360 | the box is empty and the buttons show the selected category's list unfiltered |
| LibraryPanels.LibraryPanel.OnPrimitiveButtonClick | TestEditorFromClaude/MainForm/Library/LibraryPanel.cs:268-274 | a click raises PrimitiveSelected exactly for a shown button, carrying that button's primitive |
| HierarchyPanels.DescendantsBelow | TestEditorFromClaude/MainForm/Hierarchy/HierarchyPanel.cs:325-332 | everything below a node lies on a lower level, so the recursive cascade ends and never revisits the node it started from |
| HierarchyPanels.ListedInSubtrees | TestEditorFromClaude/MainForm/Hierarchy/HierarchyPanel.cs:325-332 | the cascade over a list of children reaches each child and everything below it |
| HierarchyPanels.ObjectNodesAreLeaves | TestEditorFromClaude/MainForm/Hierarchy/HierarchyPanel.cs:261-276 | object nodes never get children, so checking one cascades to nothing |
| HierarchyPanels.SceneCoversMeshes | TestEditorFromClaude/MainForm/Hierarchy/HierarchyPanel.cs:325-332 | checking the Scene cascades to the four categories and to every object filed under Meshes |
| HierarchyPanels.AddedWellFormed | TestEditorFromClaude/MainForm/Hierarchy/HierarchyPanel.cs:261-276 | adding an object node under Meshes keeps the tree well formed, with the object mapped to the new node |
| HierarchyPanels.DetachedUnlisted | TestEditorFromClaude/MainForm/Hierarchy/HierarchyPanel.cs:278-285 | after Remove no node lists the removed one among its children |
| HierarchyPanels.DetachedWellFormed | TestEditorFromClaude/MainForm/Hierarchy/HierarchyPanel.cs:278-285 | removing an object node keeps the tree well formed and leaves the Scene's children alone |
| HierarchyPanels.RelabelledWellFormed | TestEditorFromClaude/MainForm/Hierarchy/HierarchyPanel.cs:296-304 | a node's new text leaves the tree's shape well formed |
| HierarchyPanels.InitialTree | TestEditorFromClaude/MainForm/Hierarchy/HierarchyPanel.cs:108-126 | the initial tree is well formed with an empty object map, and the Scene has exactly the four categories below it |
| HierarchyPanels.EmptyCategories | TestEditorFromClaude/MainForm/Hierarchy/HierarchyPanel.cs:108-126 | while the four categories are empty, the Scene has exactly them below it |
| HierarchyPanels.FirstToken | TestEditorFromClaude/MainForm/Hierarchy/HierarchyPanel.cs:301 | Split(' ')[0] is a space-free prefix of the text that stops at the first space or at the end |
| HierarchyPanels.FirstTokenOfLabel | TestEditorFromClaude/MainForm/Hierarchy/HierarchyPanel.cs:301 | the first token of an "emoji name" label is the emoji, when the emoji has no space in it |
| HierarchyPanels.RenameKeepsEmoji | TestEditorFromClaude/MainForm/Hierarchy/HierarchyPanel.cs:296-304 | renaming keeps the emoji prefix and only the last name counts; renaming twice to one name is renaming once |
| HierarchyPanels.RenameAddedLabel | TestEditorFromClaude/MainForm/Hierarchy/HierarchyPanel.cs:261-304 | renaming a node AddObject labelled gives the same emoji followed by the new name |
| HierarchyPanels.AllWhiteSpace | TestEditorFromClaude/MainForm/Hierarchy/HierarchyPanel.cs:213 | true exactly when every character is white space |
| HierarchyPanels.LabelEditCancelled | TestEditorFromClaude/MainForm/Hierarchy/HierarchyPanel.cs:211-221 | the edit is cancelled exactly when the label is null, empty or only white space |
| HierarchyPanels.FocusRoundTrip | TestEditorFromClaude/MainForm/Hierarchy/HierarchyPanel.cs:231-247 | entering and leaving the box without typing restores what it showed, and typed text survives both |
| HierarchyPanels.SetFlags | TestEditorFromClaude/MainForm/Hierarchy/HierarchyPanel.cs:325-332 | the given nodes take the flag and every other node keeps its own |
| HierarchyPanels.SetFlagsUnion | TestEditorFromClaude/MainForm/Hierarchy/HierarchyPanel.cs:327-331 | flagging three sets in turn is flagging their union |
| HierarchyPanels.SelectedTarget | TestEditorFromClaude/MainForm/Hierarchy/HierarchyPanel.cs:386-408 | there is a target exactly when a node is selected and tagged, and it is that node's tag |
| HierarchyPanels.MenuRequest | TestEditorFromClaude/MainForm/Hierarchy/HierarchyPanel.cs:386-408 | context menu: Delete and Duplicate raise a request for the target exactly when there is one, CreateGroup always raises one without a target, Rename raises none |
| HierarchyPanels.ToolbarRequest | TestEditorFromClaude/MainForm/Hierarchy/HierarchyPanel.cs:359-376 | toolbar: ExpandAll, CollapseAll, Duplicate and Rename raise nothing |
| HierarchyPanels.ToolbarAgreesWithMenu | TestEditorFromClaude/MainForm/Hierarchy/HierarchyPanel.cs:359-408 | the toolbar raises what the menu raises for every action except Duplicate, which its switch ignores |
| HierarchyPanels.HierarchyPanel.constructor | TestEditorFromClaude/MainForm/Hierarchy/HierarchyPanel.cs:17-25 | the panel starts with the initial tree, only the Scene checked, nothing mapped or selected, and the placeholder in the box |
| HierarchyPanels.HierarchyPanel.InitializeComponent | TestEditorFromClaude/MainForm/Hierarchy/HierarchyPanel.cs:27-49 | the search box holds the placeholder and the tree is the initial one |
| HierarchyPanels.HierarchyPanel.InitializeSceneHierarchy | TestEditorFromClaude/MainForm/Hierarchy/HierarchyPanel.cs:108-126 | the tree is the Scene with its four categories, only the Scene checked |
| HierarchyPanels.HierarchyPanel.FindAppropriateParent | TestEditorFromClaude/MainForm/Hierarchy/HierarchyPanel.cs:318-323 | the Scene's first child is the Meshes node |
| HierarchyPanels.HierarchyPanel.AddObject | TestEditorFromClaude/MainForm/Hierarchy/HierarchyPanel.cs:261-276 | a new checked node tagged with the object and labelled "emoji name" is appended under Meshes, and the map sends the object to it. A node the object was mapped to before stays in the tree |
| HierarchyPanels.HierarchyPanel.RemoveObject | TestEditorFromClaude/MainForm/Hierarchy/HierarchyPanel.cs:278-285 | a mapped object's node leaves its parent and the map loses the object; an unknown object changes nothing |
| HierarchyPanels.HierarchyPanel.SetSelectedNode | TestEditorFromClaude/MainForm/Hierarchy/HierarchyPanel.cs:168-177 | assigning SelectedNode selects the node; AfterSelect runs only when the selection changes, and then a tagged node's tag becomes the whole selection and is raised |
| HierarchyPanels.HierarchyPanel.SelectObject | TestEditorFromClaude/MainForm/Hierarchy/HierarchyPanel.cs:287-294 | a mapped object's node becomes the selected node, otherwise the selection stays. When the node changes and is tagged, its tag becomes the whole selection and SelectionChanged carries it; otherwise nothing is raised |
| HierarchyPanels.HierarchyPanel.UpdateObjectName | TestEditorFromClaude/MainForm/Hierarchy/HierarchyPanel.cs:296-304 | a mapped object's node text becomes Renamed(old text, new name); nothing else changes |
| HierarchyPanels.HierarchyPanel.SetObjectVisibility | TestEditorFromClaude/MainForm/Hierarchy/HierarchyPanel.cs:306-312 | a mapped object's node takes the flag and nothing else changes. The cascade AfterCheck would run is not applied here |
| HierarchyPanels.HierarchyPanel.UpdateChildNodesCheckState | TestEditorFromClaude/MainForm/Hierarchy/HierarchyPanel.cs:325-332 | every node below the given one takes the flag; that node and every other node keep theirs (loop invariant over the children, recursion down the levels) |
| HierarchyPanels.HierarchyPanel.OnTreeAfterSelect | TestEditorFromClaude/MainForm/Hierarchy/HierarchyPanel.cs:168-177 | selecting a tagged node makes its tag the whole selection, and SelectionChanged carries that selection; an untagged node changes nothing and raises nothing |
| HierarchyPanels.HierarchyPanel.OnTreeAfterCheck | TestEditorFromClaude/MainForm/Hierarchy/HierarchyPanel.cs:179-189 | a tagged node's new flag cascades to everything below it; an untagged category cascades nothing |
| HierarchyPanels.HierarchyPanel.OnTreeNodeMouseClick | TestEditorFromClaude/MainForm/Hierarchy/HierarchyPanel.cs:191-198 | a right click selects the node clicked, and raises SelectionChanged with its tag when that changes the selection to a tagged node; other buttons change nothing |
| HierarchyPanels.HierarchyPanel.StartRename | TestEditorFromClaude/MainForm/Hierarchy/HierarchyPanel.cs:378-384 | an edit begins on the selected node, and only if one is selected |
| HierarchyPanels.HierarchyPanel.OnSearchBoxEnter | TestEditorFromClaude/MainForm/Hierarchy/HierarchyPanel.cs:231-238 | the placeholder gives way to an empty box |
| HierarchyPanels.HierarchyPanel.OnSearchBoxLeave | TestEditorFromClaude/MainForm/Hierarchy/HierarchyPanel.cs:240-247 | an empty box shows the placeholder again |
| HierarchyPanels.HierarchyPanel.OnSearchTextChanged | TestEditorFromClaude/MainForm/Hierarchy/HierarchyPanel.cs:223-229 | filtering runs exactly when the box does not show the placeholder |
| HierarchyPanels.HierarchyPanel.DuplicateSelected | TestEditorFromClaude/MainForm/Hierarchy/HierarchyPanel.cs:386-393 | raises MenuRequest(Duplicate, selected target) |
| HierarchyPanels.HierarchyPanel.CreateGroup | TestEditorFromClaude/MainForm/Hierarchy/HierarchyPanel.cs:395-399 | raises a CreateGroup without a target |
| HierarchyPanels.HierarchyPanel.DeleteSelected | TestEditorFromClaude/MainForm/Hierarchy/HierarchyPanel.cs:401-408 | raises MenuRequest(Delete, selected target) |
| HierarchyPanels.HierarchyPanel.HandleHierarchyAction | TestEditorFromClaude/MainForm/Hierarchy/HierarchyPanel.cs:359-376 | raises ToolbarRequest(action, selected target) |
| HierarchyPanels.Without | TestEditorFromClaude/MainForm/Hierarchy/HierarchyPanel.cs:282 | the list keeps exactly the other items; removing an item that is not listed changes nothing |
| Layout.ClampBounds | TestEditorFromClaude/MainForm/LayoutManager.cs:108-141 | the Max(min1, Min(preferred, extent - min2)) pattern always gives at least min1. When the extent has room for both minimums it gives at most extent - min2, and it is the preferred distance exactly when that lies between the two. The splitter width is not part of the bound |
| Layout.InitialDistances | TestEditorFromClaude/MainForm/LayoutManager.cs:107-115 | every initial distance is at least its container's first-panel minimum (100, 50, 100) |
| Layout.EightyPercent | TestEditorFromClaude/MainForm/LayoutManager.cs:141 | the truncated 80 % of a width: 5r <= 4w < 5r + 5 |
| Layout.UpdatedDistances | TestEditorFromClaude/MainForm/LayoutManager.cs:134-141 | every recomputed distance is at least its container's first-panel minimum |
| Layout.InitialDistancesFit | TestEditorFromClaude/MainForm/LayoutManager.cs:107-115 | each initial distance lies between min1 and extent - min2 whenever the container has room for both minimums; the splitter width is not counted |
| Layout.UpdatedDistancesFit | TestEditorFromClaude/MainForm/LayoutManager.cs:134-141 | each recomputed distance lies between min1 and extent - min2 whenever the container has room for both minimums; the splitter width is not counted |
| Layout.InitialMainIs300 | TestEditorFromClaude/MainForm/LayoutManager.cs:108-109 | the computed initial main distance is exactly 300 whenever the main container is at least 400 wide |
| Layout.InitialMainCrowdsSplitter | TestEditorFromClaude/MainForm/LayoutManager.cs:108-109 | counting the 5-pixel splitter, a main container between 200 and 404 wide leaves the viewport less than its 100-pixel minimum, because the cap is extent - min2 |
| Layout.LeftSplitEven | TestEditorFromClaude/MainForm/LayoutManager.cs:111-138 | the left column is split evenly, initially and on resize, whenever it is at least 100 high |
| Layout.UpdatedProportions | TestEditorFromClaude/MainForm/LayoutManager.cs:134-141 | on resize the left column gets a quarter of a main width of at least 400, and the viewport 80 % of a right width of at least 500 |
| Layout.Assignments | TestEditorFromClaude/MainForm/LayoutManager.cs:143-150 | a splitter is assigned exactly when its distance differs from the computed one |
| Layout.UpdateIdempotent | TestEditorFromClaude/MainForm/LayoutManager.cs:127-156 | a second resize at the same size assigns nothing, and a resize assigns nothing exactly when every distance is already the computed one |
| Layout.LayoutManager.constructor | TestEditorFromClaude/MainForm/LayoutManager.cs:20-64 | the containers start at the distances WinForms gives them, with no resize handler |
| Layout.LayoutManager.InitializeLayout | TestEditorFromClaude/MainForm/LayoutManager.cs:103-125 | with no width nothing happens; otherwise the distances become InitialDistances and one more resize handler is subscribed |
| Layout.LayoutManager.UpdateSplitterDistances | TestEditorFromClaude/MainForm/LayoutManager.cs:127-156 | at or below 200 wide nothing changes; otherwise the distances become UpdatedDistances, and the splitters assigned are exactly those whose distance changed, in order |
| StatusStrip.Progress | TestEditorFromClaude/MainForm/Status/StatusStripManager.cs:98-109 | an in-range percentage becomes the value and shows the bar exactly while strictly between 0 and 100; anything else hides the bar and keeps its value |
| StatusStrip.ProgressKeepsSound | TestEditorFromClaude/MainForm/Status/StatusStripManager.cs:98-109 | the bar starts sound and stays sound: its value stays within 0..100 and it is visible only strictly between them |
| StatusStrip.OutOfRangeKeepsValue | TestEditorFromClaude/MainForm/Status/StatusStripManager.cs:98-109 | a rejected percentage leaves the last accepted value and hides the bar |
| StatusStrip.ProgressIdempotent | TestEditorFromClaude/MainForm/Status/StatusStripManager.cs:98-109 | reporting the same percentage twice changes nothing the second time |
| StatusStrip.VisibleIffUnderWay | TestEditorFromClaude/MainForm/Status/StatusStripManager.cs:98-109 | the bar is shown exactly when the last percentage was strictly between 0 and 100 |
| StatusStrip.StatusStripManager.constructor | TestEditorFromClaude/MainForm/Status/StatusStripManager.cs:21-86 | the labels read "Ready", "X: 0, Y: 0, Z: 0", "Nothing selected" and "Select", and the bar is hidden at 0 |
| StatusStrip.StatusStripManager.UpdateStatus | TestEditorFromClaude/MainForm/Status/StatusStripManager.cs:93-96 | the status label shows the message; nothing else changes |
| StatusStrip.StatusStripManager.SetProgress | TestEditorFromClaude/MainForm/Status/StatusStripManager.cs:98-109 | the bar becomes Progress(old bar, percentage) and stays sound |
| StatusStrip.StatusStripManager.UpdateSelection | TestEditorFromClaude/MainForm/Status/StatusStripManager.cs:116-119 | the selection label shows the text; nothing else changes |
| StatusStrip.StatusStripManager.UpdateMode | TestEditorFromClaude/MainForm/Status/StatusStripManager.cs:121-124 | the mode label shows the mode; nothing else changes |

## Left out

- Floating point. `Vector3` and `Quaternion` are single-precision bit patterns compared as C# compares floats. No arithmetic is modelled, so neither is `WorldMatrix`, which multiplies matrices up the parent chain.
- `Guid.NewGuid()`: a new object's identifier is an input that is not yet in the scene.
- Event subscribers. Raising `PropertyChanged`, `SelectionChanged`, `ActionRequested`, `PrimitiveSelected` or `ToolSelected` is recorded or returned. Handlers are assumed not to re-enter or mutate the sender.
- WinForms re-entrancy:
  - setting `Checked` from code raises `AfterCheck` again;
  - setting a text box's `Text` raises `TextChanged`, which is modelled only where the source relies on it (the library panel's search box).
- The tool strip's `CheckOnClick` toggle, which WinForms applies before `Click`. Every toggle-tool click then assigns `Checked = true`, so the toggle never changes the outcome and the model omits it.
- Visual state: expanding and collapsing nodes, `EnsureVisible`, `BeginEdit`, context-menu display, colours, fonts, sizes, docking, the theme and the renderers.
- HierarchyViews.Label: the length it states counts Unicode scalar values. C#'s `string.Length` counts UTF-16 code units, in which each of the three icons is two units long.
- HierarchyViews.Label and the presenters' rename: a null `Name` or `newName` is not modelled. Names are always strings.
- LibraryPanels.Fold: only ASCII `a`-`z` are folded to upper case. `StringComparison.OrdinalIgnoreCase` also folds non-ASCII letters, so for search text outside ASCII the model can keep fewer primitives than the source.
- HierarchyViews.IsAncestor: requires an acyclic scene. On a cycle that does not contain potentialAncestor, the source's walk up the parent chain never ends; the model does not cover that case.
- HierarchyViews.HierarchyView.SetObjects, HierarchyViews.HierarchyView.AddObject: require a forest. On a cyclic scene `AddObjectRecursive` recurses without end; the model does not cover that case. SceneGraph.SetParent alone can create such a cycle (SceneObjects.ReparentAcyclicIff), and the view's drag-drop guard prevents it.
- HierarchyViews.HierarchyView.OnTreeViewDragDrop: requires an acyclic scene, for the same reason as IsAncestor.
- `HierarchyView.UpdateSelection` reads `TreeView.SelectedNodes`, which the standard `TreeView` does not have. It is not part of this model.
- HierarchyPanel drag and drop: `OnTreeDragEnter` only sets the drag effect and `OnTreeDragDrop` is an empty stub. `FilterNodes` is an empty stub too; the model records only whether it would be called.
- HierarchyPanel's `OnTreeAfterLabelEdit` does not update the object's name, because that line is commented out in the source. The model does the same.
- `TreeNode.Remove` leaves a removed node in the model's arena, detached and unreachable, because node identities are never reused. `HierarchyView.RemoveObject` likewise leaves the map entries of the removed object's descendants in place, as the source does.
- Layout.FitsIn: the upper bound is extent - min2. The `SplitterWidth = 5` set at LayoutManager.cs:38, 50 and 62 is not subtracted, because the source's formulas do not subtract it. A distance the model calls fitting can therefore crowd the second panel by up to 5 pixels (Layout.InitialMainCrowdsSplitter); what WinForms then does with it is not modelled.
- Layout.ClampBounds, Layout.InitialDistancesFit, Layout.UpdatedDistancesFit: their "fits" is FitsIn's, without the splitter width.
- Layout.EightyPercent: `(int)(Width * 0.8)` is modelled as the integer part of `4 * Width / 5`. The two agree for every width below 2^50, because the double nearest 0.8 is slightly above 0.8. That agreement is argued, not proved.
- LayoutManager's try/catch: a `SplitterDistance` outside what the container accepts throws, and the handler swallows it. The model assigns the computed distance as it is.
- `LayoutManager.CreateMainLayout` docking and the `BeginInvoke` deferral: the model starts from the distances WinForms gives the containers.
- `StatusStripManager.UpdateCoordinates` formats floats and is not part of this model.
- Scene service, file service, main view and dialogs: their implementations are not part of this model. Each is an oracle as described above.
- The viewport, properties and library presenters, the menu strip, the main form, and the viewport and properties panels are not part of this model. They hold rendering, reflection and form wiring.
