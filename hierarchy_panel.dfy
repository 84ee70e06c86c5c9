/**
 * HierarchyPanel: the editor window's own scene tree.  A Scene root with
 * four category nodes (Meshes, Materials, Lights, Cameras); objects are
 * added under Meshes and mapped to their nodes; a node's check box is its
 * visibility and checking a tagged node cascades to everything below it.
 *
 * The TreeView's nodes live in an arena keyed by NodeId, each node naming
 * its parent and listing its children; a node's Checked flag is membership
 * of the set `checked`.  The objects the panel is given are identified by
 * ObjId.  Raising SelectionChanged or ActionRequested is returning what the
 * event would carry.
 */
module HierarchyPanels {
  import opened Wrappers

  type NodeId = nat
  type ObjId = nat

  /** What a node's Tag holds: the SceneRootObject of the Scene node, or an
      object handed to AddObject.  The category nodes have no tag. */
  datatype Tag = SceneRoot | Obj(obj: ObjId)

  datatype TreeNode = TreeNode(text: string, tag: Option<Tag>, parent: Option<NodeId>, children: seq<NodeId>)

  /** The nodes InitializeSceneHierarchy creates, in creation order; every
      later node is an object node. */
  const Scene: NodeId := 0
  const Meshes: NodeId := 1
  const Materials: NodeId := 2
  const Lights: NodeId := 3
  const Cameras: NodeId := 4
  const FirstObjectNode: NodeId := 5

  const DefaultEmoji: string := "📦"
  const SearchPlaceholder: string := "Search objects..."

  // ---------------------------------------------------------------------
  // The shape of the tree
  // ---------------------------------------------------------------------

  /** The depth a node can have below it: two under the Scene, one under a
      category, none under an object, since only Meshes is given children. */
  function Level(n: NodeId): nat {
    if n == Scene then 2 else if n < FirstObjectNode then 1 else 0
  }

  /** Every listed child is a node one level further down. */
  predicate Ordered(nodes: map<NodeId, TreeNode>) {
    forall n, c {:trigger c in nodes[n].children} :: n in nodes && c in nodes[n].children ==> c in nodes && Level(c) < Level(n)
  }

  /** Every listed child names its owner as parent, and every parent is a
      node. */
  predicate Linked(nodes: map<NodeId, TreeNode>) {
    (forall n, c {:trigger c in nodes[n].children} :: n in nodes && c in nodes[n].children ==> c in nodes && nodes[c].parent == Some(n)) &&
    (forall n :: n in nodes && nodes[n].parent.Some? ==> nodes[n].parent.value in nodes)
  }

  /** What the panel keeps true of its tree and its object map: a Scene
      root whose children are the four categories in order, an ordered and
      linked arena whose ids are all below nextId, and a map from each object
      to an object node tagged with it. */
  predicate WellFormed(nodes: map<NodeId, TreeNode>, nextId: nat, objectToNodeMap: map<ObjId, NodeId>) {
    Ordered(nodes) && Linked(nodes) &&
    Scene in nodes && Meshes in nodes && Materials in nodes && Lights in nodes && Cameras in nodes &&
    nodes[Scene].children == [Meshes, Materials, Lights, Cameras] &&
    FirstObjectNode <= nextId && (forall n :: n in nodes ==> n < nextId) &&
    (forall o :: o in objectToNodeMap ==>
       objectToNodeMap[o] in nodes && FirstObjectNode <= objectToNodeMap[o] &&
       nodes[objectToNodeMap[o]].tag == Some(Obj(o)))
  }

  /** The nodes below n. */
  function Descendants(nodes: map<NodeId, TreeNode>, n: NodeId): set<NodeId>
    requires Ordered(nodes) && n in nodes
    decreases Level(n), 1
  {
    Subtrees(nodes, nodes[n].children, Level(n))
  }

  /** The nodes cs and everything below them. */
  function Subtrees(nodes: map<NodeId, TreeNode>, cs: seq<NodeId>, bound: nat): set<NodeId>
    requires Ordered(nodes)
    requires forall c :: c in cs ==> c in nodes && Level(c) < bound
    decreases bound, 0, |cs|
  {
    if cs == [] then {}
    else Subtrees(nodes, cs[..|cs| - 1], bound) + {cs[|cs| - 1]} + Descendants(nodes, cs[|cs| - 1])
  }

  /** Everything below a node lies on a lower level; in particular a node
      is never among its own descendants. */
  lemma {:induction false} DescendantsBelow(nodes: map<NodeId, TreeNode>, n: NodeId)
    requires Ordered(nodes) && n in nodes
    ensures forall x :: x in Descendants(nodes, n) ==> Level(x) < Level(n)
    ensures n !in Descendants(nodes, n)
    decreases Level(n), 1
  {
    SubtreesBelow(nodes, nodes[n].children, Level(n));
  }

  lemma {:induction false} SubtreesBelow(nodes: map<NodeId, TreeNode>, cs: seq<NodeId>, bound: nat)
    requires Ordered(nodes)
    requires forall c :: c in cs ==> c in nodes && Level(c) < bound
    ensures forall x :: x in Subtrees(nodes, cs, bound) ==> Level(x) < bound
    decreases bound, 0, |cs|
  {
    if cs != [] {
      var last := cs[|cs| - 1];
      SubtreesBelow(nodes, cs[..|cs| - 1], bound);
      DescendantsBelow(nodes, last);
    }
  }

  /** One more listed node adds it and everything below it. */
  lemma SubtreesStep(nodes: map<NodeId, TreeNode>, cs: seq<NodeId>, bound: nat, i: nat)
    requires Ordered(nodes)
    requires forall c :: c in cs ==> c in nodes && Level(c) < bound
    requires i < |cs|
    ensures forall c :: c in cs[..i] ==> c in nodes && Level(c) < bound
    ensures Subtrees(nodes, cs[..i + 1], bound) == Subtrees(nodes, cs[..i], bound) + {cs[i]} + Descendants(nodes, cs[i])
  {
    assert cs[..i + 1][..i] == cs[..i];
    assert forall c :: c in cs[..i] ==> c in cs;
  }

  /** A listed node and everything below it belong to the subtrees of the
      list. */
  lemma {:induction false} ListedInSubtrees(nodes: map<NodeId, TreeNode>, cs: seq<NodeId>, bound: nat, i: nat)
    requires Ordered(nodes)
    requires forall c :: c in cs ==> c in nodes && Level(c) < bound
    requires i < |cs|
    ensures cs[i] in Subtrees(nodes, cs, bound)
    ensures Descendants(nodes, cs[i]) <= Subtrees(nodes, cs, bound)
    decreases |cs|
  {
    if i < |cs| - 1 {
      ListedInSubtrees(nodes, cs[..|cs| - 1], bound, i);
    }
  }

  /** An object node has nothing below it, so checking it cascades to
      nothing. */
  lemma ObjectNodesAreLeaves(nodes: map<NodeId, TreeNode>, n: NodeId)
    requires Ordered(nodes) && n in nodes && FirstObjectNode <= n
    ensures nodes[n].children == []
    ensures Descendants(nodes, n) == {}
  {
    HeadListed(nodes[n].children);
    if nodes[n].children != [] {
      assert false;
    }
  }

  lemma HeadListed(s: seq<NodeId>)
    ensures s != [] ==> s[0] in s
  {
  }

  /** The cascade from the Scene reaches every category and every object
      filed under Meshes. */
  lemma SceneCoversMeshes(nodes: map<NodeId, TreeNode>, nextId: nat, objectToNodeMap: map<ObjId, NodeId>, i: nat)
    requires WellFormed(nodes, nextId, objectToNodeMap) && i < |nodes[Meshes].children|
    ensures {Meshes, Materials, Lights, Cameras} <= Descendants(nodes, Scene)
    ensures nodes[Meshes].children[i] in Descendants(nodes, Scene)
  {
    var top := nodes[Scene].children;
    ListedInSubtrees(nodes, top, Level(Scene), 0);
    ListedInSubtrees(nodes, top, Level(Scene), 1);
    ListedInSubtrees(nodes, top, Level(Scene), 2);
    ListedInSubtrees(nodes, top, Level(Scene), 3);
    ListedInSubtrees(nodes, nodes[Meshes].children, Level(Meshes), i);
  }

  // ---------------------------------------------------------------------
  // Adding and removing nodes
  // ---------------------------------------------------------------------

  /** TreeNodeCollection.Add: node c, owned by p, goes to the end of p's
      children. */
  function Added(nodes: map<NodeId, TreeNode>, p: NodeId, c: NodeId, node: TreeNode): map<NodeId, TreeNode>
    requires p in nodes
  {
    nodes[c := node.(parent := Some(p))][p := nodes[p].(children := nodes[p].children + [c])]
  }

  /** TreeNode.Remove: the node leaves its parent's children and has no
      parent any more; it stays in the arena, detached. */
  function Detached(nodes: map<NodeId, TreeNode>, v: NodeId): map<NodeId, TreeNode>
    requires v in nodes && (nodes[v].parent.Some? ==> nodes[v].parent.value in nodes)
  {
    var parent := nodes[v].parent;
    var unlisted := if parent.Some? then
      nodes[parent.value := nodes[parent.value].(children := Without(nodes[parent.value].children, v))]
      else nodes;
    unlisted[v := unlisted[v].(parent := None)]
  }

  lemma AddedOrdered(nodes: map<NodeId, TreeNode>, c: NodeId, node: TreeNode)
    requires Ordered(nodes) && Meshes in nodes && c !in nodes && FirstObjectNode <= c && node.children == []
    ensures Ordered(Added(nodes, Meshes, c, node))
  {
  }

  lemma AddedLinked(nodes: map<NodeId, TreeNode>, c: NodeId, node: TreeNode)
    requires Linked(nodes) && Meshes in nodes && c !in nodes && FirstObjectNode <= c && node.children == []
    ensures Linked(Added(nodes, Meshes, c, node))
  {
  }

  /** Adding an object node under Meshes keeps the tree well formed, with
      the object mapped to it. */
  lemma AddedWellFormed(nodes: map<NodeId, TreeNode>, nextId: nat, objectToNodeMap: map<ObjId, NodeId>, obj: ObjId, node: TreeNode)
    requires WellFormed(nodes, nextId, objectToNodeMap)
    requires node.tag == Some(Obj(obj)) && node.children == []
    ensures nextId !in nodes
    ensures WellFormed(Added(nodes, Meshes, nextId, node), nextId + 1, objectToNodeMap[obj := nextId])
  {
    AddedOrdered(nodes, nextId, node);
    AddedLinked(nodes, nextId, node);
  }

  lemma DetachedOrdered(nodes: map<NodeId, TreeNode>, v: NodeId)
    requires Ordered(nodes) && Linked(nodes) && v in nodes
    ensures Ordered(Detached(nodes, v))
  {
  }

  lemma DetachedLinked(nodes: map<NodeId, TreeNode>, v: NodeId)
    requires Ordered(nodes) && Linked(nodes) && v in nodes
    ensures Linked(Detached(nodes, v))
  {
  }

  /** After Remove no node lists the removed one among its children. */
  lemma DetachedUnlisted(nodes: map<NodeId, TreeNode>, v: NodeId)
    requires Ordered(nodes) && Linked(nodes) && v in nodes
    ensures forall n :: n in Detached(nodes, v) ==> v !in Detached(nodes, v)[n].children
  {
  }

  /** Removing an object node keeps the tree well formed; the Scene's
      children are never touched. */
  lemma DetachedWellFormed(nodes: map<NodeId, TreeNode>, nextId: nat, objectToNodeMap: map<ObjId, NodeId>, v: NodeId)
    requires WellFormed(nodes, nextId, objectToNodeMap) && v in nodes && FirstObjectNode <= v
    ensures WellFormed(Detached(nodes, v), nextId, objectToNodeMap)
  {
    DetachedOrdered(nodes, v);
    DetachedLinked(nodes, v);
  }

  /** A new text changes nothing about the tree's shape. */
  lemma RelabelledWellFormed(nodes: map<NodeId, TreeNode>, nextId: nat, objectToNodeMap: map<ObjId, NodeId>, v: NodeId, text: string)
    requires WellFormed(nodes, nextId, objectToNodeMap) && v in nodes
    ensures WellFormed(nodes[v := nodes[v].(text := text)], nextId, objectToNodeMap)
  {
    RelabelledShape(nodes, v, text);
  }

  lemma RelabelledShape(nodes: map<NodeId, TreeNode>, v: NodeId, text: string)
    requires Ordered(nodes) && Linked(nodes) && v in nodes
    ensures Ordered(nodes[v := nodes[v].(text := text)]) && Linked(nodes[v := nodes[v].(text := text)])
  {
  }

  // ---------------------------------------------------------------------
  // The initial tree
  // ---------------------------------------------------------------------

  /** InitializeSceneHierarchy: the Scene node, tagged with the scene root
      object, and its four untagged categories. */
  function InitialNodes(): map<NodeId, TreeNode> {
    map[Scene := TreeNode("🌐 Scene", Some(SceneRoot), None, [Meshes, Materials, Lights, Cameras]),
        Meshes := TreeNode("🔺 Meshes", None, Some(Scene), []),
        Materials := TreeNode("🎨 Materials", None, Some(Scene), []),
        Lights := TreeNode("💡 Lights", None, Some(Scene), []),
        Cameras := TreeNode("📷 Cameras", None, Some(Scene), [])]
  }

  /** The initial tree is well formed, with an empty object map, and the
      Scene has exactly the four categories below it. */
  lemma InitialTree()
    ensures WellFormed(InitialNodes(), FirstObjectNode, map[])
    ensures Descendants(InitialNodes(), Scene) == {Meshes, Materials, Lights, Cameras}
  {
    EmptyCategories(InitialNodes());
  }

  /** A Scene whose four categories are still empty has exactly the
      categories below it. */
  lemma EmptyCategories(nodes: map<NodeId, TreeNode>)
    requires Ordered(nodes) && Scene in nodes && Meshes in nodes && Materials in nodes && Lights in nodes && Cameras in nodes
    requires nodes[Scene].children == [Meshes, Materials, Lights, Cameras]
    requires nodes[Meshes].children == [] && nodes[Materials].children == []
    requires nodes[Lights].children == [] && nodes[Cameras].children == []
    ensures Descendants(nodes, Scene) == {Meshes, Materials, Lights, Cameras}
  {
    var top := nodes[Scene].children;
    assert top[..3][..2] == top[..2];
    assert top[..2][..1] == top[..1];
    assert top[..1][..0] == [];
    assert Subtrees(nodes, top[..1], 2) == {Meshes};
    assert Subtrees(nodes, top[..2], 2) == {Meshes, Materials};
    assert Subtrees(nodes, top[..3], 2) == {Meshes, Materials, Lights};
    assert top[..4][..3] == top[..3];
  }

  // ---------------------------------------------------------------------
  // Labels
  // ---------------------------------------------------------------------

  /** The label AddObject gives a node. */
  function Label(emoji: string, displayName: string): string {
    emoji + " " + displayName
  }

  /** Split(' ')[0]: the text up to its first space, all of it when it has
      none. */
  function FirstToken(s: string): (r: string)
    ensures ' ' !in r && r <= s
    ensures |r| < |s| ==> s[|r|] == ' '
  {
    if s == [] || s[0] == ' ' then [] else [s[0]] + FirstToken(s[1..])
  }

  /** UpdateObjectName's new text: the old text's first token, then the
      new name. */
  function Renamed(text: string, newName: string): string {
    Label(FirstToken(text), newName)
  }

  /** The first token of a label is the emoji it was made with, whenever
      that emoji has no space in it. */
  lemma {:induction false} FirstTokenOfLabel(emoji: string, displayName: string)
    requires ' ' !in emoji
    ensures FirstToken(Label(emoji, displayName)) == emoji
  {
    if emoji != [] {
      assert Label(emoji, displayName)[1..] == Label(emoji[1..], displayName);
      FirstTokenOfLabel(emoji[1..], displayName);
    }
  }

  /** Renaming keeps the emoji and only the last name counts, so renaming
      twice to the same name is the same as renaming once. */
  lemma RenameKeepsEmoji(text: string, first: string, second: string)
    ensures FirstToken(Renamed(text, first)) == FirstToken(text)
    ensures Renamed(Renamed(text, first), second) == Renamed(text, second)
    ensures Renamed(Renamed(text, first), first) == Renamed(text, first)
  {
    FirstTokenOfLabel(FirstToken(text), first);
  }

  /** A node AddObject labelled with a space-free emoji is renamed to the
      same emoji and the new name. */
  lemma RenameAddedLabel(emoji: string, displayName: string, newName: string)
    requires ' ' !in emoji
    ensures Renamed(Label(emoji, displayName), newName) == Label(emoji, newName)
  {
    FirstTokenOfLabel(emoji, displayName);
  }

  // ---------------------------------------------------------------------
  // Label edits
  // ---------------------------------------------------------------------

  /** Char.IsWhiteSpace: the space and line separators and the control
      characters from tab to carriage return, NEL and no-break space. */
  predicate IsWhiteSpace(c: char) {
    c == ' ' || ('\t' <= c <= '\r') || c == '\U{0085}' || c == '\U{00A0}' || c == '\U{1680}' ||
    ('\U{2000}' <= c <= '\U{200A}') || c == '\U{2028}' || c == '\U{2029}' || c == '\U{202F}' ||
    c == '\U{205F}' || c == '\U{3000}'
  }

  /** The scan string.IsNullOrWhiteSpace makes: true up to the first
      character that is not white space. */
  function AllWhiteSpace(s: string): (r: bool)
    ensures r <==> forall i :: 0 <= i < |s| ==> IsWhiteSpace(s[i])
  {
    if s == [] then true
    else if !IsWhiteSpace(s[0]) then false
    else AllWhiteSpace(s[1..])
  }

  predicate IsNullOrWhiteSpace(newLabel: Option<string>) {
    newLabel.None? || AllWhiteSpace(newLabel.value)
  }

  /** OnTreeAfterLabelEdit: the edit is cancelled exactly when the new
      label is missing, empty or nothing but white space; otherwise it
      stands (the object's name is not updated). */
  function LabelEditCancelled(newLabel: Option<string>): (cancelEdit: bool)
    ensures newLabel.None? ==> cancelEdit
    ensures newLabel.Some? ==> (cancelEdit <==> forall i :: 0 <= i < |newLabel.value| ==> IsWhiteSpace(newLabel.value[i]))
  {
    IsNullOrWhiteSpace(newLabel)
  }

  // ---------------------------------------------------------------------
  // The search box
  // ---------------------------------------------------------------------

  /** OnSearchBoxEnter: the placeholder gives way to an empty box. */
  function EnteredText(text: string): string {
    if text == SearchPlaceholder then "" else text
  }

  /** OnSearchBoxLeave: an empty box shows the placeholder again. */
  function LeftText(text: string): string {
    if text == "" then SearchPlaceholder else text
  }

  /** Focusing and leaving the box without typing restores what it showed,
      and typed text survives both. */
  lemma FocusRoundTrip(text: string)
    ensures LeftText(EnteredText(text)) == if text == "" then SearchPlaceholder else text
    ensures text != "" && text != SearchPlaceholder ==> EnteredText(text) == text && LeftText(text) == text
    ensures EnteredText(LeftText(text)) == EnteredText(text)
  {
  }

  // ---------------------------------------------------------------------
  // Checked flags
  // ---------------------------------------------------------------------

  /** The checked nodes after giving every node of xs the flag b. */
  function SetFlags(checked: set<NodeId>, xs: set<NodeId>, b: bool): (r: set<NodeId>)
    ensures forall x :: x in xs ==> (x in r <==> b)
    ensures forall x :: x !in xs ==> (x in r <==> x in checked)
  {
    if b then checked + xs else checked - xs
  }

  /** Flagging three sets in turn is flagging their union. */
  lemma SetFlagsUnion(checked: set<NodeId>, a: set<NodeId>, b: set<NodeId>, c: set<NodeId>, flag: bool)
    ensures SetFlags(SetFlags(SetFlags(checked, a, flag), b, flag), c, flag) == SetFlags(checked, a + b + c, flag)
  {
  }

  // ---------------------------------------------------------------------
  // Actions
  // ---------------------------------------------------------------------

  datatype HierarchyAction = ExpandAll | CollapseAll | CreateGroup | Delete | Duplicate | Rename

  /** HierarchyActionEventArgs: the action and its target object. */
  datatype ActionRequest = ActionRequest(action: HierarchyAction, target: Option<Tag>)

  /** The tag of the selected node, if a node is selected and tagged. */
  function SelectedTarget(nodes: map<NodeId, TreeNode>, selectedNode: Option<NodeId>): (r: Option<Tag>)
    requires selectedNode.Some? ==> selectedNode.value in nodes
    ensures r.Some? <==> selectedNode.Some? && nodes[selectedNode.value].tag.Some?
    ensures r.Some? ==> r == nodes[selectedNode.value].tag
  {
    if selectedNode.Some? then nodes[selectedNode.value].tag else None
  }

  /** The request a context-menu item raises: a Delete or Duplicate of the
      selected node's tag when it has one, always a CreateGroup with no
      target, nothing for Rename, which only starts an edit. */
  function MenuRequest(action: HierarchyAction, target: Option<Tag>): (r: Option<ActionRequest>)
    ensures r.Some? ==> r.value.action == action
    ensures action == CreateGroup ==> r == Some(ActionRequest(CreateGroup, None))
    ensures action in {Delete, Duplicate} ==> (r.Some? <==> target.Some?)
    ensures action in {Delete, Duplicate} && r.Some? ==> r.value.target == target
    ensures action in {ExpandAll, CollapseAll, Rename} ==> r.None?
  {
    match action
    case CreateGroup => Some(ActionRequest(CreateGroup, None))
    case Delete | Duplicate => if target.Some? then Some(ActionRequest(action, target)) else None
    case _ => None
  }

  /** The request HandleHierarchyAction raises for a toolbar button: its
      switch has cases for ExpandAll, CollapseAll, CreateGroup and Delete
      only. */
  function ToolbarRequest(action: HierarchyAction, target: Option<Tag>): (r: Option<ActionRequest>)
    ensures r.Some? ==> r.value.action == action
    ensures action in {ExpandAll, CollapseAll, Duplicate, Rename} ==> r.None?
  {
    match action
    case CreateGroup => Some(ActionRequest(CreateGroup, None))
    case Delete => if target.Some? then Some(ActionRequest(Delete, target)) else None
    case _ => None
  }

  /** The toolbar raises what the context menu raises for every action but
      Duplicate, which the toolbar's switch ignores whatever is selected. */
  lemma ToolbarAgreesWithMenu(action: HierarchyAction, target: Option<Tag>)
    ensures action != Duplicate ==> ToolbarRequest(action, target) == MenuRequest(action, target)
    ensures ToolbarRequest(Duplicate, target) == None
    ensures target.Some? ==> MenuRequest(Duplicate, target) != ToolbarRequest(Duplicate, target)
  {
  }

  class HierarchyPanel {
    /** The TreeView's nodes; the Scene is its only top-level node. */
    var nodes: map<NodeId, TreeNode>
    /** The nodes whose Checked flag is set. */
    var checked: set<NodeId>
    /** The next NodeId a new TreeNode gets. */
    var nextId: nat
    var objectToNodeMap: map<ObjId, NodeId>
    var selectedObjects: seq<Tag>
    /** The TreeView's SelectedNode. */
    var selectedNode: Option<NodeId>
    /** searchBox.Text. */
    var searchText: string

    ghost predicate Valid()
      reads this
    {
      WellFormed(nodes, nextId, objectToNodeMap) &&
      (selectedNode.Some? ==> selectedNode.value in nodes)
    }

    /** The panel starts with the initial tree, only the Scene checked,
        nothing mapped or selected, and the placeholder in the search box. */
    constructor ()
      ensures Valid()
      ensures nodes == InitialNodes() && checked == {Scene} && nextId == FirstObjectNode
      ensures objectToNodeMap == map[] && selectedObjects == [] && selectedNode == None
      ensures searchText == SearchPlaceholder
    {
      objectToNodeMap := map[];
      selectedObjects := [];
      new;
      InitializeComponent();
      InitialTree();
    }

    /** InitializeComponent: CreateSearchBox, then CreateTreeView with its
        scene hierarchy. */
    method InitializeComponent()
      modifies this`searchText, this`nodes, this`checked, this`nextId, this`selectedNode
      ensures searchText == SearchPlaceholder && selectedNode == None
      ensures nodes == InitialNodes() && checked == {Scene} && nextId == FirstObjectNode
    {
      searchText := SearchPlaceholder;
      selectedNode := None;
      InitializeSceneHierarchy();
    }

    method InitializeSceneHierarchy()
      modifies this`nodes, this`checked, this`nextId
      ensures nodes == InitialNodes() && checked == {Scene} && nextId == FirstObjectNode
    {
      nodes := InitialNodes();
      checked := {Scene};
      nextId := FirstObjectNode;
    }

    /** hierarchyTree.Nodes[0].Nodes[0]: the first child of the Scene. */
    function FindAppropriateParent(obj: ObjId): (p: NodeId)
      reads this
      requires Valid()
      ensures p == Meshes
    {
      nodes[Scene].children[0]
    }

    /** AddObject: a new checked node tagged with the object and labelled
        with the emoji and the name, appended to Meshes; the object is
        mapped to it, replacing any node it was mapped to before. */
    method AddObject(obj: ObjId, displayName: string, emoji: string := DefaultEmoji)
      requires Valid()
      modifies this`nodes, this`checked, this`nextId, this`objectToNodeMap
      ensures Valid()
      ensures nextId == old(nextId) + 1 && old(nextId) !in old(nodes)
      ensures nodes == old(nodes)
        [old(nextId) := TreeNode(Label(emoji, displayName), Some(Obj(obj)), Some(Meshes), [])]
        [Meshes := old(nodes)[Meshes].(children := old(nodes)[Meshes].children + [old(nextId)])]
      ensures checked == old(checked) + {old(nextId)}
      ensures objectToNodeMap == old(objectToNodeMap)[obj := old(nextId)]
    {
      var parentNode := FindAppropriateParent(obj);
      var objectNode := nextId;
      var created := TreeNode(Label(emoji, displayName), Some(Obj(obj)), None, []);
      AddedWellFormed(nodes, nextId, objectToNodeMap, obj, created);
      nextId := nextId + 1;
      checked := checked + {objectNode};
      nodes := Added(nodes, parentNode, objectNode, created);
      objectToNodeMap := objectToNodeMap[obj := objectNode];
    }

    /** RemoveObject: a mapped object's node is removed from the tree and
        its entry from the map; an unknown object changes nothing. */
    method RemoveObject(obj: ObjId)
      requires Valid()
      modifies this`nodes, this`objectToNodeMap
      ensures Valid()
      ensures obj !in old(objectToNodeMap) ==> nodes == old(nodes) && objectToNodeMap == old(objectToNodeMap)
      ensures obj in old(objectToNodeMap) ==> objectToNodeMap == old(objectToNodeMap) - {obj}
      ensures obj in old(objectToNodeMap) ==> nodes == Detached(old(nodes), old(objectToNodeMap)[obj])
      ensures obj in old(objectToNodeMap) ==>
        var node := old(objectToNodeMap)[obj];
        node in nodes && nodes[node].parent == None && forall n :: n in nodes ==> node !in nodes[n].children
    {
      if obj in objectToNodeMap {
        var node := objectToNodeMap[obj];
        DetachedWellFormed(nodes, nextId, objectToNodeMap, node);
        DetachedUnlisted(nodes, node);
        nodes := Detached(nodes, node);
        objectToNodeMap := objectToNodeMap - {obj};
      }
    }

    /** The tree's SelectedNode setter: AfterSelect fires, and so
        OnTreeAfterSelect runs, only when the selection actually changes. */
    method SetSelectedNode(node: NodeId) returns (raised: Option<seq<Tag>>)
      requires Valid() && node in nodes
      modifies this`selectedNode, this`selectedObjects
      ensures Valid() && selectedNode == Some(node)
      ensures raised.Some? <==> old(selectedNode) != Some(node) && nodes[node].tag.Some?
      ensures raised.Some? ==> selectedObjects == [nodes[node].tag.value] && raised.value == selectedObjects
      ensures raised.None? ==> selectedObjects == old(selectedObjects)
    {
      if selectedNode != Some(node) {
        selectedNode := Some(node);
        raised := OnTreeAfterSelect(Some(node));
      } else {
        raised := None;
      }
    }

    /** SelectObject: a mapped object's node becomes the selected node; when
        that changes the selection, a tagged node's object becomes the whole
        selection and SelectionChanged carries it. */
    method SelectObject(obj: ObjId) returns (raised: Option<seq<Tag>>)
      requires Valid()
      modifies this`selectedNode, this`selectedObjects
      ensures Valid()
      ensures selectedNode == if obj in objectToNodeMap then Some(objectToNodeMap[obj]) else old(selectedNode)
      ensures raised.Some? <==>
        obj in objectToNodeMap && old(selectedNode) != Some(objectToNodeMap[obj]) &&
        nodes[objectToNodeMap[obj]].tag.Some?
      ensures raised.Some? ==>
        selectedObjects == [nodes[objectToNodeMap[obj]].tag.value] && raised.value == selectedObjects
      ensures raised.None? ==> selectedObjects == old(selectedObjects)
    {
      raised := None;
      if obj in objectToNodeMap {
        raised := SetSelectedNode(objectToNodeMap[obj]);
      }
    }

    /** UpdateObjectName: a mapped object's node keeps the first token of
        its text and takes the new name after it. */
    method UpdateObjectName(obj: ObjId, newName: string)
      requires Valid()
      modifies this`nodes
      ensures Valid()
      ensures obj !in objectToNodeMap ==> nodes == old(nodes)
      ensures obj in objectToNodeMap ==>
        var node := objectToNodeMap[obj];
        nodes == old(nodes)[node := old(nodes)[node].(text := Renamed(old(nodes)[node].text, newName))]
    {
      if obj in objectToNodeMap {
        var node := objectToNodeMap[obj];
        var emoji := FirstToken(nodes[node].text);
        RelabelledWellFormed(nodes, nextId, objectToNodeMap, node, Label(emoji, newName));
        nodes := nodes[node := nodes[node].(text := Label(emoji, newName))];
      }
    }

    /** SetObjectVisibility: a mapped object's node takes the flag. */
    method SetObjectVisibility(obj: ObjId, isVisible: bool)
      requires Valid()
      modifies this`checked
      ensures obj !in objectToNodeMap ==> checked == old(checked)
      ensures obj in objectToNodeMap ==> checked == SetFlags(old(checked), {objectToNodeMap[obj]}, isVisible)
    {
      if obj in objectToNodeMap {
        var node := objectToNodeMap[obj];
        checked := SetFlags(checked, {node}, isVisible);
      }
    }

    /** UpdateChildNodesCheckState: every node below the given one takes
        the flag, the node itself and every other node keep theirs. */
    method UpdateChildNodesCheckState(parentNode: NodeId, isChecked: bool)
      requires Ordered(nodes) && parentNode in nodes
      modifies this`checked
      ensures checked == SetFlags(old(checked), Descendants(nodes, parentNode), isChecked)
      ensures parentNode in checked <==> parentNode in old(checked)
      decreases Level(parentNode)
    {
      var children := nodes[parentNode].children;
      assert forall c :: c in children ==> c in nodes && Level(c) < Level(parentNode);
      var i := 0;
      while i < |children|
        invariant 0 <= i <= |children|
        invariant checked == SetFlags(old(checked), Subtrees(nodes, children[..i], Level(parentNode)), isChecked)
      {
        var childNode := children[i];
        checked := SetFlags(checked, {childNode}, isChecked);
        UpdateChildNodesCheckState(childNode, isChecked);
        SubtreesStep(nodes, children, Level(parentNode), i);
        SetFlagsUnion(old(checked), Subtrees(nodes, children[..i], Level(parentNode)), {childNode}, Descendants(nodes, childNode), isChecked);
        i := i + 1;
      }
      assert children[..i] == children;
      DescendantsBelow(nodes, parentNode);
    }

    /** OnTreeAfterSelect: a tagged node's tag becomes the whole selection,
        which SelectionChanged carries; an untagged node changes nothing. */
    method OnTreeAfterSelect(node: Option<NodeId>) returns (raised: Option<seq<Tag>>)
      requires Valid() && (node.Some? ==> node.value in nodes)
      modifies this`selectedObjects
      ensures raised.Some? <==> node.Some? && nodes[node.value].tag.Some?
      ensures raised.Some? ==> selectedObjects == [nodes[node.value].tag.value] && raised.value == selectedObjects
      ensures raised.None? ==> selectedObjects == old(selectedObjects)
    {
      if node.Some? && nodes[node.value].tag.Some? {
        selectedObjects := [];
        selectedObjects := selectedObjects + [nodes[node.value].tag.value];
        raised := Some(selectedObjects);
      } else {
        raised := None;
      }
    }

    /** OnTreeAfterCheck: checking or unchecking a tagged node cascades its
        flag to everything below it; an untagged category cascades nothing. */
    method OnTreeAfterCheck(node: Option<NodeId>)
      requires Valid() && (node.Some? ==> node.value in nodes)
      modifies this`checked
      ensures node.Some? && nodes[node.value].tag.Some? ==>
        checked == SetFlags(old(checked), Descendants(nodes, node.value), node.value in old(checked))
      ensures !(node.Some? && nodes[node.value].tag.Some?) ==> checked == old(checked)
    {
      if node.Some? && nodes[node.value].tag.Some? {
        UpdateChildNodesCheckState(node.value, node.value in checked);
      }
    }

    /** OnTreeNodeMouseClick: a right click selects the node clicked, which
        runs OnTreeAfterSelect when the selection changes. */
    method OnTreeNodeMouseClick(node: NodeId, rightButton: bool) returns (raised: Option<seq<Tag>>)
      requires Valid() && node in nodes
      modifies this`selectedNode, this`selectedObjects
      ensures Valid()
      ensures selectedNode == if rightButton then Some(node) else old(selectedNode)
      ensures raised.Some? <==> rightButton && old(selectedNode) != Some(node) && nodes[node].tag.Some?
      ensures raised.Some? ==> selectedObjects == [nodes[node].tag.value] && raised.value == selectedObjects
      ensures raised.None? ==> selectedObjects == old(selectedObjects)
    {
      raised := None;
      if rightButton {
        raised := SetSelectedNode(node);
      }
    }

    /** StartRename: an edit begins only on a selected node. */
    method StartRename() returns (editing: Option<NodeId>)
      ensures editing == selectedNode
    {
      editing := selectedNode;
    }

    method OnSearchBoxEnter()
      modifies this`searchText
      ensures searchText == EnteredText(old(searchText))
    {
      if searchText == SearchPlaceholder {
        searchText := "";
      }
    }

    method OnSearchBoxLeave()
      modifies this`searchText
      ensures searchText == LeftText(old(searchText))
    {
      if searchText == "" {
        searchText := SearchPlaceholder;
      }
    }

    /** OnSearchTextChanged: filters unless the box shows the placeholder;
        returns whether it did. */
    method OnSearchTextChanged() returns (filtered: bool)
      ensures filtered <==> searchText != SearchPlaceholder
    {
      filtered := searchText != SearchPlaceholder;
    }

    /** DuplicateSelected: a Duplicate of the selected node's tag, if any. */
    method DuplicateSelected() returns (request: Option<ActionRequest>)
      requires Valid()
      ensures request == MenuRequest(Duplicate, SelectedTarget(nodes, selectedNode))
    {
      request := None;
      if selectedNode.Some? && nodes[selectedNode.value].tag.Some? {
        request := Some(ActionRequest(Duplicate, nodes[selectedNode.value].tag));
      }
    }

    /** CreateGroup: a CreateGroup with no target, always. */
    method CreateGroup() returns (request: Option<ActionRequest>)
      ensures request == MenuRequest(HierarchyAction.CreateGroup, None)
    {
      request := Some(ActionRequest(HierarchyAction.CreateGroup, None));
    }

    /** DeleteSelected: a Delete of the selected node's tag, if any. */
    method DeleteSelected() returns (request: Option<ActionRequest>)
      requires Valid()
      ensures request == MenuRequest(Delete, SelectedTarget(nodes, selectedNode))
    {
      request := None;
      if selectedNode.Some? && nodes[selectedNode.value].tag.Some? {
        request := Some(ActionRequest(Delete, nodes[selectedNode.value].tag));
      }
    }

    /** HandleHierarchyAction, which the toolbar's buttons call: expanding
        and collapsing raise nothing, and the actions without a case raise
        nothing either. */
    method HandleHierarchyAction(action: HierarchyAction) returns (request: Option<ActionRequest>)
      requires Valid()
      ensures request == ToolbarRequest(action, SelectedTarget(nodes, selectedNode))
    {
      match action {
        case ExpandAll =>
          request := None;
        case CollapseAll =>
          request := None;
        case CreateGroup =>
          request := CreateGroup();
        case Delete =>
          request := DeleteSelected();
        case Duplicate =>
          request := None;
        case Rename =>
          request := None;
      }
    }
  }

  /** s without any occurrence of x, the rest in order. */
  function Without(s: seq<NodeId>, x: NodeId): (r: seq<NodeId>)
    ensures forall y :: y in r <==> y in s && y != x
    ensures x !in s ==> r == s
  {
    if s == [] then []
    else if s[0] == x then Without(s[1..], x)
    else [s[0]] + Without(s[1..], x)
  }
}
