/**
 * ToolStripManager: the editor's tool strip, its tool groups and the rule
 * that checking a tool unchecks the current tool when both are in one
 * group.
 *
 * The strip's items are a sequence of buttons and separators in the order
 * CreateTools adds them; a button is identified by its position, and the
 * current tool is the position of the current button.  Only the Checked
 * and Enabled flags of a button change after construction.
 */
module Toolstrip {
  import opened Wrappers

  datatype EditorTool =
    | FileNew | FileOpen | FileSave
    | EditUndo | EditRedo
    | Select | Move | Rotate | Scale
    | CreateVertex | CreateEdge | CreateFace
    | Triangulate | Analyze
    | ViewWireframe | ViewSolid | ViewTextured

  datatype ToolGroup = NoGroup | Transform | Creation | ViewMode

  /** A ToolStripButton (its tag, CheckOnClick, Checked and Enabled) or a
      ToolStripSeparator. */
  datatype Item =
    | Separator
    | Button(tool: EditorTool, checkOnClick: bool, checked: bool, enabled: bool)

  /** The tools that take part in mutual exclusion. */
  predicate IsToggleTool(tool: EditorTool) {
    tool == Select || tool == Move || tool == Rotate || tool == Scale ||
    tool == CreateVertex || tool == CreateEdge || tool == CreateFace ||
    tool == ViewWireframe || tool == ViewSolid || tool == ViewTextured
  }

  function GetToolGroup(tool: EditorTool): ToolGroup {
    match tool
    case Select | Move | Rotate | Scale => Transform
    case CreateVertex | CreateEdge | CreateFace => Creation
    case ViewWireframe | ViewSolid | ViewTextured => ViewMode
    case _ => NoGroup
  }

  /** A tool is a toggle tool exactly when it belongs to a group. */
  lemma ToggleIffGrouped(tool: EditorTool)
    ensures IsToggleTool(tool) <==> GetToolGroup(tool) != NoGroup
  {
  }

  /** CreateToolButton: CheckOnClick for toggle tools, checked when it is a
      default tool, enabled. */
  function CreateToolButton(tool: EditorTool, isDefault: bool): (b: Item)
    ensures b.Button? && b.tool == tool && b.enabled
    ensures b.checkOnClick <==> IsToggleTool(tool)
    ensures b.checked <==> isDefault
  {
    Button(tool, IsToggleTool(tool), isDefault, true)
  }

  /** What CreateTools adds at each position of the strip: six groups of
      buttons (file, edit, transform, creation, processing, view mode) with
      a separator (None) between consecutive groups. */
  function ToolAt(i: int): Option<EditorTool> {
    match i
    case 0 => Some(FileNew)
    case 1 => Some(FileOpen)
    case 2 => Some(FileSave)
    case 4 => Some(EditUndo)
    case 5 => Some(EditRedo)
    case 7 => Some(Select)
    case 8 => Some(Move)
    case 9 => Some(Rotate)
    case 10 => Some(Scale)
    case 12 => Some(CreateVertex)
    case 13 => Some(CreateEdge)
    case 14 => Some(CreateFace)
    case 16 => Some(Triangulate)
    case 17 => Some(Analyze)
    case 19 => Some(ViewWireframe)
    case 20 => Some(ViewSolid)
    case 21 => Some(ViewTextured)
    case _ => None
  }

  /** The number of items CreateTools adds. */
  const ItemCount: nat := 22

  /** Where CreateTools puts the button of each tool. */
  function PositionOf(tool: EditorTool): (i: nat)
    ensures i < ItemCount && ToolAt(i) == Some(tool)
  {
    match tool
    case FileNew => 0
    case FileOpen => 1
    case FileSave => 2
    case EditUndo => 4
    case EditRedo => 5
    case Select => 7
    case Move => 8
    case Rotate => 9
    case Scale => 10
    case CreateVertex => 12
    case CreateEdge => 13
    case CreateFace => 14
    case Triangulate => 16
    case Analyze => 17
    case ViewWireframe => 19
    case ViewSolid => 20
    case ViewTextured => 21
  }

  /** Every tool has exactly one button: the only position holding a tool
      is its PositionOf. */
  lemma ToolsHaveOneButton(i: int, tool: EditorTool)
    ensures ToolAt(i) == Some(tool) <==> i == PositionOf(tool)
  {
  }

  /** The default buttons: Select and Solid. */
  predicate IsDefault(tool: EditorTool) {
    tool == Select || tool == ViewSolid
  }

  function InitialItem(i: int): Item {
    if ToolAt(i).Some? then CreateToolButton(ToolAt(i).value, IsDefault(ToolAt(i).value)) else Separator
  }

  function InitialItems(): (r: seq<Item>)
    ensures |r| == ItemCount
    ensures forall i :: 0 <= i < ItemCount ==> r[i] == InitialItem(i)
  {
    seq(ItemCount, i => InitialItem(i))
  }

  /** Position of the Solid button, the last default button created, which
      therefore ends up as the current tool. */
  const InitialCurrent: nat := PositionOf(ViewSolid)

  /** The strip as a value: its items and the current button. */
  datatype Strip = Strip(items: seq<Item>, current: Option<nat>)

  predicate ValidStrip(s: Strip) {
    s.current.Some? ==> s.current.value < |s.items| && s.items[s.current.value].Button?
  }

  function InitialStrip(): (s: Strip)
    ensures ValidStrip(s)
  {
    Strip(InitialItems(), Some(InitialCurrent))
  }

  /** Initially every button is enabled and exactly the Select and Solid
      buttons are checked; Solid is current, being the last default
      created. */
  lemma InitialChecked(i: nat)
    requires i < ItemCount && InitialItems()[i].Button?
    ensures InitialItems()[i].enabled
    ensures InitialItems()[i].checked <==> i == PositionOf(Select) || i == PositionOf(ViewSolid)
    ensures InitialItems()[i].checked ==> i <= InitialCurrent
  {
    ToolsHaveOneButton(i, InitialItems()[i].tool);
  }

  /** IsInSameGroup for two buttons. */
  predicate SameGroup(a: Item, b: Item)
    requires a.Button? && b.Button?
  {
    GetToolGroup(a.tool) == GetToolGroup(b.tool)
  }

  /** SetActiveTool on values. */
  function Activate(s: Strip, n: nat): (r: Strip)
    requires ValidStrip(s) && n < |s.items| && s.items[n].Button?
    ensures ValidStrip(r) && |r.items| == |s.items|
  {
    var items :=
      if s.current.Some? && SameGroup(s.items[s.current.value], s.items[n])
      then s.items[s.current.value := s.items[s.current.value].(checked := false)]
      else s.items;
    Strip(items[n := items[n].(checked := true)], Some(n))
  }

  /** After SetActiveTool(n), n is checked and current; the previous current
      button is unchecked exactly when it is another button of n's group;
      every other item is unchanged. */
  lemma ActivateEffect(s: Strip, n: nat, j: nat)
    requires ValidStrip(s) && n < |s.items| && s.items[n].Button? && j < |s.items|
    ensures Activate(s, n).current == Some(n) && Activate(s, n).items[n].checked
    ensures j != n && s.current == Some(j) && SameGroup(s.items[j], s.items[n]) ==>
      Activate(s, n).items[j] == s.items[j].(checked := false)
    ensures j != n && (s.current != Some(j) || !SameGroup(s.items[j], s.items[n])) ==>
      Activate(s, n).items[j] == s.items[j]
    ensures Activate(s, n).items[n] == s.items[n].(checked := true)
  {
  }

  /** OnToolButtonClick on values: a click on anything but a button does
      nothing, and only toggle tools change the strip. */
  function Click(s: Strip, n: nat): (r: Strip)
    requires ValidStrip(s)
    ensures ValidStrip(r) && |r.items| == |s.items|
    ensures !(n < |s.items| && s.items[n].Button? && IsToggleTool(s.items[n].tool)) ==> r == s
  {
    if n < |s.items| && s.items[n].Button? && IsToggleTool(s.items[n].tool) then Activate(s, n) else s
  }

  /** Item i is a checked button. */
  predicate IsChecked(s: Strip, i: nat) {
    i < |s.items| && s.items[i].Button? && s.items[i].checked
  }

  /** A click on a toggle tool n checks n and makes it current; another
      item j changes only when it was the current button and is in n's
      group. */
  lemma ClickToggle(s: Strip, n: nat, j: nat)
    requires ValidStrip(s) && n < |s.items| && s.items[n].Button? && IsToggleTool(s.items[n].tool)
    requires j < |s.items| && j != n
    requires s.current.Some? ==> s.current.value == n || !SameGroup(s.items[s.current.value], s.items[n])
    ensures Click(s, n).current == Some(n)
    ensures Click(s, n).items[n] == s.items[n].(checked := true)
    ensures Click(s, n).items[j] == s.items[j]
  {
    ActivateEffect(s, n, j);
  }

  /** Item i is the enabled toggle button of tool, checked or not. */
  predicate Shows(s: Strip, i: nat, tool: EditorTool, checked: bool) {
    i < |s.items| && s.items[i] == Button(tool, true, checked, true)
  }

  /** The five buttons of the scenario below, their checks given. */
  predicate ScenarioState(s: Strip, select: bool, move: bool, rotate: bool, wire: bool, solid: bool) {
    ValidStrip(s) &&
    Shows(s, 7, Select, select) && Shows(s, 8, Move, move) && Shows(s, 9, Rotate, rotate) &&
    Shows(s, 19, ViewWireframe, wire) && Shows(s, 20, ViewSolid, solid)
  }

  lemma ScenarioStart()
    ensures ScenarioState(InitialStrip(), true, false, false, false, true)
    ensures InitialStrip().current == Some(20)
  {
    var s0 := InitialStrip();
    assert s0.items[7] == InitialItem(7) && s0.items[8] == InitialItem(8);
    assert s0.items[9] == InitialItem(9) && s0.items[19] == InitialItem(19);
    assert s0.items[20] == InitialItem(20);
  }

  lemma ScenarioMove(s: Strip)
    requires ScenarioState(s, true, false, false, false, true) && s.current == Some(20)
    ensures ScenarioState(Click(s, 8), true, true, false, false, true) && Click(s, 8).current == Some(8)
  {
    ClickToggle(s, 8, 7);
    ClickToggle(s, 8, 9);
    ClickToggle(s, 8, 19);
    ClickToggle(s, 8, 20);
  }

  lemma ScenarioWireframe(s: Strip)
    requires ScenarioState(s, true, true, false, false, true) && s.current == Some(8)
    ensures ScenarioState(Click(s, 19), true, true, false, true, true) && Click(s, 19).current == Some(19)
  {
    ClickToggle(s, 19, 7);
    ClickToggle(s, 19, 8);
    ClickToggle(s, 19, 9);
    ClickToggle(s, 19, 20);
  }

  lemma ScenarioRotate(s: Strip)
    requires ScenarioState(s, true, true, false, true, true) && s.current == Some(19)
    ensures ScenarioState(Click(s, 9), true, true, true, true, true) && Click(s, 9).current == Some(9)
  {
    ClickToggle(s, 9, 7);
    ClickToggle(s, 9, 8);
    ClickToggle(s, 9, 19);
    ClickToggle(s, 9, 20);
  }

  /** Exclusion is only against the single current tool, and Select and
      Solid start out checked while only Solid is current: after Move, then
      Wireframe, then Rotate, the buttons Select, Move and Rotate of the
      transform group are all checked, and so are Wireframe and Solid. */
  lemma MoveWireframeRotate()
    ensures var s1 := Click(InitialStrip(), PositionOf(Move));
      var s2 := Click(s1, PositionOf(ViewWireframe));
      var s3 := Click(s2, PositionOf(Rotate));
      s3.current == Some(PositionOf(Rotate)) &&
      ScenarioState(s3, true, true, true, true, true)
  {
    ScenarioStart();
    ScenarioMove(InitialStrip());
    ScenarioWireframe(Click(InitialStrip(), 8));
    ScenarioRotate(Click(Click(InitialStrip(), 8), 19));
  }

  /** The position of the first button tagged with tool, or |items|. */
  function FindTool(items: seq<Item>, tool: EditorTool): (i: nat)
    ensures i <= |items|
    ensures i < |items| ==> items[i].Button? && items[i].tool == tool
    ensures forall j :: 0 <= j < i ==> !(items[j].Button? && items[j].tool == tool)
  {
    if items == [] then 0
    else if items[0].Button? && items[0].tool == tool then 0
    else 1 + FindTool(items[1..], tool)
  }

  /** The items after setting Enabled on the first button tagged with tool:
      at most one button changes, and only its Enabled flag. */
  function WithEnabled(items: seq<Item>, tool: EditorTool, enabled: bool): (r: seq<Item>)
    ensures |r| == |items|
    ensures forall j :: 0 <= j < |items| && j != FindTool(items, tool) ==> r[j] == items[j]
    ensures FindTool(items, tool) < |items| ==>
      r[FindTool(items, tool)] == items[FindTool(items, tool)].(enabled := enabled)
  {
    var i := FindTool(items, tool);
    if i < |items| then items[i := items[i].(enabled := enabled)] else items
  }

  /** The same for the Checked flag. */
  function WithChecked(items: seq<Item>, tool: EditorTool, isChecked: bool): (r: seq<Item>)
    ensures |r| == |items|
    ensures forall j :: 0 <= j < |items| && j != FindTool(items, tool) ==> r[j] == items[j]
    ensures FindTool(items, tool) < |items| ==>
      r[FindTool(items, tool)] == items[FindTool(items, tool)].(checked := isChecked)
  {
    var i := FindTool(items, tool);
    if i < |items| then items[i := items[i].(checked := isChecked)] else items
  }

  class ToolStripManager {
    var items: seq<Item>
    var current: Option<nat>
    /** Every ToolSelected event raised so far, with its tool. */
    var raised: seq<EditorTool>

    function Value(): Strip
      reads this
    {
      Strip(items, current)
    }

    ghost predicate Valid()
      reads this
    {
      ValidStrip(Value())
    }

    /** CreateTools; the theme and the button captions are not modelled. */
    constructor ()
      ensures Valid() && Value() == InitialStrip() && raised == []
    {
      items := InitialItems();
      current := Some(InitialCurrent);
      raised := [];
    }

    method SetActiveTool(n: nat)
      requires Valid() && n < |items| && items[n].Button?
      modifies this`items, this`current
      ensures Valid() && Value() == Activate(old(Value()), n)
    {
      if current.Some? && SameGroup(items[current.value], items[n]) {
        items := items[current.value := items[current.value].(checked := false)];
      }
      items := items[n := items[n].(checked := true)];
      current := Some(n);
    }

    /** A click on item n: only a button reacts; a toggle tool becomes
        active, and the event is raised for every tool. */
    method OnToolButtonClick(n: nat)
      requires Valid()
      modifies this
      ensures Valid() && Value() == Click(old(Value()), n)
      ensures raised == old(raised) + (if n < |items| && items[n].Button? then [items[n].tool] else [])
    {
      if n < |items| && items[n].Button? {
        var tool := items[n].tool;
        if IsToggleTool(tool) {
          SetActiveTool(n);
        }
        raised := raised + [tool];
      }
    }

    /** Scan the items for the first button tagged with tool, then stop. */
    method EnableTool(tool: EditorTool, enabled: bool)
      requires Valid()
      modifies this`items
      ensures Valid() && items == WithEnabled(old(items), tool, enabled)
    {
      var i := 0;
      while i < |items|
        invariant 0 <= i <= |items| && items == old(items)
        invariant forall j :: 0 <= j < i ==> !(items[j].Button? && items[j].tool == tool)
      {
        if items[i].Button? && items[i].tool == tool {
          assert FindTool(items, tool) == i;
          items := items[i := items[i].(enabled := enabled)];
          return;
        }
        i := i + 1;
      }
      assert FindTool(items, tool) == |items|;
    }

    method SetToolChecked(tool: EditorTool, isChecked: bool)
      requires Valid()
      modifies this`items
      ensures Valid() && items == WithChecked(old(items), tool, isChecked)
    {
      var i := 0;
      while i < |items|
        invariant 0 <= i <= |items| && items == old(items)
        invariant forall j :: 0 <= j < i ==> !(items[j].Button? && items[j].tool == tool)
      {
        if items[i].Button? && items[i].tool == tool {
          assert FindTool(items, tool) == i;
          items := items[i := items[i].(checked := isChecked)];
          return;
        }
        i := i + 1;
      }
      assert FindTool(items, tool) == |items|;
    }
  }
}
