/**
 * LayoutManager: the three split containers of the main window and the
 * splitter distances it computes for them, once when the window is first
 * laid out and again whenever the main container is resized.
 *
 * A container is reduced to the extent its splitter runs across (Width for
 * a vertical split, Height for a horizontal one), its two panel minimum
 * sizes and its SplitterDistance.  Extents are what WinForms reports, so
 * they are parameters and never negative; C#'s integer division then
 * agrees with Dafny's.
 */
module Layout {

  function Max(a: int, b: int): int { if a >= b then a else b }
  function Min(a: int, b: int): int { if a <= b then a else b }

  /** The minimum sizes CreateMainLayout gives each container. */
  const MainPanel1MinSize: nat := 100
  const MainPanel2MinSize: nat := 100
  const LeftPanel1MinSize: nat := 50
  const LeftPanel2MinSize: nat := 50
  const RightPanel1MinSize: nat := 100
  const RightPanel2MinSize: nat := 100

  /** The SplitterWidth CreateMainLayout gives each container.  No distance
      formula subtracts it: the bounds below are the formulas' own. */
  const SplitterWidth: nat := 5

  /** The pattern every distance formula follows: the preferred distance,
      capped so that the second panel keeps its minimum, then raised so that
      the first panel keeps its minimum. */
  function Clamp(panel1MinSize: int, preferred: int, extent: int, panel2MinSize: int): int {
    Max(panel1MinSize, Min(preferred, extent - panel2MinSize))
  }

  /** The clamped distance always leaves the first panel its minimum; when
      the extent has room for both minimums it also leaves the second panel
      its minimum; and it is the preferred distance exactly when that one
      already leaves both panels their minimums. */
  lemma ClampBounds(panel1MinSize: int, preferred: int, extent: int, panel2MinSize: int)
    ensures Clamp(panel1MinSize, preferred, extent, panel2MinSize) >= panel1MinSize
    ensures extent >= panel1MinSize + panel2MinSize ==>
      Clamp(panel1MinSize, preferred, extent, panel2MinSize) <= extent - panel2MinSize
    ensures extent >= panel1MinSize + panel2MinSize ==>
      (Clamp(panel1MinSize, preferred, extent, panel2MinSize) == preferred <==>
       panel1MinSize <= preferred <= extent - panel2MinSize)
  {
  }

  /** The three distances, main, left and right. */
  datatype Distances = Distances(main: int, left: int, right: int)

  /** The extents WinForms reports: the main and right containers' Width,
      the left container's Height. */
  datatype Extents = Extents(mainWidth: nat, leftHeight: nat, rightWidth: nat)

  /** The distances InitializeLayout computes: 300 for the left column, an
      even split of the left column, the right container less 200. */
  function InitialDistances(e: Extents): (d: Distances)
    ensures d.main >= MainPanel1MinSize && d.left >= LeftPanel1MinSize && d.right >= RightPanel1MinSize
  {
    Distances(
      Clamp(MainPanel1MinSize, 300, e.mainWidth, MainPanel2MinSize),
      Clamp(LeftPanel1MinSize, e.leftHeight / 2, e.leftHeight, LeftPanel2MinSize),
      Clamp(RightPanel1MinSize, e.rightWidth - 200, e.rightWidth, RightPanel2MinSize))
  }

  /** (int)(width * 0.8) for a width WinForms reports.  The double nearest
      0.8 lies just above it, so for any width below 2^50 the product
      truncates to the integer part of 4 * width / 5. */
  function EightyPercent(width: nat): (r: nat)
    ensures 5 * r <= 4 * width < 5 * r + 5
  {
    4 * width / 5
  }

  /** The distances UpdateSplitterDistances computes: a quarter of the main
      width, an even split of the left column, and 80 % of the right
      container's width. */
  function UpdatedDistances(e: Extents): (d: Distances)
    ensures d.main >= MainPanel1MinSize && d.left >= LeftPanel1MinSize && d.right >= RightPanel1MinSize
  {
    Distances(
      Clamp(MainPanel1MinSize, e.mainWidth / 4, e.mainWidth, MainPanel2MinSize),
      Clamp(LeftPanel1MinSize, e.leftHeight / 2, e.leftHeight, LeftPanel2MinSize),
      Clamp(RightPanel1MinSize, EightyPercent(e.rightWidth), e.rightWidth, RightPanel2MinSize))
  }

  /** Every distance lies between the first panel's minimum and the extent
      less the second panel's minimum whenever the container has room for
      both minimums.  The splitter is not counted. */
  predicate FitsIn(d: Distances, e: Extents) {
    (e.mainWidth >= MainPanel1MinSize + MainPanel2MinSize ==>
       MainPanel1MinSize <= d.main <= e.mainWidth - MainPanel2MinSize) &&
    (e.leftHeight >= LeftPanel1MinSize + LeftPanel2MinSize ==>
       LeftPanel1MinSize <= d.left <= e.leftHeight - LeftPanel2MinSize) &&
    (e.rightWidth >= RightPanel1MinSize + RightPanel2MinSize ==>
       RightPanel1MinSize <= d.right <= e.rightWidth - RightPanel2MinSize)
  }

  lemma InitialDistancesFit(e: Extents)
    ensures FitsIn(InitialDistances(e), e)
  {
    var d := InitialDistances(e);
    ClampBounds(MainPanel1MinSize, 300, e.mainWidth, MainPanel2MinSize);
    ClampBounds(LeftPanel1MinSize, e.leftHeight / 2, e.leftHeight, LeftPanel2MinSize);
    ClampBounds(RightPanel1MinSize, e.rightWidth - 200, e.rightWidth, RightPanel2MinSize);
  }

  lemma UpdatedDistancesFit(e: Extents)
    ensures FitsIn(UpdatedDistances(e), e)
  {
    ClampBounds(MainPanel1MinSize, e.mainWidth / 4, e.mainWidth, MainPanel2MinSize);
    ClampBounds(LeftPanel1MinSize, e.leftHeight / 2, e.leftHeight, LeftPanel2MinSize);
    ClampBounds(RightPanel1MinSize, EightyPercent(e.rightWidth), e.rightWidth, RightPanel2MinSize);
  }

  /** Once the window is wide enough, a resize gives the left column a
      quarter of the main width and the viewport 80 % of the right
      container. */
  lemma UpdatedProportions(e: Extents)
    ensures e.mainWidth >= 400 ==> UpdatedDistances(e).main == e.mainWidth / 4
    ensures e.rightWidth >= 500 ==> UpdatedDistances(e).right == EightyPercent(e.rightWidth)
  {
    ClampBounds(MainPanel1MinSize, e.mainWidth / 4, e.mainWidth, MainPanel2MinSize);
    ClampBounds(RightPanel1MinSize, EightyPercent(e.rightWidth), e.rightWidth, RightPanel2MinSize);
  }

  /** The left column starts exactly 300 wide whenever the window has room
      for it and the viewport's minimum. */
  lemma InitialMainIs300(e: Extents)
    requires e.mainWidth >= 400
    ensures InitialDistances(e).main == 300
  {
    ClampBounds(MainPanel1MinSize, 300, e.mainWidth, MainPanel2MinSize);
  }

  /** Counting the splitter, the initial left column crowds the viewport:
      in a main container narrower than 300 + 100 + SplitterWidth (and wide
      enough for both minimums) the second panel is left less than its
      minimum, because the formula caps the distance at the extent less the
      second panel's minimum and nothing less. */
  lemma InitialMainCrowdsSplitter(e: Extents)
    requires MainPanel1MinSize + MainPanel2MinSize <= e.mainWidth < 300 + MainPanel2MinSize + SplitterWidth
    ensures e.mainWidth - InitialDistances(e).main - SplitterWidth < MainPanel2MinSize
  {
  }

  /** The left column is split evenly whenever each half has room for its
      minimum. */
  lemma LeftSplitEven(e: Extents)
    requires e.leftHeight >= 100
    ensures InitialDistances(e).left == e.leftHeight / 2
    ensures UpdatedDistances(e).left == e.leftHeight / 2
  {
    ClampBounds(LeftPanel1MinSize, e.leftHeight / 2, e.leftHeight, LeftPanel2MinSize);
  }

  datatype Splitter = MainSplitter | LeftSplitter | RightSplitter

  /** The splitters UpdateSplitterDistances assigns, in order: those whose
      distance differs from the computed one. */
  function Assignments(before: Distances, after: Distances): (r: seq<Splitter>)
    ensures MainSplitter in r <==> before.main != after.main
    ensures LeftSplitter in r <==> before.left != after.left
    ensures RightSplitter in r <==> before.right != after.right
  {
    (if before.main != after.main then [MainSplitter] else []) +
    (if before.left != after.left then [LeftSplitter] else []) +
    (if before.right != after.right then [RightSplitter] else [])
  }

  /** The resize handler returns at once unless the main container is wider
      than its two minimums together. */
  predicate ResizeApplies(e: Extents) {
    e.mainWidth > MainPanel1MinSize + MainPanel2MinSize
  }

  /** A second recomputation at the same size finds every distance already
      in place and assigns nothing. */
  lemma UpdateIdempotent(d: Distances, e: Extents)
    requires ResizeApplies(e)
    ensures Assignments(UpdatedDistances(e), UpdatedDistances(e)) == []
    ensures Assignments(d, UpdatedDistances(e)) == [] <==> d == UpdatedDistances(e)
  {
  }

  class LayoutManager {
    var distances: Distances
    /** How many times the SizeChanged handler has been subscribed. */
    var resizeHandlers: nat

    /** CreateMainLayout: the containers start at whatever distances
        WinForms gives them, with no resize handler. */
    constructor (initial: Distances)
      ensures distances == initial && resizeHandlers == 0
    {
      distances := initial;
      resizeHandlers := 0;
    }

    /** InitializeLayout: nothing while the main container has no width;
        otherwise the initial distances, and the resize handler wired. */
    method InitializeLayout(e: Extents)
      modifies this
      ensures e.mainWidth == 0 ==> distances == old(distances) && resizeHandlers == old(resizeHandlers)
      ensures e.mainWidth > 0 ==> distances == InitialDistances(e) && resizeHandlers == old(resizeHandlers) + 1
    {
      if e.mainWidth > 0 {
        var mainSplitDistance := Max(MainPanel1MinSize, Min(300, e.mainWidth - MainPanel2MinSize));
        var leftSplitDistance := Max(LeftPanel1MinSize, Min(e.leftHeight / 2, e.leftHeight - LeftPanel2MinSize));
        var rightSplitDistance := Max(RightPanel1MinSize, Min(e.rightWidth - 200, e.rightWidth - RightPanel2MinSize));
        distances := distances.(main := mainSplitDistance);
        distances := distances.(left := leftSplitDistance);
        distances := distances.(right := rightSplitDistance);
        resizeHandlers := resizeHandlers + 1;
      }
    }

    /** UpdateSplitterDistances: returns the splitters it assigned. */
    method UpdateSplitterDistances(e: Extents) returns (changed: seq<Splitter>)
      modifies this`distances
      ensures !ResizeApplies(e) ==> distances == old(distances) && changed == []
      ensures ResizeApplies(e) ==> distances == UpdatedDistances(e)
      ensures ResizeApplies(e) ==> changed == Assignments(old(distances), distances)
    {
      changed := [];
      if e.mainWidth <= MainPanel1MinSize + MainPanel2MinSize {
        return;
      }
      var mainSplitDistance := Max(MainPanel1MinSize, Min(e.mainWidth / 4, e.mainWidth - MainPanel2MinSize));
      var leftSplitDistance := Max(LeftPanel1MinSize, Min(e.leftHeight / 2, e.leftHeight - LeftPanel2MinSize));
      var rightSplitDistance := Max(RightPanel1MinSize, Min(EightyPercent(e.rightWidth), e.rightWidth - RightPanel2MinSize));
      if distances.main != mainSplitDistance {
        distances := distances.(main := mainSplitDistance);
        changed := changed + [MainSplitter];
      }
      if distances.left != leftSplitDistance {
        distances := distances.(left := leftSplitDistance);
        changed := changed + [LeftSplitter];
      }
      if distances.right != rightSplitDistance {
        distances := distances.(right := rightSplitDistance);
        changed := changed + [RightSplitter];
      }
    }
  }
}
