/**
 * LibraryPanel: the fixed catalogue of primitives, grouped by category, and
 * the list of primitive buttons the panel shows for the chosen category
 * ("All" or one category) and the text in the search box.
 *
 * The panel's widgets are reduced to what the filtering reads and writes:
 * the combo box is its item list and selected index, the search box is its
 * text, the flow panel is the list of primitives it shows a button for, and
 * raising PrimitiveSelected is returning the primitive it is raised with.  The
 * dictionary is a map plus the order its keys were inserted in, which is
 * the order Dictionary enumerates its values in when nothing was removed.
 */
module LibraryPanels {
  import opened Wrappers

  datatype PrimitiveCategory =
    BasicShapes | Curves | Surfaces | ComplexObjects | Materials | Lights

  datatype PrimitiveType =
    | Point | Line | Cube | Sphere | Cylinder | Cone | Plane
    | BezierCurve | NurbsCurve | Circle | Arc | Spline
    | BezierSurface | NurbsSurface | RuledSurface | RevolutionSurface
    | CurvilinearHexahedron | Tetrahedron | Prism | Pyramid
    | SteelMaterial | AluminumMaterial | PlasticMaterial | ConcreteMaterial | WoodMaterial
    | PointLight | DirectionalLight | SpotLight | AreaLight

  /** PrimitiveInfo never changes after construction, so it is a value. */
  datatype PrimitiveInfo = PrimitiveInfo(
    name: string, emoji: string, description: string, primitiveType: PrimitiveType)

  /** The categories in declaration order, which is the order
      Enum.GetValues lists them in and the order InitializePrimitives
      inserts them in. */
  const Categories: seq<PrimitiveCategory> :=
    [BasicShapes, Curves, Surfaces, ComplexObjects, Materials, Lights]

  /** The search box's placeholder text. */
  const Placeholder: string := "Search primitives..."

  // ---------------------------------------------------------------------
  // The catalogue
  // ---------------------------------------------------------------------

  /** The primitive InitializePrimitives creates for each type. */
  function Info(t: PrimitiveType): (p: PrimitiveInfo)
    ensures p.primitiveType == t
  {
    PrimitiveInfo(NameOf(t), EmojiOf(t), DescriptionOf(t), t)
  }

  /** The name each primitive is created with. */
  function NameOf(t: PrimitiveType): string {
    match t
    case Point => "Point"
    case Line => "Line"
    case Cube => "Cube"
    case Sphere => "Sphere"
    case Cylinder => "Cylinder"
    case Cone => "Cone"
    case Plane => "Plane"
    case BezierCurve => "Bezier Curve"
    case NurbsCurve => "NURBS Curve"
    case Circle => "Circle"
    case Arc => "Arc"
    case Spline => "Spline"
    case BezierSurface => "Bezier Surface"
    case NurbsSurface => "NURBS Surface"
    case RuledSurface => "Ruled Surface"
    case RevolutionSurface => "Revolution Surface"
    case CurvilinearHexahedron => "Hexahedron"
    case Tetrahedron => "Tetrahedron"
    case Prism => "Prism"
    case Pyramid => "Pyramid"
    case SteelMaterial => "Steel"
    case AluminumMaterial => "Aluminum"
    case PlasticMaterial => "Plastic"
    case ConcreteMaterial => "Concrete"
    case WoodMaterial => "Wood"
    case PointLight => "Point Light"
    case DirectionalLight => "Directional Light"
    case SpotLight => "Spot Light"
    case AreaLight => "Area Light"
  }

  /** The emoji each primitive is created with. */
  function EmojiOf(t: PrimitiveType): string {
    match t
    case Point => "\U{25CF}"
    case Line => "\U{2014}"
    case Cube => "\U{2B1C}"
    case Sphere => "\U{26AB}"
    case Cylinder => "\U{1F96B}"
    case Cone => "\U{1F53A}"
    case Plane => "\U{25AD}"
    case BezierCurve => "\U{3030}\U{FE0F}"
    case NurbsCurve => "\U{1F4CF}"
    case Circle => "\U{2B55}"
    case Arc => "\U{2312}"
    case Spline => "\U{301C}"
    case BezierSurface => "\U{1F4C4}"
    case NurbsSurface => "\U{1F4CB}"
    case RuledSurface => "\U{1F4D0}"
    case RevolutionSurface => "\U{1F300}"
    case CurvilinearHexahedron => "\U{1F9CA}"
    case Tetrahedron => "\U{1F53A}"
    case Prism => "\U{1F4D0}"
    case Pyramid => "\U{1F53A}"
    case SteelMaterial => "\U{2699}\U{FE0F}"
    case AluminumMaterial => "\U{2728}"
    case PlasticMaterial => "\U{1F9EA}"
    case ConcreteMaterial => "\U{1F9F1}"
    case WoodMaterial => "\U{1F333}"
    case PointLight => "\U{1F4A1}"
    case DirectionalLight => "\U{2600}\U{FE0F}"
    case SpotLight => "\U{1F526}"
    case AreaLight => "\U{1F506}"
  }

  /** The description each primitive is created with. */
  function DescriptionOf(t: PrimitiveType): string {
    match t
    case Point => "Create a single point"
    case Line => "Create a straight line"
    case Cube => "Create a cube"
    case Sphere => "Create a sphere"
    case Cylinder => "Create a cylinder"
    case Cone => "Create a cone"
    case Plane => "Create a plane"
    case BezierCurve => "Create a Bezier curve"
    case NurbsCurve => "Create a NURBS curve"
    case Circle => "Create a circle"
    case Arc => "Create an arc"
    case Spline => "Create a spline"
    case BezierSurface => "Create a Bezier surface"
    case NurbsSurface => "Create a NURBS surface"
    case RuledSurface => "Create a ruled surface"
    case RevolutionSurface => "Create a surface of revolution"
    case CurvilinearHexahedron => "Create a curvilinear hexahedron"
    case Tetrahedron => "Create a tetrahedron"
    case Prism => "Create a prism"
    case Pyramid => "Create a pyramid"
    case SteelMaterial => "Add steel material"
    case AluminumMaterial => "Add aluminum material"
    case PlasticMaterial => "Add plastic material"
    case ConcreteMaterial => "Add concrete material"
    case WoodMaterial => "Add wood material"
    case PointLight => "Add point light"
    case DirectionalLight => "Add directional light"
    case SpotLight => "Add spot light"
    case AreaLight => "Add area light"
  }

  /** The types InitializePrimitives lists under each category, in order. */
  function CategoryTypes(c: PrimitiveCategory): seq<PrimitiveType> {
    match c
    case BasicShapes => [Point, Line, Cube, Sphere, Cylinder, Cone, Plane]
    case Curves => [BezierCurve, NurbsCurve, Circle, Arc, Spline]
    case Surfaces => [BezierSurface, NurbsSurface, RuledSurface, RevolutionSurface]
    case ComplexObjects => [CurvilinearHexahedron, Tetrahedron, Prism, Pyramid]
    case Materials => [SteelMaterial, AluminumMaterial, PlasticMaterial, ConcreteMaterial, WoodMaterial]
    case Lights => [PointLight, DirectionalLight, SpotLight, AreaLight]
  }

  /** The list InitializePrimitives stores under each category: one
      PrimitiveInfo per type, in order. */
  function CategoryList(c: PrimitiveCategory): (r: seq<PrimitiveInfo>)
    ensures |r| == |CategoryTypes(c)|
    ensures forall i :: 0 <= i < |r| ==> r[i] == Info(CategoryTypes(c)[i])
  {
    var ts := CategoryTypes(c);
    seq(|ts|, i requires 0 <= i < |ts| => Info(ts[i]))
  }

  /** Every list of the catalogue, in category order: what "All" shows. */
  function AllPrimitives(): seq<PrimitiveInfo> {
    CategoryList(BasicShapes) + CategoryList(Curves) + CategoryList(Surfaces) +
    CategoryList(ComplexObjects) + CategoryList(Materials) + CategoryList(Lights)
  }

  /** The dictionary's values, enumerated in key insertion order. */
  function Values(dict: map<PrimitiveCategory, seq<PrimitiveInfo>>, order: seq<PrimitiveCategory>): seq<PrimitiveInfo>
    requires forall k :: k in order ==> k in dict
    decreases |order|
  {
    if order == [] then [] else dict[order[0]] + Values(dict, order[1..])
  }

  /** The catalogue as InitializePrimitives leaves the dictionary. */
  function Catalogue(): (d: map<PrimitiveCategory, seq<PrimitiveInfo>>)
    ensures forall c :: c in Categories ==> c in d && d[c] == CategoryList(c)
  {
    map[BasicShapes := CategoryList(BasicShapes), Curves := CategoryList(Curves),
        Surfaces := CategoryList(Surfaces), ComplexObjects := CategoryList(ComplexObjects),
        Materials := CategoryList(Materials), Lights := CategoryList(Lights)]
  }

  /** Where a category sits in Categories. */
  function CategoryIndex(c: PrimitiveCategory): (i: nat)
    ensures i < |Categories| && Categories[i] == c
  {
    match c
    case BasicShapes => 0
    case Curves => 1
    case Surfaces => 2
    case ComplexObjects => 3
    case Materials => 4
    case Lights => 5
  }

  /** Categories lists every category. */
  lemma EveryCategoryListed()
    ensures forall c :: c in Categories
  {
    forall c: PrimitiveCategory
      ensures c in Categories
    {
      var i := CategoryIndex(c);
    }
  }

  /** Enumerating a dictionary that holds every category, in category
      order, lists the six lists one after the other. */
  lemma ValuesInCategoryOrder(d: map<PrimitiveCategory, seq<PrimitiveInfo>>)
    requires forall c :: c in d
    ensures Values(d, Categories) ==
      d[BasicShapes] + d[Curves] + d[Surfaces] + d[ComplexObjects] + d[Materials] + d[Lights]
  {
    assert Categories[1..] == [Curves, Surfaces, ComplexObjects, Materials, Lights];
    assert Categories[2..] == [Surfaces, ComplexObjects, Materials, Lights];
    assert Categories[3..] == [ComplexObjects, Materials, Lights];
    assert Categories[4..] == [Materials, Lights];
    assert Categories[5..] == [Lights];
    assert Values(d, Categories[5..]) == d[Lights];
    assert Values(d, Categories[4..]) == d[Materials] + d[Lights];
    assert Values(d, Categories[3..]) == d[ComplexObjects] + d[Materials] + d[Lights];
    assert Values(d, Categories[2..]) == d[Surfaces] + d[ComplexObjects] + d[Materials] + d[Lights];
  }

  /** The catalogue holds 29 primitives, in six categories of 7, 5, 4, 4, 5
      and 4, and "All" lists them category by category. */
  lemma CatalogueSizes()
    ensures |CategoryList(BasicShapes)| == 7 && |CategoryList(Curves)| == 5
    ensures |CategoryList(Surfaces)| == 4 && |CategoryList(ComplexObjects)| == 4
    ensures |CategoryList(Materials)| == 5 && |CategoryList(Lights)| == 4
    ensures Values(Catalogue(), Categories) == AllPrimitives()
    ensures |AllPrimitives()| == 29
  {
    EveryCategoryListed();
    ValuesInCategoryOrder(Catalogue());
  }

  // ---------------------------------------------------------------------
  // Category names
  // ---------------------------------------------------------------------

  /** GetCategoryDisplayName. */
  function DisplayName(c: PrimitiveCategory): (r: string)
    ensures r != "" && r != "All"
  {
    match c
    case BasicShapes => "Basic Shapes"
    case Curves => "Curves"
    case Surfaces => "Surfaces"
    case ComplexObjects => "Complex Objects"
    case Materials => "Materials"
    case Lights => "Lights"
  }

  /** No two categories share a display name. */
  lemma DisplayNamesDistinct(a: PrimitiveCategory, b: PrimitiveCategory)
    ensures DisplayName(a) == DisplayName(b) <==> a == b
  {
  }

  /** The combo box's items: "All", then every display name in enum order. */
  function ComboItems(): (r: seq<string>)
    ensures |r| == |Categories| + 1 && r[0] == "All"
    ensures forall i :: 1 <= i < |r| ==> r[i] == DisplayName(Categories[i - 1])
  {
    ["All"] + seq(|Categories|, i requires 0 <= i < |Categories| => DisplayName(Categories[i]))
  }

  /** The first of `cats` whose display name is `name`, as the lookup loop
      in GetSelectedCategory finds it; None when there is none. */
  function FirstNamed(cats: seq<PrimitiveCategory>, name: string): (r: Option<PrimitiveCategory>)
    ensures r.Some? ==> r.value in cats && DisplayName(r.value) == name
    ensures r.None? <==> forall c :: c in cats ==> DisplayName(c) != name
    decreases |cats|
  {
    if cats == [] then None
    else if DisplayName(cats[0]) == name then Some(cats[0])
    else FirstNamed(cats[1..], name)
  }

  /** The foreach loop of GetSelectedCategory: the first category in
      `cats` whose display name is `name`. */
  method FindCategory(cats: seq<PrimitiveCategory>, name: string) returns (r: Option<PrimitiveCategory>)
    ensures r == FirstNamed(cats, name)
  {
    var i := 0;
    while i < |cats|
      invariant 0 <= i <= |cats|
      invariant FirstNamed(cats[i..], name) == FirstNamed(cats, name)
    {
      assert cats[i..][1..] == cats[i + 1..];
      if DisplayName(cats[i]) == name {
        return Some(cats[i]);
      }
      i := i + 1;
    }
    return None;
  }

  /** Looking a category up by its own display name finds that category. */
  lemma NameLookupRoundTrip(c: PrimitiveCategory)
    ensures FirstNamed(Categories, DisplayName(c)) == Some(c)
  {
    var r := FirstNamed(Categories, DisplayName(c));
    assert c in Categories;
    DisplayNamesDistinct(r.value, c);
  }

  /** The category the combo box's selection stands for: none for "All"
      (index 0), otherwise the category named by the selected item. */
  function SelectedCategoryOf(items: seq<string>, index: int): Option<PrimitiveCategory>
    requires 0 <= index < |items|
  {
    if index == 0 then None else FirstNamed(Categories, items[index])
  }

  /** With the items CreateCategoryCombo fills in, index i > 0 selects the
      (i-1)-th category and index 0 selects "All". */
  lemma SelectedCategoryByIndex(i: int)
    requires 0 <= i < |ComboItems()|
    ensures i == 0 ==> SelectedCategoryOf(ComboItems(), i) == None
    ensures i > 0 ==> SelectedCategoryOf(ComboItems(), i) == Some(Categories[i - 1])
  {
    if i > 0 {
      NameLookupRoundTrip(Categories[i - 1]);
    }
  }

  /** The index of the first item equal to `name`, -1 when none is; the
      lookup the combo box does when SelectedItem is assigned. */
  function IndexOfItem(items: seq<string>, name: string): (r: int)
    ensures -1 <= r < |items|
    ensures r >= 0 ==> items[r] == name && forall j :: 0 <= j < r ==> items[j] != name
    ensures r == -1 <==> name !in items
    decreases |items|
  {
    if items == [] then -1
    else if items[0] == name then 0
    else var k := IndexOfItem(items[1..], name); if k < 0 then -1 else k + 1
  }

  /** Selecting a category by its display name selects the item after "All"
      at that category's position. */
  lemma {:induction false} ComboIndexOfCategory(c: PrimitiveCategory)
    ensures var i := IndexOfItem(ComboItems(), DisplayName(c));
      1 <= i < |ComboItems()| && SelectedCategoryOf(ComboItems(), i) == Some(c)
  {
    var items := ComboItems();
    var k := CategoryIndex(c);
    assert items[k + 1] == DisplayName(c);
    var i := IndexOfItem(items, DisplayName(c));
    assert i >= 0;
    assert i != 0;
    SelectedCategoryByIndex(i);
    DisplayNamesDistinct(Categories[i - 1], c);
  }

  // ---------------------------------------------------------------------
  // Search
  // ---------------------------------------------------------------------

  /** GetSearchText: the placeholder stands for an empty search. */
  function SearchTextOf(text: string): (r: string)
    ensures r == "" <==> text == Placeholder || text == ""
    ensures r != "" ==> r == text
  {
    if text == Placeholder then "" else text
  }

  /** The case mapping OrdinalIgnoreCase compares characters under, on the
      ASCII letters. */
  function Fold(c: char): (r: char)
    ensures 'a' <= r <= 'z' ==> false
    ensures !('a' <= c <= 'z') ==> r == c
    ensures 'a' <= c <= 'z' ==> r as int == c as int - 32
  {
    if 'a' <= c <= 'z' then (c as int - 32) as char else c
  }

  /** `pattern` occurs in `text` at `at`, ignoring case. */
  predicate MatchAt(text: string, pattern: string, at: int) {
    0 <= at && at + |pattern| <= |text| &&
    forall k :: 0 <= k < |pattern| ==> Fold(text[at + k]) == Fold(pattern[k])
  }

  /** `text` contains `pattern`, ignoring case. */
  predicate ContainsIgnoreCase(text: string, pattern: string) {
    exists at :: 0 <= at <= |text| - |pattern| && MatchAt(text, pattern, at)
  }

  /** IndexOf(pattern, OrdinalIgnoreCase) from position `from` on: the first
      match at or after `from`, or -1. */
  function IndexFrom(text: string, pattern: string, from: nat): (r: int)
    requires from <= |text| + 1
    ensures r == -1 || (from <= r && MatchAt(text, pattern, r))
    ensures r == -1 <==> forall at :: from <= at <= |text| - |pattern| ==> !MatchAt(text, pattern, at)
    ensures forall at :: from <= at < r ==> !MatchAt(text, pattern, at)
    decreases |text| + 1 - from
  {
    if from + |pattern| > |text| then -1
    else if MatchAt(text, pattern, from) then from
    else IndexFrom(text, pattern, from + 1)
  }

  /** IndexOf(pattern, StringComparison.OrdinalIgnoreCase). */
  function IndexOfIgnoreCase(text: string, pattern: string): int {
    IndexFrom(text, pattern, 0)
  }

  /** IndexOf finds a position exactly when the pattern occurs. */
  lemma IndexOfFinds(text: string, pattern: string)
    ensures IndexOfIgnoreCase(text, pattern) >= 0 <==> ContainsIgnoreCase(text, pattern)
  {
    var r := IndexOfIgnoreCase(text, pattern);
    if r >= 0 {
      assert MatchAt(text, pattern, r);
    }
  }

  /** The Where clause of GetFilteredPrimitives. */
  predicate Keeps(p: PrimitiveInfo, searchText: string) {
    IndexOfIgnoreCase(p.name, searchText) >= 0 || IndexOfIgnoreCase(p.description, searchText) >= 0
  }

  /** An item is kept exactly when its name or description contains the
      search text, ignoring case. */
  lemma KeepsIff(p: PrimitiveInfo, searchText: string)
    ensures Keeps(p, searchText) <==>
      ContainsIgnoreCase(p.name, searchText) || ContainsIgnoreCase(p.description, searchText)
  {
    IndexOfFinds(p.name, searchText);
    IndexOfFinds(p.description, searchText);
  }

  /** Where(...).ToList(): the kept items, in their order. */
  function Where(ps: seq<PrimitiveInfo>, searchText: string): (r: seq<PrimitiveInfo>)
    ensures |r| <= |ps|
    ensures forall p :: p in r ==> p in ps && Keeps(p, searchText)
    decreases |ps|
  {
    if ps == [] then []
    else if Keeps(ps[0], searchText) then [ps[0]] + Where(ps[1..], searchText)
    else Where(ps[1..], searchText)
  }

  /** The search applied to a list: no filtering for an empty text. */
  function Filtered(ps: seq<PrimitiveInfo>, searchText: string): seq<PrimitiveInfo> {
    if searchText == "" then ps else Where(ps, searchText)
  }

  /** `a` is `b` with some items left out, in order. */
  predicate IsSubsequence(a: seq<PrimitiveInfo>, b: seq<PrimitiveInfo>)
    decreases |b|
  {
    if a == [] then true
    else if b == [] then false
    else if a[0] == b[0] then IsSubsequence(a[1..], b[1..])
    else IsSubsequence(a, b[1..])
  }

  lemma {:induction false} SubsequenceOfTail(a: seq<PrimitiveInfo>, b: seq<PrimitiveInfo>)
    requires b != [] && IsSubsequence(a, b[1..])
    ensures IsSubsequence(a, b)
    decreases |b|
  {
    if a != [] && a[0] == b[0] {
      if |b| > 1 {
        SubsequenceOfTail(a[1..], b[1..]) by {
          SubsequenceDropHead(a, b[1..]);
        }
      } else {
        assert false;
      }
    }
  }

  lemma {:induction false} SubsequenceDropHead(a: seq<PrimitiveInfo>, b: seq<PrimitiveInfo>)
    requires a != [] && IsSubsequence(a, b)
    ensures b != [] && IsSubsequence(a[1..], b[1..])
    decreases |b|
  {
    if a[0] != b[0] {
      SubsequenceDropHead(a, b[1..]);
      SubsequenceOfTail(a[1..], b[1..]);
    }
  }

  /** The filtered list is the unfiltered one with items left out, in
      their original order. */
  lemma {:induction false} WhereIsSubsequence(ps: seq<PrimitiveInfo>, searchText: string)
    ensures IsSubsequence(Where(ps, searchText), ps)
    decreases |ps|
  {
    if ps != [] {
      WhereIsSubsequence(ps[1..], searchText);
      if !Keeps(ps[0], searchText) {
        var w := Where(ps[1..], searchText);
        if w != [] {
          SubsequenceOfTail(w, ps);
        }
      }
    }
  }

  /** An item is in the filtered list exactly when it is in the list and
      its name or description contains the search text. */
  lemma {:induction false} WhereIff(ps: seq<PrimitiveInfo>, searchText: string, p: PrimitiveInfo)
    ensures p in Where(ps, searchText) <==> p in ps && Keeps(p, searchText)
    decreases |ps|
  {
    if ps != [] {
      WhereIff(ps[1..], searchText, p);
      assert p in ps <==> p == ps[0] || p in ps[1..];
    }
  }

  /** Filtering an already filtered list with the same text changes nothing. */
  lemma {:induction false} WhereIdempotent(ps: seq<PrimitiveInfo>, searchText: string)
    ensures Where(Where(ps, searchText), searchText) == Where(ps, searchText)
    decreases |ps|
  {
    if ps != [] {
      WhereIdempotent(ps[1..], searchText);
    }
  }

  /** The list before filtering: the chosen category's list (none when the
      dictionary lacks it), or every list in insertion order for "All". */
  function Unfiltered(dict: map<PrimitiveCategory, seq<PrimitiveInfo>>, order: seq<PrimitiveCategory>,
                      category: Option<PrimitiveCategory>): seq<PrimitiveInfo>
    requires forall k :: k in order ==> k in dict
  {
    match category
    case Some(c) => if c in dict then dict[c] else []
    case None => Values(dict, order)
  }

  /** The buttons the panel shows for a combo selection and a search-box
      text. */
  function Shown(dict: map<PrimitiveCategory, seq<PrimitiveInfo>>, order: seq<PrimitiveCategory>,
                 items: seq<string>, index: int, text: string): seq<PrimitiveInfo>
    requires forall k :: k in order ==> k in dict
    requires 0 <= index < |items|
  {
    Filtered(Unfiltered(dict, order, SelectedCategoryOf(items, index)), SearchTextOf(text))
  }

  /** With the placeholder or an empty search box, the panel shows the
      chosen category's list, or for "All" every list concatenated in
      insertion order. */
  lemma EmptySearchShowsCategory(i: int, text: string)
    requires 0 <= i < |ComboItems()| && (text == Placeholder || text == "")
    ensures i == 0 ==> (Shown(Catalogue(), Categories, ComboItems(), i, text) ==
      AllPrimitives())
    ensures i > 0 ==> Shown(Catalogue(), Categories, ComboItems(), i, text) == CategoryList(Categories[i - 1])
  {
    SelectedCategoryByIndex(i);
    CatalogueSizes();
  }

  // ---------------------------------------------------------------------
  // The panel
  // ---------------------------------------------------------------------

  class LibraryPanel {
    /** primitivesByCategory and the order its keys were inserted in. */
    var primitivesByCategory: map<PrimitiveCategory, seq<PrimitiveInfo>>
    var insertionOrder: seq<PrimitiveCategory>
    /** categoryCombo: its items and SelectedIndex. */
    var comboItems: seq<string>
    var selectedIndex: int
    /** searchBox.Text. */
    var searchText: string
    /** The primitive behind each button of primitivesFlow, in order. */
    var shown: seq<PrimitiveInfo>

    /** Every key in the enumeration order is in the dictionary, and the
        combo box holds "All" and the display names, with a valid selection.
        The dictionary itself is the catalogue from the constructor on: no
        method other than the constructor's may modify it. */
    ghost predicate Valid()
      reads this
    {
      (forall k :: k in insertionOrder ==> k in primitivesByCategory) &&
      comboItems == ComboItems() && 0 <= selectedIndex < |comboItems|
    }

    /** The buttons match the current selection and search text. */
    ghost predicate UpToDate()
      reads this
      requires Valid()
    {
      shown == Shown(primitivesByCategory, insertionOrder, comboItems, selectedIndex, searchText)
    }

    /** The buttons can fall behind only while the box holds the
        placeholder, the one text whose TextChanged does not repopulate.
        The constructor establishes this and every handler keeps it. */
    ghost predicate Coherent()
      reads this
    {
      Valid() && (searchText != Placeholder ==> UpToDate())
    }

    /** Starts on "All" with the placeholder in the search box, showing the
        whole catalogue. */
    constructor ()
      ensures Valid() && UpToDate() && Coherent()
      ensures primitivesByCategory == Catalogue() && insertionOrder == Categories
      ensures selectedIndex == 0 && searchText == Placeholder
    {
      primitivesByCategory := map[];
      insertionOrder := [];
      new;
      InitializeComponent();
      InitializePrimitives();
      PopulatePrimitives();
    }

    /** InitializeComponent: the search box starts with the placeholder,
        the combo box with "All" selected, and the flow panel empty. */
    method InitializeComponent()
      modifies this`searchText, this`comboItems, this`selectedIndex, this`shown
      ensures searchText == Placeholder && shown == []
      ensures comboItems == ComboItems() && selectedIndex == 0
    {
      searchText := Placeholder;
      CreateCategoryCombo();
      shown := [];
    }

    /** The dictionary indexer's setter: a new key goes to the end of the
        enumeration order, an existing one keeps its place. */
    method Put(key: PrimitiveCategory, list: seq<PrimitiveInfo>)
      modifies this`primitivesByCategory, this`insertionOrder
      ensures primitivesByCategory == old(primitivesByCategory)[key := list]
      ensures key in old(primitivesByCategory) ==> insertionOrder == old(insertionOrder)
      ensures key !in old(primitivesByCategory) ==> insertionOrder == old(insertionOrder) + [key]
    {
      if key !in primitivesByCategory {
        insertionOrder := insertionOrder + [key];
      }
      primitivesByCategory := primitivesByCategory[key := list];
    }

    /** Fills the empty dictionary with the six lists, in category order. */
    method InitializePrimitives()
      requires primitivesByCategory == map[] && insertionOrder == []
      modifies this`primitivesByCategory, this`insertionOrder
      ensures primitivesByCategory == Catalogue() && insertionOrder == Categories
    {
      Put(BasicShapes, CategoryList(BasicShapes));
      Put(Curves, CategoryList(Curves));
      Put(Surfaces, CategoryList(Surfaces));
      Put(ComplexObjects, CategoryList(ComplexObjects));
      Put(Materials, CategoryList(Materials));
      Put(Lights, CategoryList(Lights));
    }

    /** Adds "All" and then every display name, and selects "All". */
    method CreateCategoryCombo()
      modifies this`comboItems, this`selectedIndex
      ensures comboItems == ComboItems() && selectedIndex == 0
    {
      comboItems := ["All"];
      for i := 0 to |Categories|
        invariant |comboItems| == i + 1 && comboItems[0] == "All"
        invariant forall j :: 1 <= j <= i ==> comboItems[j] == DisplayName(Categories[j - 1])
      {
        comboItems := comboItems + [DisplayName(Categories[i])];
      }
      selectedIndex := 0;
    }

    /** GetSelectedCategory. */
    method GetSelectedCategory() returns (r: Option<PrimitiveCategory>)
      requires 0 <= selectedIndex < |comboItems|
      ensures r == SelectedCategoryOf(comboItems, selectedIndex)
    {
      if selectedIndex == 0 {
        return None;
      }
      var categoryName := comboItems[selectedIndex];
      r := FindCategory(Categories, categoryName);
    }

    /** GetFilteredPrimitives: collect the category's list, or every list in
        enumeration order, then keep what the search text matches. */
    method GetFilteredPrimitives(category: Option<PrimitiveCategory>, text: string)
      returns (r: seq<PrimitiveInfo>)
      requires forall k :: k in insertionOrder ==> k in primitivesByCategory
      ensures r == Filtered(Unfiltered(primitivesByCategory, insertionOrder, category), text)
    {
      var allPrimitives: seq<PrimitiveInfo> := [];
      if category.Some? {
        if category.value in primitivesByCategory {
          allPrimitives := allPrimitives + primitivesByCategory[category.value];
          assert allPrimitives == primitivesByCategory[category.value];
        }
      } else {
        var i := 0;
        while i < |insertionOrder|
          invariant 0 <= i <= |insertionOrder|
          invariant allPrimitives + Values(primitivesByCategory, insertionOrder[i..]) ==
                    Values(primitivesByCategory, insertionOrder)
        {
          assert insertionOrder[i..][1..] == insertionOrder[i + 1..];
          allPrimitives := allPrimitives + primitivesByCategory[insertionOrder[i]];
          i := i + 1;
        }
        assert insertionOrder[i..] == [];
        assert allPrimitives + [] == allPrimitives;
      }
      if text != "" {
        allPrimitives := Where(allPrimitives, text);
      }
      r := allPrimitives;
    }

    /** PopulatePrimitives: one button per primitive to show, in order. */
    method PopulatePrimitives()
      requires Valid()
      modifies this`shown
      ensures Valid() && UpToDate()
    {
      var selectedCategory := GetSelectedCategory();
      var text := SearchTextOf(searchText);
      shown := GetFilteredPrimitives(selectedCategory, text);
    }

    method RefreshPrimitives()
      requires Valid()
      modifies this`shown
      ensures Valid() && UpToDate()
    {
      PopulatePrimitives();
    }

    /** OnSearchTextChanged: the placeholder does not repopulate. */
    method OnSearchTextChanged()
      requires Valid()
      modifies this`shown
      ensures Valid()
      ensures searchText != Placeholder ==> UpToDate()
      ensures searchText == Placeholder ==> shown == old(shown)
    {
      if searchText != Placeholder {
        PopulatePrimitives();
      }
    }

    /** The search box's Text setter: TextChanged fires only when the text
        actually changes. */
    method SetSearchText(text: string)
      requires Valid()
      modifies this`searchText, this`shown
      ensures Valid() && searchText == text
      ensures old(searchText) == text ==> shown == old(shown)
      ensures old(searchText) != text && text != Placeholder ==> UpToDate()
      ensures old(searchText) != text && text == Placeholder ==> shown == old(shown)
    {
      if searchText != text {
        searchText := text;
        OnSearchTextChanged();
      }
    }

    /** The user types into the search box.  The buttons follow the text,
        except when the text typed is the placeholder itself, which leaves
        the previous buttons in place. */
    method UserTypes(text: string)
      requires Coherent()
      modifies this`searchText, this`shown
      ensures Coherent() && searchText == text
      ensures text != Placeholder ==> UpToDate()
      ensures text == Placeholder ==> shown == old(shown)
    {
      SetSearchText(text);
    }

    /** OnSearchBoxEnter: the placeholder gives way to an empty box, and
        the buttons are recomputed for the empty search. */
    method OnSearchBoxEnter()
      requires Coherent()
      modifies this`searchText, this`shown
      ensures Coherent() && UpToDate()
      ensures searchText == if old(searchText) == Placeholder then "" else old(searchText)
    {
      if searchText == Placeholder {
        SetSearchText("");
      }
    }

    /** OnSearchBoxLeave: an empty box shows the placeholder again, which
        does not repopulate and needs not: both mean an empty search. */
    method OnSearchBoxLeave()
      requires Coherent()
      modifies this`searchText, this`shown
      ensures Coherent() && shown == old(shown)
      ensures old(UpToDate()) ==> UpToDate()
      ensures searchText == if old(searchText) == "" then Placeholder else old(searchText)
    {
      if searchText == "" {
        SetSearchText(Placeholder);
      }
    }

    /** The combo box's SelectedIndex setter: SelectedIndexChanged, and so
        OnCategoryChanged, fires only when the index changes. */
    method SetSelectedIndex(i: int)
      requires Valid() && 0 <= i < |comboItems|
      modifies this`selectedIndex, this`shown
      ensures Valid() && selectedIndex == i
      ensures old(selectedIndex) != i ==> UpToDate()
      ensures old(selectedIndex) == i ==> shown == old(shown)
    {
      if selectedIndex != i {
        selectedIndex := i;
        OnCategoryChanged();
      }
    }

    method OnCategoryChanged()
      requires Valid()
      modifies this`shown
      ensures Valid() && UpToDate()
    {
      PopulatePrimitives();
    }

    /** SelectCategory: select the item carrying the category's display
        name; the category is then the selected one. */
    method SelectCategory(category: PrimitiveCategory)
      requires Coherent()
      modifies this`selectedIndex, this`shown
      ensures Coherent()
      ensures old(selectedIndex) != selectedIndex || old(UpToDate()) ==> UpToDate()
      ensures SelectedCategoryOf(comboItems, selectedIndex) == Some(category)
    {
      var displayName := DisplayName(category);
      ComboIndexOfCategory(category);
      SetSelectedIndex(IndexOfItem(comboItems, displayName));
    }

    /** ClearSearch: empty the box and show the unfiltered list. */
    method ClearSearch()
      requires Valid()
      modifies this`searchText, this`shown
      ensures Valid() && UpToDate() && searchText == ""
      ensures shown == Unfiltered(primitivesByCategory, insertionOrder,
                                  SelectedCategoryOf(comboItems, selectedIndex))
    {
      SetSearchText("");
      PopulatePrimitives();
    }

    /** OnPrimitiveButtonClick: a click on the button at `button` raises
        PrimitiveSelected with that button's primitive, and so with a
        primitive the panel currently shows; anything else raises nothing. */
    method OnPrimitiveButtonClick(button: int) returns (raised: Option<PrimitiveInfo>)
      ensures raised.Some? <==> 0 <= button < |shown|
      ensures raised.Some? ==> raised.value == shown[button] && raised.value in shown
    {
      if 0 <= button < |shown| {
        return Some(shown[button]);
      }
      return None;
    }
  }
}
