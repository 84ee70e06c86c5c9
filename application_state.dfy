/**
 * The editor's application state (ApplicationState): document, selection,
 * operation and tool flags moved by named events.
 *
 * The class keeps the seven fields the source updates in place; AppState is
 * their value, and each event has a function on values that the method is
 * proved against.  The two invariants the events keep, "unsaved changes
 * imply an open document" and "a modifiable selection is a selection", are
 * stated on values and proved for every event.
 */
module ApplicationStates {
  import opened Wrappers

  /** ToolType, in declaration order. */
  datatype ToolType =
    | Select | Move | Rotate | Scale
    | CreateVertex | CreateEdge | CreateFace
    | Extrude | Measure | AddPrimitive

  /** A snapshot of the seven properties.  A null path is None. */
  datatype AppState = AppState(
    hasOpenDocument: bool,
    hasUnsavedChanges: bool,
    isOperationInProgress: bool,
    hasSelection: bool,
    canModifySelection: bool,
    currentTool: ToolType,
    currentDocumentPath: Option<string>)

  /** The state Reset establishes: nothing open, nothing selected. */
  function Initial(): (s: AppState)
    ensures Inv(s)
    ensures !s.hasOpenDocument && !s.hasUnsavedChanges && !s.isOperationInProgress
    ensures !s.hasSelection && !s.canModifySelection
    ensures s.currentTool == Select && s.currentDocumentPath == None
  {
    AppState(false, false, false, false, false, Select, None)
  }

  /** Unsaved changes belong to an open document, and only a selection can
      be modifiable. */
  predicate Inv(s: AppState) {
    (s.hasUnsavedChanges ==> s.hasOpenDocument) &&
    (s.canModifySelection ==> s.hasSelection)
  }

  // ---------------------------------------------------------------------
  // One function per event, on values
  // ---------------------------------------------------------------------

  function Opened(s: AppState, path: Option<string>): AppState {
    s.(hasOpenDocument := true, hasUnsavedChanges := false, currentDocumentPath := path)
  }

  function Modified(s: AppState): AppState {
    if s.hasOpenDocument then s.(hasUnsavedChanges := true) else s
  }

  function Saved(s: AppState, path: Option<string>): AppState {
    if s.hasOpenDocument then s.(hasUnsavedChanges := false, currentDocumentPath := path) else s
  }

  function OperationStartedIn(s: AppState): AppState {
    s.(isOperationInProgress := true)
  }

  function OperationCompletedIn(s: AppState): AppState {
    s.(isOperationInProgress := false)
  }

  function SelectionChangedIn(s: AppState, hasSelection: bool, canModify: bool): AppState {
    s.(hasSelection := hasSelection, canModifySelection := canModify && hasSelection)
  }

  function ToolSelectedIn(s: AppState, tool: ToolType): AppState {
    s.(currentTool := tool)
  }

  /** The events of the state machine, DocumentClosed included. */
  datatype Event =
    | ResetEvent
    | OpenedEvent(path: Option<string>)
    | ModifiedEvent
    | SavedEvent(path: Option<string>)
    | ClosedEvent
    | OperationStartedEvent
    | OperationCompletedEvent
    | SelectionChangedEvent(hasSelection: bool, canModify: bool)
    | ToolSelectedEvent(tool: ToolType)

  /** DocumentClosed is Reset. */
  function Step(s: AppState, e: Event): AppState {
    match e
    case ResetEvent => Initial()
    case OpenedEvent(p) => Opened(s, p)
    case ModifiedEvent => Modified(s)
    case SavedEvent(p) => Saved(s, p)
    case ClosedEvent => Initial()
    case OperationStartedEvent => OperationStartedIn(s)
    case OperationCompletedEvent => OperationCompletedIn(s)
    case SelectionChangedEvent(h, c) => SelectionChangedIn(s, h, c)
    case ToolSelectedEvent(t) => ToolSelectedIn(s, t)
  }

  /** The state after a run of events. */
  function Run(s: AppState, es: seq<Event>): AppState
    decreases |es|
  {
    if es == [] then s else Run(Step(s, es[0]), es[1..])
  }

  // ---------------------------------------------------------------------
  // Properties of the events
  // ---------------------------------------------------------------------

  /** Every event keeps both invariants. */
  lemma StepKeepsInv(s: AppState, e: Event)
    requires Inv(s)
    ensures Inv(Step(s, e))
  {
  }

  /** From the initial state, every run of events keeps both invariants. */
  lemma {:induction false} RunKeepsInv(s: AppState, es: seq<Event>)
    requires Inv(s)
    ensures Inv(Run(s, es))
    decreases |es|
  {
    if es != [] {
      StepKeepsInv(s, es[0]);
      RunKeepsInv(Step(s, es[0]), es[1..]);
    }
  }

  /** DocumentOpened opens the document with no unsaved changes and records
      the path, even a null one; nothing else changes. */
  lemma OpenedEffect(s: AppState, path: Option<string>)
    ensures var r := Opened(s, path);
      r.hasOpenDocument && !r.hasUnsavedChanges && r.currentDocumentPath == path &&
      r.isOperationInProgress == s.isOperationInProgress &&
      r.hasSelection == s.hasSelection && r.canModifySelection == s.canModifySelection &&
      r.currentTool == s.currentTool
  {
  }

  /** DocumentModified marks unsaved changes exactly when a document is open;
      without one it changes nothing. */
  lemma ModifiedEffect(s: AppState)
    ensures !s.hasOpenDocument ==> Modified(s) == s
    ensures Modified(s).hasUnsavedChanges <==> s.hasOpenDocument || s.hasUnsavedChanges
    ensures Modified(s).(hasUnsavedChanges := s.hasUnsavedChanges) == s
  {
  }

  /** DocumentSaved without an open document changes nothing; with one it
      clears the unsaved flag and records the path. */
  lemma SavedEffect(s: AppState, path: Option<string>)
    ensures !s.hasOpenDocument ==> Saved(s, path) == s
    ensures s.hasOpenDocument ==>
      !Saved(s, path).hasUnsavedChanges && Saved(s, path).currentDocumentPath == path &&
      Saved(s, path).(hasUnsavedChanges := s.hasUnsavedChanges,
                      currentDocumentPath := s.currentDocumentPath) == s
  {
  }

  /** After SelectionChanged(h, c) the selection flag is h and the selection
      is modifiable exactly when c and h both hold. */
  lemma SelectionChangedEffect(s: AppState, h: bool, c: bool)
    ensures SelectionChangedIn(s, h, c).hasSelection == h
    ensures SelectionChangedIn(s, h, c).canModifySelection <==> c && h
    ensures Inv(s) ==> Inv(SelectionChangedIn(s, h, c))
  {
  }

  /** The operation events and ToolSelected touch only their own field. */
  lemma OwnFieldOnly(s: AppState, t: ToolType)
    ensures OperationStartedIn(s).isOperationInProgress
    ensures !OperationCompletedIn(s).isOperationInProgress
    ensures OperationStartedIn(s).(isOperationInProgress := s.isOperationInProgress) == s
    ensures OperationCompletedIn(s).(isOperationInProgress := s.isOperationInProgress) == s
    ensures ToolSelectedIn(s, t).currentTool == t
    ensures ToolSelectedIn(s, t).(currentTool := s.currentTool) == s
  {
  }

  /** DocumentClosed forgets everything: the state it leaves does not depend
      on the state before. */
  lemma ClosedForgets(s: AppState, s': AppState)
    ensures Step(s, ClosedEvent) == Step(s', ClosedEvent) == Initial()
  {
  }

  /** Saving right after opening, or modifying twice, is the same as doing
      it once: the document events are idempotent. */
  lemma DocumentEventsIdempotent(s: AppState, p: Option<string>)
    ensures Modified(Modified(s)) == Modified(s)
    ensures Saved(Saved(s, p), p) == Saved(s, p)
    ensures Opened(Opened(s, p), p) == Opened(s, p)
  {
  }

  // ---------------------------------------------------------------------
  // The object the source updates in place
  // ---------------------------------------------------------------------

  class ApplicationState {
    var hasOpenDocument: bool
    var hasUnsavedChanges: bool
    var isOperationInProgress: bool
    var hasSelection: bool
    var canModifySelection: bool
    var currentTool: ToolType
    var currentDocumentPath: Option<string>

    /** The object's properties as a value. */
    function Value(): AppState
      reads this
    {
      AppState(hasOpenDocument, hasUnsavedChanges, isOperationInProgress,
               hasSelection, canModifySelection, currentTool, currentDocumentPath)
    }

    constructor ()
      ensures Value() == Initial()
    {
      hasOpenDocument := false;
      hasUnsavedChanges := false;
      isOperationInProgress := false;
      hasSelection := false;
      canModifySelection := false;
      currentTool := Select;
      currentDocumentPath := None;
    }

    method Reset()
      modifies this
      ensures Value() == Initial()
    {
      hasOpenDocument := false;
      hasUnsavedChanges := false;
      isOperationInProgress := false;
      hasSelection := false;
      canModifySelection := false;
      currentTool := Select;
      currentDocumentPath := None;
    }

    method DocumentOpened(documentPath: Option<string>)
      modifies this
      ensures Value() == Opened(old(Value()), documentPath)
    {
      hasOpenDocument := true;
      hasUnsavedChanges := false;
      currentDocumentPath := documentPath;
    }

    method DocumentModified()
      modifies this
      ensures Value() == Modified(old(Value()))
    {
      if hasOpenDocument {
        hasUnsavedChanges := true;
      }
    }

    method DocumentSaved(documentPath: Option<string>)
      modifies this
      ensures Value() == Saved(old(Value()), documentPath)
    {
      if hasOpenDocument {
        hasUnsavedChanges := false;
        currentDocumentPath := documentPath;
      }
    }

    method DocumentClosed()
      modifies this
      ensures Value() == Step(old(Value()), ClosedEvent)
    {
      Reset();
    }

    method OperationStarted()
      modifies this
      ensures Value() == OperationStartedIn(old(Value()))
    {
      isOperationInProgress := true;
    }

    method OperationCompleted()
      modifies this
      ensures Value() == OperationCompletedIn(old(Value()))
    {
      isOperationInProgress := false;
    }

    method SelectionChanged(hasSelection: bool, canModify: bool)
      modifies this
      ensures Value() == SelectionChangedIn(old(Value()), hasSelection, canModify)
    {
      this.hasSelection := hasSelection;
      this.canModifySelection := canModify && hasSelection;
    }

    method ToolSelected(tool: ToolType)
      modifies this
      ensures Value() == ToolSelectedIn(old(Value()), tool)
    {
      currentTool := tool;
    }
  }
}
