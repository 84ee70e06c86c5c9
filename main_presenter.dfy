/**
 * MainPresenter: the document flow of the main window (new, open, save,
 * save as, the save-changes prompt) over ApplicationState, and the handlers
 * that forward scene-service events to that state.
 *
 * The main view, the scene service and the file service are oracles.  What
 * they answer during one handler (the button chosen in the save-changes
 * dialog, the paths chosen in the file dialogs, whether opening or saving
 * throws and with which message) is an Answers value given to the handler;
 * every call the presenter makes on them is recorded in `calls`.  Each
 * handler is proved against a function on values that gives the new
 * application state and the calls made.
 */
module MainPresenters {
  import opened Wrappers
  import opened ApplicationStates
  import SceneObjects

  /** System.Windows.Forms.DialogResult. */
  datatype DialogResult = NoResult | OK | Cancel | Abort | Retry | Ignore | Yes | No | TryAgain | Continue

  /** What the oracles answer during one handler.  A null path is None; a
      failed file operation is the message of the exception it throws. */
  datatype Answers = Answers(
    saveChangesChoice: DialogResult,
    openDialogPath: Option<string>,
    saveDialogPath: Option<string>,
    openFailure: Option<string>,
    saveFailure: Option<string>)

  /** One call on IMainView, ISceneService, IFileService or a child
      presenter. */
  datatype Call =
    | UpdateTitle(title: Option<string>)
    | UpdateCommandState(shown: AppState)
    | ShowError(message: string)
    | ShowSaveChangesDialog
    | ShowOpenFileDialog
    | ShowSaveFileDialog
    | CreateNewScene
    | OpenFile(openPath: string)
    | SaveFile(savePath: string)
    | SetSelection(selected: Option<SceneObjects.Id>)
    | UpdateCamera
    | SetActiveTool(tool: ToolType)

  /** The application state after a handler and the calls it made. */
  datatype Outcome = Outcome(state: AppState, calls: seq<Call>)

  /** string.IsNullOrEmpty. */
  predicate IsNullOrEmpty(s: Option<string>) {
    s.None? || s.value == ""
  }

  /** The constructor's argument checks, in order: the name of the first
      missing argument, which ArgumentNullException carries, or None when
      all three are present. */
  function MissingArgument(hasView: bool, hasSceneService: bool, hasFileService: bool): (r: Option<string>)
    ensures r.None? <==> hasView && hasSceneService && hasFileService
    ensures r == Some("view") <==> !hasView
    ensures r == Some("sceneService") <==> hasView && !hasSceneService
    ensures r == Some("fileService") <==> hasView && hasSceneService && !hasFileService
  {
    if !hasView then Some("view")
    else if !hasSceneService then Some("sceneService")
    else if !hasFileService then Some("fileService")
    else None
  }

  // ---------------------------------------------------------------------
  // The handlers on values
  // ---------------------------------------------------------------------

  /** UpdateViewState: the title from the path, then the whole state. */
  function ViewStateCalls(s: AppState): seq<Call> {
    [UpdateTitle(s.currentDocumentPath), UpdateCommandState(s)]
  }

  function SaveDocumentOutcome(s: AppState, path: string, a: Answers): Outcome {
    if a.saveFailure.None? then
      var s' := Saved(s, Some(path));
      Outcome(s', [SaveFile(path)] + ViewStateCalls(s'))
    else
      Outcome(s, [SaveFile(path), ShowError("Failed to save file: " + a.saveFailure.value)])
  }

  function SaveAsOutcome(s: AppState, a: Answers): Outcome {
    if IsNullOrEmpty(a.saveDialogPath) then Outcome(s, [ShowSaveFileDialog])
    else
      var o := SaveDocumentOutcome(s, a.saveDialogPath.value, a);
      Outcome(o.state, [ShowSaveFileDialog] + o.calls)
  }

  function SaveOutcome(s: AppState, a: Answers): Outcome {
    if IsNullOrEmpty(s.currentDocumentPath) then SaveAsOutcome(s, a)
    else SaveDocumentOutcome(s, s.currentDocumentPath.value, a)
  }

  /** PromptSaveChanges: whether the caller may go on, and its effect. */
  function PromptOutcome(s: AppState, a: Answers): (bool, Outcome) {
    if !s.hasUnsavedChanges then (true, Outcome(s, []))
    else if a.saveChangesChoice == Yes then
      var o := SaveOutcome(s, a);
      (!o.state.hasUnsavedChanges, Outcome(o.state, [ShowSaveChangesDialog] + o.calls))
    else (a.saveChangesChoice != Cancel, Outcome(s, [ShowSaveChangesDialog]))
  }

  function NewOutcome(s: AppState, a: Answers): Outcome {
    var (proceed, o) := PromptOutcome(s, a);
    if proceed then
      var s' := Opened(o.state, None);
      Outcome(s', o.calls + [CreateNewScene] + ViewStateCalls(s'))
    else o
  }

  function OpenOutcome(s: AppState, a: Answers): Outcome {
    var (proceed, o) := PromptOutcome(s, a);
    if !proceed then o
    else if IsNullOrEmpty(a.openDialogPath) then Outcome(o.state, o.calls + [ShowOpenFileDialog])
    else
      var path := a.openDialogPath.value;
      if a.openFailure.None? then
        var s' := Opened(o.state, Some(path));
        Outcome(s', o.calls + [ShowOpenFileDialog, OpenFile(path)] + ViewStateCalls(s'))
      else
        Outcome(o.state, o.calls + [ShowOpenFileDialog, OpenFile(path),
                                    ShowError("Failed to open file: " + a.openFailure.value)])
  }

  // ---------------------------------------------------------------------
  // Properties of the document flow
  // ---------------------------------------------------------------------

  /** Without unsaved changes the prompt lets the caller go on and shows
      nothing. */
  lemma PromptWithoutChanges(s: AppState, a: Answers)
    requires !s.hasUnsavedChanges
    ensures PromptOutcome(s, a) == (true, Outcome(s, []))
  {
  }

  /** With unsaved changes: Cancel stops the caller, any other answer but
      Yes lets it go on with the state untouched, and Yes lets it go on
      exactly when saving cleared the unsaved flag. */
  lemma PromptWithChanges(s: AppState, a: Answers)
    requires s.hasUnsavedChanges
    ensures a.saveChangesChoice == Cancel ==> PromptOutcome(s, a) == (false, Outcome(s, [ShowSaveChangesDialog]))
    ensures a.saveChangesChoice != Cancel && a.saveChangesChoice != Yes ==>
      PromptOutcome(s, a) == (true, Outcome(s, [ShowSaveChangesDialog]))
    ensures a.saveChangesChoice == Yes ==>
      PromptOutcome(s, a).0 == !PromptOutcome(s, a).1.state.hasUnsavedChanges
  {
  }

  /** Answering Yes with a document open goes on exactly when a path is
      known (the current one, or one chosen in the save dialog) and saving
      it does not throw. */
  lemma {:induction false} PromptYesSucceedsIff(s: AppState, a: Answers)
    requires Inv(s) && s.hasUnsavedChanges && a.saveChangesChoice == Yes
    ensures PromptOutcome(s, a).0 <==>
      (!IsNullOrEmpty(s.currentDocumentPath) || !IsNullOrEmpty(a.saveDialogPath)) && a.saveFailure.None?
  {
    assert s.hasOpenDocument;
    if IsNullOrEmpty(s.currentDocumentPath) {
      if IsNullOrEmpty(a.saveDialogPath) {
        assert SaveOutcome(s, a).state == s;
      } else {
        assert SaveOutcome(s, a) == SaveAsOutcome(s, a);
      }
    }
  }

  /** Save with no current path goes through Save As; Save As with an empty
      answer from the dialog changes nothing. */
  lemma SaveWithoutPath(s: AppState, a: Answers)
    requires IsNullOrEmpty(s.currentDocumentPath)
    ensures SaveOutcome(s, a) == SaveAsOutcome(s, a)
    ensures IsNullOrEmpty(a.saveDialogPath) ==> SaveOutcome(s, a) == Outcome(s, [ShowSaveFileDialog])
  {
  }

  /** A failed save or open only shows an error: the state is what it was
      before the file operation. */
  lemma FailureOnlyShowsError(s: AppState, path: string, a: Answers)
    ensures a.saveFailure.Some? ==> SaveDocumentOutcome(s, path, a).state == s
    ensures a.saveFailure.Some? ==>
      SaveDocumentOutcome(s, path, a).calls[|SaveDocumentOutcome(s, path, a).calls| - 1] ==
      ShowError("Failed to save file: " + a.saveFailure.value)
    ensures a.openFailure.Some? ==> OpenOutcome(s, a).state == PromptOutcome(s, a).1.state
  {
  }

  /** A New that goes ahead leaves an open document with no unsaved changes
      and no path. */
  lemma NewOpensUntitled(s: AppState, a: Answers)
    requires PromptOutcome(s, a).0
    ensures var r := NewOutcome(s, a).state;
      r.hasOpenDocument && !r.hasUnsavedChanges && r.currentDocumentPath == None
  {
  }

  /** Open with an empty answer from the dialog changes nothing beyond what
      the prompt did; a successful one records the chosen path. */
  lemma OpenEffect(s: AppState, a: Answers)
    requires PromptOutcome(s, a).0
    ensures IsNullOrEmpty(a.openDialogPath) ==> OpenOutcome(s, a).state == PromptOutcome(s, a).1.state
    ensures !IsNullOrEmpty(a.openDialogPath) && a.openFailure.None? ==>
      var r := OpenOutcome(s, a).state;
      r.hasOpenDocument && !r.hasUnsavedChanges && r.currentDocumentPath == a.openDialogPath
  {
  }

  /** The presenter keeps both invariants of the application state. */
  lemma {:induction false} DocumentFlowKeepsInv(s: AppState, a: Answers)
    requires Inv(s)
    ensures Inv(PromptOutcome(s, a).1.state)
    ensures Inv(NewOutcome(s, a).state)
    ensures Inv(OpenOutcome(s, a).state)
    ensures Inv(SaveOutcome(s, a).state)
  {
    var o := SaveOutcome(s, a);
    assert Inv(o.state) by {
      if IsNullOrEmpty(s.currentDocumentPath) && IsNullOrEmpty(a.saveDialogPath) {
        assert o.state == s;
      }
    }
  }

  // ---------------------------------------------------------------------
  // The presenter
  // ---------------------------------------------------------------------

  class MainPresenter {
    const state: ApplicationState
    /** Every call made on the view, the services and the child presenters. */
    var calls: seq<Call>

    /** The argument checks are the non-null parameter types here; see
        MissingArgument.  The child presenters are not part of this model. */
    constructor ()
      ensures fresh(state) && state.Value() == Initial() && calls == []
    {
      state := new ApplicationState();
      calls := [];
    }

    method UpdateViewState()
      modifies this`calls
      ensures calls == old(calls) + ViewStateCalls(state.Value())
    {
      calls := calls + [UpdateTitle(state.currentDocumentPath), UpdateCommandState(state.Value())];
    }

    method OnViewLoaded()
      modifies this`calls
      ensures calls == old(calls) + ViewStateCalls(state.Value())
    {
      UpdateViewState();
    }

    method SaveDocument(filePath: string, a: Answers)
      modifies this`calls, state
      ensures state.Value() == SaveDocumentOutcome(old(state.Value()), filePath, a).state
      ensures calls == old(calls) + SaveDocumentOutcome(old(state.Value()), filePath, a).calls
    {
      calls := calls + [SaveFile(filePath)];
      if a.saveFailure.None? {
        state.DocumentSaved(Some(filePath));
        UpdateViewState();
      } else {
        calls := calls + [ShowError("Failed to save file: " + a.saveFailure.value)];
      }
    }

    method OnSaveAsRequested(a: Answers)
      modifies this`calls, state
      ensures state.Value() == SaveAsOutcome(old(state.Value()), a).state
      ensures calls == old(calls) + SaveAsOutcome(old(state.Value()), a).calls
    {
      calls := calls + [ShowSaveFileDialog];
      var filePath := a.saveDialogPath;
      if !IsNullOrEmpty(filePath) {
        SaveDocument(filePath.value, a);
      }
    }

    method OnSaveRequested(a: Answers)
      modifies this`calls, state
      ensures state.Value() == SaveOutcome(old(state.Value()), a).state
      ensures calls == old(calls) + SaveOutcome(old(state.Value()), a).calls
    {
      if IsNullOrEmpty(state.currentDocumentPath) {
        OnSaveAsRequested(a);
      } else {
        SaveDocument(state.currentDocumentPath.value, a);
      }
    }

    method PromptSaveChanges(a: Answers) returns (proceed: bool)
      modifies this`calls, state
      ensures proceed == PromptOutcome(old(state.Value()), a).0
      ensures state.Value() == PromptOutcome(old(state.Value()), a).1.state
      ensures calls == old(calls) + PromptOutcome(old(state.Value()), a).1.calls
    {
      if state.hasUnsavedChanges {
        calls := calls + [ShowSaveChangesDialog];
        var result := a.saveChangesChoice;
        if result == Yes {
          OnSaveRequested(a);
          return !state.hasUnsavedChanges;
        }
        return result != Cancel;
      }
      return true;
    }

    method OnNewFileRequested(a: Answers)
      modifies this`calls, state
      ensures state.Value() == NewOutcome(old(state.Value()), a).state
      ensures calls == old(calls) + NewOutcome(old(state.Value()), a).calls
    {
      var proceed := PromptSaveChanges(a);
      if proceed {
        calls := calls + [CreateNewScene];
        state.DocumentOpened(None);
        UpdateViewState();
      }
    }

    method OnOpenFileRequested(a: Answers)
      modifies this`calls, state
      ensures state.Value() == OpenOutcome(old(state.Value()), a).state
      ensures calls == old(calls) + OpenOutcome(old(state.Value()), a).calls
    {
      var proceed := PromptSaveChanges(a);
      if proceed {
        calls := calls + [ShowOpenFileDialog];
        var filePath := a.openDialogPath;
        if !IsNullOrEmpty(filePath) {
          calls := calls + [OpenFile(filePath.value)];
          if a.openFailure.None? {
            state.DocumentOpened(filePath);
            UpdateViewState();
          } else {
            calls := calls + [ShowError("Failed to open file: " + a.openFailure.value)];
          }
        }
      }
    }

    method OnObjectSelected(selected: Option<SceneObjects.Id>)
      modifies this`calls
      ensures calls == old(calls) + [SetSelection(selected)]
    {
      calls := calls + [SetSelection(selected)];
    }

    /** The camera vectors are floats and are not modelled. */
    method OnCameraMoved()
      modifies this`calls
      ensures calls == old(calls) + [UpdateCamera]
    {
      calls := calls + [UpdateCamera];
    }

    method OnToolSelected(tool: ToolType)
      modifies this`calls, state
      ensures state.Value() == ToolSelectedIn(old(state.Value()), tool)
      ensures calls == old(calls) + [SetActiveTool(tool)] + ViewStateCalls(state.Value())
    {
      state.ToolSelected(tool);
      calls := calls + [SetActiveTool(tool)];
      UpdateViewState();
    }

    /** A scene change marks unsaved changes only when a document is open. */
    method OnSceneChanged()
      modifies this`calls, state
      ensures state.Value() == Modified(old(state.Value()))
      ensures state.hasUnsavedChanges <==> old(state.hasOpenDocument) || old(state.hasUnsavedChanges)
      ensures calls == old(calls) + ViewStateCalls(state.Value())
    {
      state.DocumentModified();
      UpdateViewState();
    }

    method OnSelectionChanged(hasSelection: bool, canModifySelection: bool)
      modifies this`calls, state
      ensures state.Value() == SelectionChangedIn(old(state.Value()), hasSelection, canModifySelection)
      ensures calls == old(calls) + ViewStateCalls(state.Value())
    {
      state.SelectionChanged(hasSelection, canModifySelection);
      UpdateViewState();
    }

    method OnOperationStarted()
      modifies this`calls, state
      ensures state.Value() == OperationStartedIn(old(state.Value()))
      ensures calls == old(calls) + ViewStateCalls(state.Value())
    {
      state.OperationStarted();
      UpdateViewState();
    }

    method OnOperationCompleted()
      modifies this`calls, state
      ensures state.Value() == OperationCompletedIn(old(state.Value()))
      ensures calls == old(calls) + ViewStateCalls(state.Value())
    {
      state.OperationCompleted();
      UpdateViewState();
    }
  }
}
