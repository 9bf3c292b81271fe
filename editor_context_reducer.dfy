/**
 * The editor-context reducer: UI-only state of the editor (the field that
 * should take focus, per-field code-editor history, open/closed property
 * sections, the selected property tab and debugger tab) and the eight
 * actions that update it.
 *
 * Each handler of the source mutates a draft of the state in place; the
 * class `EditorContext` below does the same, one method per handler, and
 * each method is proved against a pure function on `EditorContextState`
 * that says what the handler promises.
 */
module EditorContextReducer {
  import opened Wrappers

  datatype CursorPosition = CursorPosition(line: int, ch: int)

  /** Which parts of the evaluated-value popup are expanded. The source
      names the three flags `type`, `example` and `value`. */
  datatype EvaluatedPopupState = EvaluatedPopupState(typeOpen: bool, exampleOpen: bool, valueOpen: bool)

  /** Either sub-field may be absent independently of the other. */
  datatype CodeEditorContext = CodeEditorContext(
    cursorPosition: Option<CursorPosition>,
    evalPopupState: Option<EvaluatedPopupState>)

  /** The `{}` a handler stores for a key that has no entry yet. */
  const EmptyContext := CodeEditorContext(None, None)

  datatype EditorContextState = EditorContextState(
    focusableField: Option<string>,
    codeEditorHistory: map<string, CodeEditorContext>,
    propertySectionState: map<string, bool>,
    selectedPropertyTabIndex: int,
    selectedDebuggerTab: string)

  const InitialState := EditorContextState(None, map[], map[], 0, "")

  /** JavaScript truthiness of a string that may be undefined:
      `undefined` and `""` are falsy, every other string is truthy. */
  predicate Truthy(key: Option<string>) {
    key.Some? && key.value != ""
  }

  /** The eight actions the reducer handles, named after their action types. */
  datatype Action =
    | SetFocusablePropertyField(path: Option<string>)
    | SetCodeEditorCursorPosition(key: Option<string>, cursorPosition: CursorPosition)
    | SetCodeEditorCursorHistory(history: Option<map<string, CodeEditorContext>>)
    | SetEvalPopupState(key: Option<string>, evalPopupState: EvaluatedPopupState)
    | SetPropertySectionState(key: Option<string>, isOpen: bool)
    | SetAllPropertySectionState(sections: map<string, bool>)
    | SetSelectedPropertyTabIndex(index: int)
    | SetCanvasDebuggerSelectedTab(tab: string)

  /** The actions whose handler returns early on a falsy key. */
  predicate IsKeyed(a: Action) {
    a.SetCodeEditorCursorPosition? || a.SetEvalPopupState? || a.SetPropertySectionState?
  }

  // Which part of the state each action may write.
  predicate MayWriteFocus(a: Action) {
    a.SetFocusablePropertyField? || a.SetCodeEditorCursorPosition?
  }

  predicate MayWriteHistory(a: Action) {
    a.SetCodeEditorCursorPosition? || a.SetCodeEditorCursorHistory? || a.SetEvalPopupState?
  }

  predicate MayWriteSections(a: Action) {
    a.SetPropertySectionState? || a.SetAllPropertySectionState?
  }

  /** The entry stored under `key`, or the empty one the handlers create. */
  function EntryOrEmpty(h: map<string, CodeEditorContext>, key: string): CodeEditorContext {
    if key in h then h[key] else EmptyContext
  }

  // ---------------------------------------------------------------------
  // What each handler does, as a function of the state before it.
  // ---------------------------------------------------------------------

  function SetFocusableField(s: EditorContextState, path: Option<string>): (r: EditorContextState)
    ensures r.focusableField == path
    ensures r.codeEditorHistory == s.codeEditorHistory
    ensures r.propertySectionState == s.propertySectionState
    ensures r.selectedPropertyTabIndex == s.selectedPropertyTabIndex
    ensures r.selectedDebuggerTab == s.selectedDebuggerTab
  {
    s.(focusableField := path)
  }

  function SetCursorPosition(s: EditorContextState, key: Option<string>, pos: CursorPosition): (r: EditorContextState)
    // a falsy key changes nothing at all
    ensures !Truthy(key) ==> r == s
    // otherwise the entry exists afterwards, holds the new cursor and takes the focus
    ensures Truthy(key) ==>
      && key.value in r.codeEditorHistory
      && r.codeEditorHistory[key.value].cursorPosition == Some(pos)
      && r.focusableField == key
    // the entry's popup state is kept, and absent if the entry was created
    ensures Truthy(key) ==>
      r.codeEditorHistory[key.value].evalPopupState ==
        (if key.value in s.codeEditorHistory then s.codeEditorHistory[key.value].evalPopupState else None)
    // no other key is added, removed or changed
    ensures Truthy(key) ==> r.codeEditorHistory.Keys == s.codeEditorHistory.Keys + {key.value}
    ensures forall k :: k in s.codeEditorHistory && Some(k) != key ==> r.codeEditorHistory[k] == s.codeEditorHistory[k]
    ensures r.propertySectionState == s.propertySectionState
    ensures r.selectedPropertyTabIndex == s.selectedPropertyTabIndex
    ensures r.selectedDebuggerTab == s.selectedDebuggerTab
  {
    if !Truthy(key) then s
    else
      var entry := EntryOrEmpty(s.codeEditorHistory, key.value);
      s.(codeEditorHistory := s.codeEditorHistory[key.value := entry.(cursorPosition := Some(pos))],
         focusableField := key)
  }

  function ReplaceCursorHistory(s: EditorContextState, history: Option<map<string, CodeEditorContext>>): (r: EditorContextState)
    // an absent payload leaves an empty history, a present one is taken as it is
    ensures history.None? ==> r.codeEditorHistory == map[]
    ensures history.Some? ==> r.codeEditorHistory == history.value
    ensures r.focusableField == s.focusableField
    ensures r.propertySectionState == s.propertySectionState
    ensures r.selectedPropertyTabIndex == s.selectedPropertyTabIndex
    ensures r.selectedDebuggerTab == s.selectedDebuggerTab
  {
    s.(codeEditorHistory := if history.Some? then history.value else map[])
  }

  function SetEvalPopup(s: EditorContextState, key: Option<string>, popup: EvaluatedPopupState): (r: EditorContextState)
    ensures !Truthy(key) ==> r == s
    ensures Truthy(key) ==>
      && key.value in r.codeEditorHistory
      && r.codeEditorHistory[key.value].evalPopupState == Some(popup)
    // the entry's cursor is kept, and absent if the entry was created
    ensures Truthy(key) ==>
      r.codeEditorHistory[key.value].cursorPosition ==
        (if key.value in s.codeEditorHistory then s.codeEditorHistory[key.value].cursorPosition else None)
    ensures Truthy(key) ==> r.codeEditorHistory.Keys == s.codeEditorHistory.Keys + {key.value}
    ensures forall k :: k in s.codeEditorHistory && Some(k) != key ==> r.codeEditorHistory[k] == s.codeEditorHistory[k]
    // the popup never moves the focus
    ensures r.focusableField == s.focusableField
    ensures r.propertySectionState == s.propertySectionState
    ensures r.selectedPropertyTabIndex == s.selectedPropertyTabIndex
    ensures r.selectedDebuggerTab == s.selectedDebuggerTab
  {
    if !Truthy(key) then s
    else
      var entry := EntryOrEmpty(s.codeEditorHistory, key.value);
      s.(codeEditorHistory := s.codeEditorHistory[key.value := entry.(evalPopupState := Some(popup))])
  }

  function SetSectionOpen(s: EditorContextState, key: Option<string>, isOpen: bool): (r: EditorContextState)
    ensures !Truthy(key) ==> r == s
    ensures Truthy(key) ==> key.value in r.propertySectionState && r.propertySectionState[key.value] == isOpen
    ensures Truthy(key) ==> r.propertySectionState.Keys == s.propertySectionState.Keys + {key.value}
    ensures forall k :: k in s.propertySectionState && Some(k) != key ==> r.propertySectionState[k] == s.propertySectionState[k]
    ensures r.focusableField == s.focusableField
    ensures r.codeEditorHistory == s.codeEditorHistory
    ensures r.selectedPropertyTabIndex == s.selectedPropertyTabIndex
    ensures r.selectedDebuggerTab == s.selectedDebuggerTab
  {
    if !Truthy(key) then s
    else s.(propertySectionState := s.propertySectionState[key.value := isOpen])
  }

  function ReplaceAllSectionState(s: EditorContextState, sections: map<string, bool>): (r: EditorContextState)
    ensures r.propertySectionState == sections
    ensures r.focusableField == s.focusableField
    ensures r.codeEditorHistory == s.codeEditorHistory
    ensures r.selectedPropertyTabIndex == s.selectedPropertyTabIndex
    ensures r.selectedDebuggerTab == s.selectedDebuggerTab
  {
    s.(propertySectionState := sections)
  }

  function SetSelectedTabIndex(s: EditorContextState, index: int): (r: EditorContextState)
    ensures r.selectedPropertyTabIndex == index
    ensures r.focusableField == s.focusableField
    ensures r.codeEditorHistory == s.codeEditorHistory
    ensures r.propertySectionState == s.propertySectionState
    ensures r.selectedDebuggerTab == s.selectedDebuggerTab
  {
    s.(selectedPropertyTabIndex := index)
  }

  function SetSelectedDebuggerTab(s: EditorContextState, tab: string): (r: EditorContextState)
    ensures r.selectedDebuggerTab == tab
    ensures r.focusableField == s.focusableField
    ensures r.codeEditorHistory == s.codeEditorHistory
    ensures r.propertySectionState == s.propertySectionState
    ensures r.selectedPropertyTabIndex == s.selectedPropertyTabIndex
  {
    s.(selectedDebuggerTab := tab)
  }

  /** The reducer: the state after one action. Each action writes only its
      own part of the state, and a keyed action with a falsy key is a no-op. */
  function Reduce(s: EditorContextState, a: Action): (r: EditorContextState)
    ensures !MayWriteFocus(a) ==> r.focusableField == s.focusableField
    ensures !MayWriteHistory(a) ==> r.codeEditorHistory == s.codeEditorHistory
    ensures !MayWriteSections(a) ==> r.propertySectionState == s.propertySectionState
    ensures !a.SetSelectedPropertyTabIndex? ==> r.selectedPropertyTabIndex == s.selectedPropertyTabIndex
    ensures !a.SetCanvasDebuggerSelectedTab? ==> r.selectedDebuggerTab == s.selectedDebuggerTab
    ensures IsKeyed(a) && !Truthy(a.key) ==> r == s
    // only a wholesale replacement can drop a history key
    ensures !a.SetCodeEditorCursorHistory? ==> s.codeEditorHistory.Keys <= r.codeEditorHistory.Keys
  {
    match a
    case SetFocusablePropertyField(path) => SetFocusableField(s, path)
    case SetCodeEditorCursorPosition(key, pos) => SetCursorPosition(s, key, pos)
    case SetCodeEditorCursorHistory(history) => ReplaceCursorHistory(s, history)
    case SetEvalPopupState(key, popup) => SetEvalPopup(s, key, popup)
    case SetPropertySectionState(key, isOpen) => SetSectionOpen(s, key, isOpen)
    case SetAllPropertySectionState(sections) => ReplaceAllSectionState(s, sections)
    case SetSelectedPropertyTabIndex(index) => SetSelectedTabIndex(s, index)
    case SetCanvasDebuggerSelectedTab(tab) => SetSelectedDebuggerTab(s, tab)
  }

  /** The state after the store has applied `acts` in order. A part of the
      state that no action in the run may write is the same at the end. */
  function ReduceAll(s: EditorContextState, acts: seq<Action>): (r: EditorContextState)
    ensures (forall i | 0 <= i < |acts| :: !MayWriteFocus(acts[i])) ==> r.focusableField == s.focusableField
    ensures (forall i | 0 <= i < |acts| :: !MayWriteHistory(acts[i])) ==> r.codeEditorHistory == s.codeEditorHistory
    ensures (forall i | 0 <= i < |acts| :: !MayWriteSections(acts[i])) ==> r.propertySectionState == s.propertySectionState
    ensures (forall i | 0 <= i < |acts| :: !acts[i].SetSelectedPropertyTabIndex?) ==>
              r.selectedPropertyTabIndex == s.selectedPropertyTabIndex
    ensures (forall i | 0 <= i < |acts| :: !acts[i].SetCanvasDebuggerSelectedTab?) ==>
              r.selectedDebuggerTab == s.selectedDebuggerTab
    ensures (forall i | 0 <= i < |acts| :: !acts[i].SetCodeEditorCursorHistory?) ==>
              s.codeEditorHistory.Keys <= r.codeEditorHistory.Keys
    decreases |acts|
  {
    if acts == [] then s
    else
      assert forall i | 0 <= i < |acts| - 1 :: acts[1..][i] == acts[i + 1];
      ReduceAll(Reduce(s, acts[0]), acts[1..])
  }

  // ---------------------------------------------------------------------
  // Properties relating several actions.
  // ---------------------------------------------------------------------

  /** Every action is idempotent: applying it twice is applying it once. */
  lemma ReduceIdempotent(s: EditorContextState, a: Action)
    ensures Reduce(Reduce(s, a), a) == Reduce(s, a)
  {
  }

  /** A cursor update and a popup update commute, whichever keys they carry:
      the entry either one creates is the one the other fills in. */
  lemma CursorAndPopupCommute(s: EditorContextState, k1: Option<string>, pos: CursorPosition,
                              k2: Option<string>, popup: EvaluatedPopupState)
    ensures SetEvalPopup(SetCursorPosition(s, k1, pos), k2, popup)
         == SetCursorPosition(SetEvalPopup(s, k2, popup), k1, pos)
  {
  }

  /** Replacing all section flags with {a: true} and then closing "b"
      leaves exactly {a: true, b: false}. */
  lemma ReplaceThenSetSection(s: EditorContextState)
    ensures Reduce(Reduce(s, SetAllPropertySectionState(map["a" := true])),
                   SetPropertySectionState(Some("b"), false)).propertySectionState
         == map["a" := true, "b" := false]
  {
  }

  // ---------------------------------------------------------------------
  // The handlers as the source writes them: in-place updates of a draft.
  // ---------------------------------------------------------------------

  class EditorContext {
    var focusableField: Option<string>
    var codeEditorHistory: map<string, CodeEditorContext>
    var propertySectionState: map<string, bool>
    var selectedPropertyTabIndex: int
    var selectedDebuggerTab: string

    /** The state value this object currently holds. */
    function Snapshot(): EditorContextState
      reads this
    {
      EditorContextState(focusableField, codeEditorHistory, propertySectionState,
                         selectedPropertyTabIndex, selectedDebuggerTab)
    }

    /** The initial state: no focused field, empty maps, tab 0, debugger tab "". */
    constructor ()
      ensures focusableField == None
      ensures codeEditorHistory == map[] && propertySectionState == map[]
      ensures selectedPropertyTabIndex == 0 && selectedDebuggerTab == ""
      ensures Snapshot() == InitialState
    {
      focusableField := None;
      codeEditorHistory := map[];
      propertySectionState := map[];
      selectedPropertyTabIndex := 0;
      selectedDebuggerTab := "";
    }

    method SetFocusablePropertyField(path: Option<string>)
      modifies this
      ensures Snapshot() == SetFocusableField(old(Snapshot()), path)
    {
      focusableField := path;
    }

    method SetCodeEditorCursorPosition(key: Option<string>, cursorPosition: CursorPosition)
      modifies this
      ensures Snapshot() == SetCursorPosition(old(Snapshot()), key, cursorPosition)
    {
      if !Truthy(key) {
        return;
      }
      var k := key.value;
      if k !in codeEditorHistory {
        codeEditorHistory := codeEditorHistory[k := EmptyContext];
      }
      codeEditorHistory := codeEditorHistory[k := codeEditorHistory[k].(cursorPosition := Some(cursorPosition))];
      focusableField := key;
    }

    method SetCodeEditorCursorHistory(history: Option<map<string, CodeEditorContext>>)
      modifies this
      ensures Snapshot() == ReplaceCursorHistory(old(Snapshot()), history)
    {
      codeEditorHistory := if history.Some? then history.value else map[];
    }

    method SetEvalPopupState(key: Option<string>, evalPopupState: EvaluatedPopupState)
      modifies this
      ensures Snapshot() == SetEvalPopup(old(Snapshot()), key, evalPopupState)
    {
      if !Truthy(key) {
        return;
      }
      var k := key.value;
      if k !in codeEditorHistory {
        codeEditorHistory := codeEditorHistory[k := EmptyContext];
      }
      codeEditorHistory := codeEditorHistory[k := codeEditorHistory[k].(evalPopupState := Some(evalPopupState))];
    }

    method SetPropertySectionState(key: Option<string>, isOpen: bool)
      modifies this
      ensures Snapshot() == SetSectionOpen(old(Snapshot()), key, isOpen)
    {
      if !Truthy(key) {
        return;
      }
      propertySectionState := propertySectionState[key.value := isOpen];
    }

    method SetAllPropertySectionState(sections: map<string, bool>)
      modifies this
      ensures Snapshot() == ReplaceAllSectionState(old(Snapshot()), sections)
    {
      propertySectionState := sections;
    }

    method SetSelectedPropertyTabIndex(index: int)
      modifies this
      ensures Snapshot() == SetSelectedTabIndex(old(Snapshot()), index)
    {
      selectedPropertyTabIndex := index;
    }

    method SetCanvasDebuggerSelectedTab(tab: string)
      modifies this
      ensures Snapshot() == SetSelectedDebuggerTab(old(Snapshot()), tab)
    {
      selectedDebuggerTab := tab;
    }

    /** Runs the handler registered for the action's type. */
    method Dispatch(action: Action)
      modifies this
      ensures Snapshot() == Reduce(old(Snapshot()), action)
    {
      match action
      case SetFocusablePropertyField(path) => SetFocusablePropertyField(path);
      case SetCodeEditorCursorPosition(key, pos) => SetCodeEditorCursorPosition(key, pos);
      case SetCodeEditorCursorHistory(history) => SetCodeEditorCursorHistory(history);
      case SetEvalPopupState(key, popup) => SetEvalPopupState(key, popup);
      case SetPropertySectionState(key, isOpen) => SetPropertySectionState(key, isOpen);
      case SetAllPropertySectionState(sections) => SetAllPropertySectionState(sections);
      case SetSelectedPropertyTabIndex(index) => SetSelectedPropertyTabIndex(index);
      case SetCanvasDebuggerSelectedTab(tab) => SetCanvasDebuggerSelectedTab(tab);
    }
  }
}
