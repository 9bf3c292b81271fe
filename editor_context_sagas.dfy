/**
 * The editor-context sagas: three handlers that take an "intent" carrying an
 * unscoped field path, read the current page id, derive a page-scoped key
 * with `generatePropertyKey`, and emit the matching reducer action only when
 * a key was produced.
 *
 * `generatePropertyKey` is not part of this model; every member below takes
 * it as a parameter and assumes nothing about its format.
 */
module EditorContextSagas {
  import opened Wrappers
  import opened EditorContextReducer

  /** `generatePropertyKey(path, pageId)`, left abstract. */
  type KeyGenerator = (Option<string>, string) -> Option<string>

  /** The three intent action types the sagas listen for. */
  datatype Intent =
    | GenerateKeyAndSetFocusablePropertyFieldIntent(path: Option<string>)
    | GenerateKeyAndSetCursorPositionIntent(key: Option<string>, cursorPosition: CursorPosition)
    | GenerateKeyAndSetEvalPopupStateIntent(key: Option<string>, evalPopupState: EvaluatedPopupState)

  /** An intent together with the page id current when it is handled. */
  datatype Dispatched = Dispatched(intent: Intent, currentPageId: string)

  /** The unscoped path or key an intent carries. */
  function IntentPath(i: Intent): Option<string> {
    if i.GenerateKeyAndSetFocusablePropertyFieldIntent? then i.path else i.key
  }

  // ---------------------------------------------------------------------
  // The three handlers, each a function of its payload and the page id.
  // ---------------------------------------------------------------------

  function GenerateKeyAndSetFocusablePropertyFieldSaga(path: Option<string>, currentPageId: string,
                                                       generatePropertyKey: KeyGenerator): (r: Option<Action>)
    // emits exactly when a truthy key is generated from (path, page id) ...
    ensures r.Some? <==> Truthy(generatePropertyKey(path, currentPageId))
    // ... and then focuses that key
    ensures r.Some? ==> r.value == SetFocusablePropertyField(generatePropertyKey(path, currentPageId))
  {
    var propertyFieldKey := generatePropertyKey(path, currentPageId);
    if Truthy(propertyFieldKey) then Some(SetFocusablePropertyField(propertyFieldKey)) else None
  }

  function GenerateKeyAndSetCursorPosition(key: Option<string>, cursorPosition: CursorPosition,
                                           currentPageId: string, generatePropertyKey: KeyGenerator): (r: Option<Action>)
    ensures r.Some? <==> Truthy(generatePropertyKey(key, currentPageId))
    // the scoped key replaces the unscoped one, the cursor passes through
    ensures r.Some? ==>
      r.value == SetCodeEditorCursorPosition(generatePropertyKey(key, currentPageId), cursorPosition)
  {
    var propertyFieldKey := generatePropertyKey(key, currentPageId);
    if Truthy(propertyFieldKey) then Some(SetCodeEditorCursorPosition(propertyFieldKey, cursorPosition)) else None
  }

  function GenerateKeyAndSetEvalPopupState(key: Option<string>, evalPopupState: EvaluatedPopupState,
                                           currentPageId: string, generatePropertyKey: KeyGenerator): (r: Option<Action>)
    ensures r.Some? <==> Truthy(generatePropertyKey(key, currentPageId))
    ensures r.Some? ==>
      r.value == SetEvalPopupState(generatePropertyKey(key, currentPageId), evalPopupState)
  {
    var propertyFieldKey := generatePropertyKey(key, currentPageId);
    if Truthy(propertyFieldKey) then Some(SetEvalPopupState(propertyFieldKey, evalPopupState)) else None
  }

  /** The page-scoped key an intent resolves to, when it resolves to one. */
  function ScopedKey(e: Dispatched, generatePropertyKey: KeyGenerator): (k: Option<string>)
    ensures k.Some? ==> k.value != "" && k == generatePropertyKey(IntentPath(e.intent), e.currentPageId)
    ensures k.None? ==> !Truthy(generatePropertyKey(IntentPath(e.intent), e.currentPageId))
  {
    var generated := generatePropertyKey(IntentPath(e.intent), e.currentPageId);
    if Truthy(generated) then generated else None
  }

  /** Routes an intent to its handler; at most one action comes out, it
      carries the intent's scoped key, and it is emitted exactly when there
      is such a key. */
  function HandleIntent(e: Dispatched, generatePropertyKey: KeyGenerator): (r: Option<Action>)
    ensures r.Some? <==> ScopedKey(e, generatePropertyKey).Some?
    ensures r.Some? && e.intent.GenerateKeyAndSetFocusablePropertyFieldIntent? ==>
      r.value == SetFocusablePropertyField(ScopedKey(e, generatePropertyKey))
    ensures r.Some? && e.intent.GenerateKeyAndSetCursorPositionIntent? ==>
      r.value == SetCodeEditorCursorPosition(ScopedKey(e, generatePropertyKey), e.intent.cursorPosition)
    ensures r.Some? && e.intent.GenerateKeyAndSetEvalPopupStateIntent? ==>
      r.value == SetEvalPopupState(ScopedKey(e, generatePropertyKey), e.intent.evalPopupState)
  {
    match e.intent
    case GenerateKeyAndSetFocusablePropertyFieldIntent(path) =>
      GenerateKeyAndSetFocusablePropertyFieldSaga(path, e.currentPageId, generatePropertyKey)
    case GenerateKeyAndSetCursorPositionIntent(key, pos) =>
      GenerateKeyAndSetCursorPosition(key, pos, e.currentPageId, generatePropertyKey)
    case GenerateKeyAndSetEvalPopupStateIntent(key, popup) =>
      GenerateKeyAndSetEvalPopupState(key, popup, e.currentPageId, generatePropertyKey)
  }

  // ---------------------------------------------------------------------
  // Handlers composed with the reducer.
  // ---------------------------------------------------------------------

  /** The reducer state after one intent has been handled and whatever it
      emitted has been reduced. */
  function ApplyIntent(s: EditorContextState, e: Dispatched, generatePropertyKey: KeyGenerator): (r: EditorContextState)
    // an intent without a scoped key leaves the state as it was
    ensures ScopedKey(e, generatePropertyKey).None? ==> r == s
    // a focus intent focuses the scoped key
    ensures ScopedKey(e, generatePropertyKey).Some? && e.intent.GenerateKeyAndSetFocusablePropertyFieldIntent? ==>
      r.focusableField == ScopedKey(e, generatePropertyKey) && r.codeEditorHistory == s.codeEditorHistory
    // a cursor intent stores the cursor under the scoped key and focuses it
    ensures var k := ScopedKey(e, generatePropertyKey);
      k.Some? && e.intent.GenerateKeyAndSetCursorPositionIntent? ==>
        && r.focusableField == k
        && k.value in r.codeEditorHistory
        && r.codeEditorHistory[k.value].cursorPosition == Some(e.intent.cursorPosition)
    // a popup intent stores the popup under the scoped key and leaves focus alone
    ensures var k := ScopedKey(e, generatePropertyKey);
      k.Some? && e.intent.GenerateKeyAndSetEvalPopupStateIntent? ==>
        && r.focusableField == s.focusableField
        && k.value in r.codeEditorHistory
        && r.codeEditorHistory[k.value].evalPopupState == Some(e.intent.evalPopupState)
    // no intent touches the section flags or the tabs
    ensures r.propertySectionState == s.propertySectionState
    ensures r.selectedPropertyTabIndex == s.selectedPropertyTabIndex
    ensures r.selectedDebuggerTab == s.selectedDebuggerTab
  {
    match HandleIntent(e, generatePropertyKey)
    case None => s
    case Some(a) => Reduce(s, a)
  }

  /** The scoped keys a run of intents resolves to. */
  function ScopedKeys(events: seq<Dispatched>, generatePropertyKey: KeyGenerator): (keys: set<string>)
    ensures "" !in keys
    decreases |events|
  {
    if events == [] then {}
    else
      var first := ScopedKey(events[0], generatePropertyKey);
      (if first.Some? then {first.value} else {}) + ScopedKeys(events[1..], generatePropertyKey)
  }

  /** The reducer state after a run of intents, handled one after another.
      History keys are only ever added, every added key is a scoped key of
      the run, and the focus is either unchanged or a scoped key of the run. */
  function HandleIntents(s: EditorContextState, events: seq<Dispatched>, generatePropertyKey: KeyGenerator): (r: EditorContextState)
    ensures s.codeEditorHistory.Keys <= r.codeEditorHistory.Keys
    ensures r.codeEditorHistory.Keys <= s.codeEditorHistory.Keys + ScopedKeys(events, generatePropertyKey)
    ensures r.focusableField == s.focusableField
         || (r.focusableField.Some? && r.focusableField.value in ScopedKeys(events, generatePropertyKey))
    ensures r.propertySectionState == s.propertySectionState
    ensures r.selectedPropertyTabIndex == s.selectedPropertyTabIndex
    ensures r.selectedDebuggerTab == s.selectedDebuggerTab
    decreases |events|
  {
    if events == [] then s
    else HandleIntents(ApplyIntent(s, events[0], generatePropertyKey), events[1..], generatePropertyKey)
  }

  /** How many intents of a run resolve to a scoped key. */
  function ScopedCount(events: seq<Dispatched>, generatePropertyKey: KeyGenerator): (n: nat)
    ensures n <= |events|
    decreases |events|
  {
    if events == [] then 0
    else (if ScopedKey(events[0], generatePropertyKey).Some? then 1 else 0)
         + ScopedCount(events[1..], generatePropertyKey)
  }

  /** The actions a run of intents emits, in order: one for each intent that
      resolves to a scoped key, and none for the others. */
  function Emitted(events: seq<Dispatched>, generatePropertyKey: KeyGenerator): (acts: seq<Action>)
    ensures |acts| == ScopedCount(events, generatePropertyKey)
    ensures |acts| <= |events|
    decreases |events|
  {
    if events == [] then []
    else
      match HandleIntent(events[0], generatePropertyKey)
      case None => Emitted(events[1..], generatePropertyKey)
      case Some(a) => [a] + Emitted(events[1..], generatePropertyKey)
  }

  // ---------------------------------------------------------------------
  // Lemmas.
  // ---------------------------------------------------------------------

  /** A key is a scoped key of a run exactly when some intent of the run
      resolves to it. */
  lemma {:induction false} ScopedKeysExactly(events: seq<Dispatched>, generatePropertyKey: KeyGenerator, k: string)
    ensures k in ScopedKeys(events, generatePropertyKey) <==>
            exists i :: 0 <= i < |events| && ScopedKey(events[i], generatePropertyKey) == Some(k)
    decreases |events|
  {
    if events != [] {
      ScopedKeysExactly(events[1..], generatePropertyKey, k);
      if k in ScopedKeys(events[1..], generatePropertyKey) {
        var j :| 0 <= j < |events[1..]| && ScopedKey(events[1..][j], generatePropertyKey) == Some(k);
        assert ScopedKey(events[j + 1], generatePropertyKey) == Some(k);
      }
      if exists i :: 0 <= i < |events| && ScopedKey(events[i], generatePropertyKey) == Some(k) {
        var i :| 0 <= i < |events| && ScopedKey(events[i], generatePropertyKey) == Some(k);
        if i > 0 {
          assert ScopedKey(events[1..][i - 1], generatePropertyKey) == Some(k);
        }
      }
    }
  }

  /** Starting from the initial state, every code-editor history key and the
      focused field, if any, are page-scoped: each is the non-empty key that
      `generatePropertyKey` produced for one of the handled intents. */
  lemma HistoryKeysArePageScoped(events: seq<Dispatched>, generatePropertyKey: KeyGenerator, k: string)
    requires k in HandleIntents(InitialState, events, generatePropertyKey).codeEditorHistory
    ensures k != ""
    ensures exists i :: 0 <= i < |events| && ScopedKey(events[i], generatePropertyKey) == Some(k)
  {
    ScopedKeysExactly(events, generatePropertyKey, k);
  }

  lemma FocusIsPageScoped(events: seq<Dispatched>, generatePropertyKey: KeyGenerator)
    requires HandleIntents(InitialState, events, generatePropertyKey).focusableField.Some?
    ensures var k := HandleIntents(InitialState, events, generatePropertyKey).focusableField.value;
      k != "" && exists i :: 0 <= i < |events| && ScopedKey(events[i], generatePropertyKey) == Some(k)
  {
    var k := HandleIntents(InitialState, events, generatePropertyKey).focusableField.value;
    ScopedKeysExactly(events, generatePropertyKey, k);
  }

  /** Handling a run of intents one by one is the same as reducing, in
      order, the actions the run emits. */
  lemma {:induction false} HandleIntentsReducesEmitted(s: EditorContextState, events: seq<Dispatched>,
                                                       generatePropertyKey: KeyGenerator)
    ensures HandleIntents(s, events, generatePropertyKey) == ReduceAll(s, Emitted(events, generatePropertyKey))
    decreases |events|
  {
    if events != [] {
      var rest := events[1..];
      HandleIntentsReducesEmitted(ApplyIntent(s, events[0], generatePropertyKey), rest, generatePropertyKey);
      match HandleIntent(events[0], generatePropertyKey)
      case None =>
      case Some(a) =>
        var tail := Emitted(rest, generatePropertyKey);
        assert ([a] + tail)[1..] == tail;
    }
  }

  /** A popup intent commutes with any focus or cursor intent: whichever of
      the two is handled first, the final state is the same. (A focus intent
      and a cursor intent do not commute; see the next lemma.) */
  lemma PopupIntentCommutes(s: EditorContextState, popup: Dispatched, other: Dispatched,
                            generatePropertyKey: KeyGenerator)
    requires popup.intent.GenerateKeyAndSetEvalPopupStateIntent?
    requires !other.intent.GenerateKeyAndSetEvalPopupStateIntent?
    ensures ApplyIntent(ApplyIntent(s, popup, generatePropertyKey), other, generatePropertyKey)
         == ApplyIntent(ApplyIntent(s, other, generatePropertyKey), popup, generatePropertyKey)
  {
  }

  /** A focus intent and a cursor intent do not commute: both move the focus,
      so the one handled last decides where it ends. Shown with a key
      generator that returns the path unchanged. */
  lemma FocusAndCursorIntentsDoNotCommute()
    ensures var generatePropertyKey: KeyGenerator := (path: Option<string>, pageId: string) => path;
      var focus := Dispatched(GenerateKeyAndSetFocusablePropertyFieldIntent(Some("a")), "page");
      var cursor := Dispatched(GenerateKeyAndSetCursorPositionIntent(Some("b"), CursorPosition(0, 0)), "page");
      && ApplyIntent(ApplyIntent(InitialState, focus, generatePropertyKey), cursor, generatePropertyKey).focusableField == Some("b")
      && ApplyIntent(ApplyIntent(InitialState, cursor, generatePropertyKey), focus, generatePropertyKey).focusableField == Some("a")
  {
  }
}
