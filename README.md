# Editor context: reducer and key-scoping sagas

This project models the editor-context part of the Appsmith web client in Dafny:

- the **editor-context reducer**, which keeps UI-only state for the editor;
- the three **editor-context sagas**, which scope a field path to the current page before the reducer sees it.

The reducer state has five parts:

- the field that should take input focus;
- a code-editor history, mapping a key to an optional cursor position and an optional eval-popup state;
- open/closed flags for property sections;
- the selected property tab index;
- the selected debugger tab.

Eight action types update the state. Each one writes a single part of it, except `SET_CODE_EDITOR_CURSOR_POSITION`, which also moves the focus to its key. The three keyed actions return early when their key is falsy.

In the source every handler mutates a draft of the state in place. `EditorContextReducer.EditorContext` does the same: it is a class with the five fields and one method per handler. Each method is proved against a pure function on the state value `EditorContextState`, and the properties are proved about those functions:

- what each action sets;
- what it leaves alone;
- its no-op cases;
- idempotence;
- commutation of cursor and popup updates;
- frame properties over whole runs of actions (`ReduceAll`).

Each saga reads the current page id and calls `generatePropertyKey(path, pageId)`. It emits one reducer action only if the result is truthy. Here the page id is an explicit parameter. `generatePropertyKey` is a parameter too, a function value of type `KeyGenerator`. Nothing is assumed about its output format, its injectivity or how it treats a missing path. The page id is always a string, as the sagas declare it. The sagas are composed with the reducer (`ApplyIntent`, `HandleIntents`) to prove end-to-end facts. One example: starting from the initial state, every history key and the focused field are keys that `generatePropertyKey` produced for one of the handled intents.

Modelling choices:

- **Keys and paths are `Option<string>`.** JavaScript lets these payload fields be `undefined` at run time. "Falsy" (`Truthy` is false) means `None` or `Some("")`.
- **A generated key of `""` is dropped.** The sagas test `if (propertyFieldKey)`, so an empty generated key emits nothing, the same as no key.
- **Absent history payload.** `SET_CODE_EDITOR_CURSOR_HISTORY` with an absent payload sets the history to the empty map (`|| {}`).
- **No default for section state.** `SET_ALL_PROPERTY_SECTION_STATE` has no such default. Its payload is a plain map, as its type declares.
- **Popup flag names.** The flags `type`, `example` and `value` of the popup state are named `typeOpen`, `exampleOpen` and `valueOpen`, because `type` is a Dafny keyword.

## Model

| member | source | states |
|---|---|---|
| `EditorContextReducer.EditorContext.constructor` | app/client/src/reducers/uiReducers/editorContextReducer.ts:30-35 | the initial state has no focused field, empty history and section maps, tab index 0 and debugger tab "" |
| `EditorContextReducer.SetFocusableField` | app/client/src/reducers/uiReducers/editorContextReducer.ts:41-49 | the focused field becomes the payload path; every other part of the state is unchanged |
| `EditorContextReducer.SetCursorPosition` | app/client/src/reducers/uiReducers/editorContextReducer.ts:50-61 | a falsy key leaves the state unchanged. Otherwise: the key is in the history; its cursor is the payload's; the focus is the key; its popup state is kept (absent if the entry is new); no other history key is added, removed or changed; sections and tabs are unchanged |
| `EditorContextReducer.ReplaceCursorHistory` | app/client/src/reducers/uiReducers/editorContextReducer.ts:62-69 | the history is replaced wholesale; an absent payload gives the empty map; everything else is unchanged |
| `EditorContextReducer.SetEvalPopup` | app/client/src/reducers/uiReducers/editorContextReducer.ts:70-78 | a falsy key is a no-op. Otherwise: the key is in the history with the payload popup state; its cursor is kept (absent if new); other keys are untouched; the focus never changes |
| `EditorContextReducer.SetSectionOpen` | app/client/src/reducers/uiReducers/editorContextReducer.ts:79-86 | a falsy key is a no-op. Otherwise the key's flag is `isOpen`, the only key added is this one, and no other flag changes |
| `EditorContextReducer.ReplaceAllSectionState` | app/client/src/reducers/uiReducers/editorContextReducer.ts:87-92 | the section map is replaced wholesale by the payload; everything else is unchanged |
| `EditorContextReducer.SetSelectedTabIndex` | app/client/src/reducers/uiReducers/editorContextReducer.ts:93-98 | only the tab index changes, to the payload |
| `EditorContextReducer.SetSelectedDebuggerTab` | app/client/src/reducers/uiReducers/editorContextReducer.ts:99-104 | only the debugger tab changes, to the payload |
| `EditorContextReducer.Reduce` | app/client/src/reducers/uiReducers/editorContextReducer.ts:40-105 | each action writes only its own part of the state (the cursor action writes the history and the focus); a keyed action with a falsy key is a no-op; only the wholesale history replacement can drop a history key |
| `EditorContextReducer.ReduceAll` | app/client/src/reducers/uiReducers/editorContextReducer.ts:40-105 | over a run of actions, a part of the state that no action of the run may write is unchanged; without a history replacement, history keys are only added |
| `EditorContextReducer.ReduceIdempotent` | app/client/src/reducers/uiReducers/editorContextReducer.ts:40-105 | applying any action twice gives the same state as applying it once |
| `EditorContextReducer.CursorAndPopupCommute` | app/client/src/reducers/uiReducers/editorContextReducer.ts:56-77 | a cursor update and a popup update commute for any keys; the entry one creates is the one the other fills in |
| `EditorContextReducer.ReplaceThenSetSection` | app/client/src/reducers/uiReducers/editorContextReducer.ts:84-91 | replacing the section flags with {a: true} and then closing "b" gives exactly {a: true, b: false} |
| `EditorContextReducer.EditorContext.SetFocusablePropertyField` | app/client/src/reducers/uiReducers/editorContextReducer.ts:47-48 | the in-place update leaves the object holding `SetFocusableField` of its old state |
| `EditorContextReducer.EditorContext.SetCodeEditorCursorPosition` | app/client/src/reducers/uiReducers/editorContextReducer.ts:56-60 | the entry is created if missing, then the cursor is set and the key focused; the new state is `SetCursorPosition` of the old one |
| `EditorContextReducer.EditorContext.SetCodeEditorCursorHistory` | app/client/src/reducers/uiReducers/editorContextReducer.ts:68 | the new state is `ReplaceCursorHistory` of the old one |
| `EditorContextReducer.EditorContext.SetEvalPopupState` | app/client/src/reducers/uiReducers/editorContextReducer.ts:74-77 | the entry is created if missing, then the popup state is set; the new state is `SetEvalPopup` of the old one |
| `EditorContextReducer.EditorContext.SetPropertySectionState` | app/client/src/reducers/uiReducers/editorContextReducer.ts:83-85 | the new state is `SetSectionOpen` of the old one |
| `EditorContextReducer.EditorContext.SetAllPropertySectionState` | app/client/src/reducers/uiReducers/editorContextReducer.ts:91 | the new state is `ReplaceAllSectionState` of the old one |
| `EditorContextReducer.EditorContext.SetSelectedPropertyTabIndex` | app/client/src/reducers/uiReducers/editorContextReducer.ts:97 | the new state is `SetSelectedTabIndex` of the old one |
| `EditorContextReducer.EditorContext.SetCanvasDebuggerSelectedTab` | app/client/src/reducers/uiReducers/editorContextReducer.ts:103 | the new state is `SetSelectedDebuggerTab` of the old one |
| `EditorContextReducer.EditorContext.Dispatch` | app/client/src/reducers/uiReducers/editorContextReducer.ts:40-105 | running the handler for an action's type leaves the object holding `Reduce` of its old state |
| `EditorContextSagas.GenerateKeyAndSetFocusablePropertyFieldSaga` | app/client/src/sagas/editorContextSagas.ts:17-35 | emits an action exactly when `generatePropertyKey(path, pageId)` is truthy; that action is `SET_FOCUSABLE_PROPERTY_FIELD` with the generated key as path |
| `EditorContextSagas.GenerateKeyAndSetCursorPosition` | app/client/src/sagas/editorContextSagas.ts:41-59 | emits exactly when `generatePropertyKey(key, pageId)` is truthy; the action is `SET_CODE_EDITOR_CURSOR_POSITION` with the generated key and the input cursor unchanged |
| `EditorContextSagas.GenerateKeyAndSetEvalPopupState` | app/client/src/sagas/editorContextSagas.ts:65-83 | emits exactly when `generatePropertyKey(key, pageId)` is truthy; the action is `SET_EVAL_POPUP_STATE` with the generated key and the input popup state unchanged |
| `EditorContextSagas.ScopedKey` | app/client/src/sagas/editorContextSagas.ts:22-27 | the key an intent resolves to is non-empty and is `generatePropertyKey(path, pageId)`, path first and page id second; there is none exactly when that result is falsy |
| `EditorContextSagas.HandleIntent` | app/client/src/sagas/editorContextSagas.ts:85-100 | each intent type goes to its own handler; at most one action is emitted, exactly when there is a scoped key, and it carries that key and the rest of the payload |
| `EditorContextSagas.ApplyIntent` | app/client/src/sagas/editorContextSagas.ts:17-83 | end to end: an intent without a scoped key leaves the reducer state unchanged. A cursor intent with key k ends with focus k and the input cursor under k. A focus intent ends with focus k. A popup intent stores its state under k and keeps the focus. None of them touches sections or tabs |
| `EditorContextSagas.ScopedKeys` | app/client/src/sagas/editorContextSagas.ts:27 | the scoped keys of a run never include "" |
| `EditorContextSagas.HandleIntents` | app/client/src/sagas/editorContextSagas.ts:85-100 | over a run of intents: history keys are only added; every added key is a scoped key of the run; the focus is unchanged or one of those keys; sections and tabs are unchanged |
| `EditorContextSagas.ScopedCount` | app/client/src/sagas/editorContextSagas.ts:27 | the number of intents of a run that resolve to a scoped key is at most the length of the run |
| `EditorContextSagas.Emitted` | app/client/src/sagas/editorContextSagas.ts:85-100 | a run of intents emits exactly one action for each intent that resolves to a scoped key and none for the others, so never more actions than intents |
| `EditorContextSagas.ScopedKeysExactly` | app/client/src/sagas/editorContextSagas.ts:22-27 | a key is a scoped key of a run if and only if some intent of the run resolves to it |
| `EditorContextSagas.HistoryKeysArePageScoped` | app/client/src/sagas/editorContextSagas.ts:51-56 | from the initial state, every history key is non-empty and was produced by `generatePropertyKey` for one of the handled intents |
| `EditorContextSagas.FocusIsPageScoped` | app/client/src/sagas/editorContextSagas.ts:22-31 | from the initial state, a focused field is non-empty and was produced by `generatePropertyKey` for one of the handled intents |
| `EditorContextSagas.HandleIntentsReducesEmitted` | app/client/src/sagas/editorContextSagas.ts:85-100 | handling intents one at a time equals reducing, in order, the actions they emit |
| `EditorContextSagas.PopupIntentCommutes` | app/client/src/sagas/editorContextSagas.ts:71-82 | a popup intent commutes with any focus or cursor intent: their relative order does not change the final state |
| `EditorContextSagas.FocusAndCursorIntentsDoNotCommute` | app/client/src/sagas/editorContextSagas.ts:27-57 | a focus intent and a cursor intent do not commute: whichever is handled last decides the focus, so order across these two categories matters |

## Left out

- `generatePropertyKey` (`utils/editorContextUtils`) is not part of this model. Every saga takes it as a parameter and assumes nothing about its output format, its injectivity or how it treats a missing path. The page id is passed as a string, as the sagas declare it; a missing page id is not modelled.
- The `takeLatest` supersession and the `all` fork (app/client/src/sagas/editorContextSagas.ts:85-100) are redux-saga scheduling. Each handler is modelled as one synchronous step, and a run of intents as handling them one after another.
- Reading the current page id with `select(getCurrentPageId)` is a read of the global store. The page id is an explicit parameter instead, carried with each handled intent (`Dispatched`).
- `createImmerReducer` and the Redux store are library code. Unknown action types and the copy-on-write mechanics are not modelled: only the state before and after each handler is.
- Inherited object properties are not modelled. Lookups such as `codeEditorHistory["toString"]` see properties inherited from `Object.prototype`. The model treats the maps as plain dictionaries, in which only stored keys are present.
- JavaScript numbers are floating point. Cursor line and column and the tab index are modelled as unbounded integers, with no NaN or fractions.
- A payload value that breaks its declared type is not modelled. Examples: an undefined `cursorPosition`, or an undefined payload for `SET_ALL_PROPERTY_SECTION_STATE`. The only exceptions are keys and paths (see above).
- The widget editor page component (app/client/src/pages/Editor/WidgetsEditor/index.tsx) and the action-creator field table (app/client/src/components/editorComponents/ActionCreator/AppsmithFunctionConfig.ts) are left out. They are UI composition and a table of labels with no logic of their own.
