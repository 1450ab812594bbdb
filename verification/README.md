# Native editor bridge: state broadcaster and outbound dispatch

A Dafny model of the native half of the rich-text editor hook
`useNativeEditor` (`src/RichText/useNativeEditor.tsx`). The hook keeps a
mirror of the embedded editor's state, lets callers subscribe to changes of
that mirror, sends commands to the web view that hosts the editor, and builds
the editor instance from a base instance and the plugins' extensions.

The model has six modules:

- `Wrappers`: the `Option` type, for a ref that is still null and a plugin
  without an extension.
- `EditorState`: the snapshot (a map from field names to opaque values), the
  empty initial snapshot `{}`, and the `{...state, isFocused: true}` merge.
- `Messaging`: the `{type, payload}` envelopes. The outer one is always of
  type Action. A settings action nests a second `{type, payload}`
  (UpdateScrollThresholdAndMargin or Focus) inside it.
- `Observers`: the observer list as a value, and the unsubscribe filter,
  which removes every entry equal to the callback. Removal is by value, as
  the code does it, not by registration: a callback subscribed twice loses
  both registrations when either of its unsubscribe closures is called.
- `NativeEditor`: class `Editor` with the hook's refs as fields: `state`
  (`editorStateRef`), `subs` (`editorStateSubsRef`) and `webview`
  (`webviewRef`, `None` while null). It also has `log`, one ordered record of
  every observer call and every message posted to the view. Keeping one log
  puts the order "notify, then send" into the contract of `Focus`.
- `PluginExtension`: the `reduce`/`Object.assign` fold of plugin extensions
  over the base instance, as a loop proved against a fold function.

## Model

| member | source | states |
|---|---|---|
| `EditorState.WithFocused` | src/RichText/useNativeEditor.tsx:66-69 | the merged snapshot has every field of the old one unchanged, plus `isFocused` set to true, and no other field |
| `Observers.Without` | src/RichText/useNativeEditor.tsx:34-36 | no entry equal to the callback remains, and every other observer keeps its exact number of registrations |
| `Observers.WithoutAppend` | src/RichText/useNativeEditor.tsx:34-36 | filtering a concatenation is the concatenation of the filtered parts |
| `Observers.WithoutAbsent` | src/RichText/useNativeEditor.tsx:34-36 | removing a callback that is not registered leaves the list unchanged |
| `Observers.WithoutIdempotent` | src/RichText/useNativeEditor.tsx:33-37 | calling an unsubscribe closure a second time changes nothing |
| `Observers.SubscribeThenUnsubscribe` | src/RichText/useNativeEditor.tsx:32-37 | subscribe then unsubscribe removes every earlier registration of the same callback as well, and restores the list when there was none |
| `Observers.WithoutKeeps` | src/RichText/useNativeEditor.tsx:34-36 | every entry other than the callback survives the filter, at the position given by the number of survivors before it |
| `Observers.WithoutKeepsOrder` | src/RichText/useNativeEditor.tsx:34-36 | surviving entries keep their original relative order |
| `NativeEditor.Broadcast` | src/RichText/useNativeEditor.tsx:26 | one update makes one call per list entry, in list order, each with the new snapshot |
| `NativeEditor.BroadcastCalls` | src/RichText/useNativeEditor.tsx:26 | each observer is called as many times as it is registered (twice when subscribed twice), always with the new snapshot, and every effect of an update is a notification (it posts nothing) |
| `NativeEditor.UnsubscribedNotNotified` | src/RichText/useNativeEditor.tsx:26-37 | after unsubscribing a callback, updates never call it, and every other observer keeps its number of calls |
| `NativeEditor.Editor.constructor` | src/RichText/useNativeEditor.tsx:19-22 | a new editor holds the empty snapshot `{}`, no observers and no view, and has done nothing yet |
| `NativeEditor.Editor.Attach` | src/RichText/useNativeEditor.tsx:19 | the view ref is set; the snapshot, observers and log are unchanged |
| `NativeEditor.Editor.Detach` | src/RichText/useNativeEditor.tsx:19 | the view ref is cleared; the snapshot, observers and log are unchanged |
| `NativeEditor.Editor.UpdateEditorState` | src/RichText/useNativeEditor.tsx:24-27 | the snapshot becomes exactly the argument (replaced, not merged), then the calls of `Broadcast` over the list as it was are appended to the log |
| `NativeEditor.Editor.Subscribe` | src/RichText/useNativeEditor.tsx:29-33 | the callback is appended after the unchanged earlier entries, and the returned closure captures that callback |
| `NativeEditor.Editor.Unsubscribe` | src/RichText/useNativeEditor.tsx:33-37 | the list becomes the list without every entry equal to the captured callback; nothing else changes |
| `NativeEditor.Editor.GetEditorState` | src/RichText/useNativeEditor.tsx:40-42 | returns the current snapshot |
| `NativeEditor.Editor.SendMessage` | src/RichText/useNativeEditor.tsx:44-48 | with no view attached the log is unchanged; otherwise exactly one post of the message to the attached view is appended |
| `NativeEditor.Editor.SendAction` | src/RichText/useNativeEditor.tsx:50-55 | delivers `{type: Action, payload: action}` when a view is attached, and nothing otherwise |
| `NativeEditor.Editor.UpdateScrollThresholdAndMargin` | src/RichText/useNativeEditor.tsx:57-61 | delivers `{type: Action, payload: {type: UpdateScrollThresholdAndMargin, payload: bottom}}` when a view is attached |
| `NativeEditor.Editor.Focus` | src/RichText/useNativeEditor.tsx:63-75 | the snapshot becomes the old one with `isFocused` true; the log gets every observer's call with that snapshot, and only after them a single Focus action with `pos` |
| `NativeEditor.TwoObserverScenario` | src/RichText/useNativeEditor.tsx:24-42 | with A and B subscribed, an update calls A then B; after A unsubscribes, the next update calls only B, and the snapshot read back is the last one written |
| `PluginExtension.Extend` | src/RichText/useNativeEditor.tsx:90-91 | a plugin without an extension leaves the instance unchanged; otherwise its keys are added and overwrite, and every other key keeps its value |
| `PluginExtension.MergeAllKeys` | src/RichText/useNativeEditor.tsx:88-94 | a member is in the instance exactly when the base or some plugin's extension defines it |
| `PluginExtension.MergeAllLastWins` | src/RichText/useNativeEditor.tsx:88-94 | the last plugin whose extension defines a member decides that member's value |
| `PluginExtension.MergeAllKeepsBase` | src/RichText/useNativeEditor.tsx:88-94 | a base member that no plugin defines keeps its base value |
| `PluginExtension.MergeAllSkipsMissing` | src/RichText/useNativeEditor.tsx:90 | a plugin without `extendEditorInstance` can be removed from the list, wherever it stands, without changing the instance |
| `PluginExtension.ExtendInstance` | src/RichText/useNativeEditor.tsx:88-94 | the instance is the left-to-right fold of the plugins' extensions over the base instance, and an absent plugin list yields the base instance |

## Left out

- The React hook machinery (`useRef`, re-creation on each render): the refs are the fields of one `Editor` object.
- The web view itself: rendering, `requestFocus` and the `postMessage` transport. `requestFocus` has no observable effect here, and a post is an entry in the log.
- The `JSON.stringify` wire encoding: messages are a datatype, not strings.
- The `console.warn` diagnostic when no view is attached: it has no effect on state.
- `EditorHelper.setEditorLastInstance`, a global registration in another file (line 96). `src/RichText/EditorHelper.ts` is not part of this model.
- The bodies of the plugins' `extendEditorInstance` and of the `TenTapBridge` base: each extension is an opaque map, and the `sendAction` it receives is not modelled. The base instance is an arbitrary map from member names to opaque values.
- Observer callbacks that subscribe or unsubscribe while being notified: an update iterates over the list as it was when the update began.
- The `any` payloads: a plugin's action is an opaque token. The numeric `bottom` and the numeric focus offset are integers, not floating-point numbers.
- The truthiness guard in `focus` (line 65): the snapshot ref always holds an object, never null, so the update is always made and the guard is not modelled as a branch.
- UpdateEditorState, Focus: every observer callback is assumed to return normally and not to call back into update, focus or send. In the hook, a callback that throws ends the `forEach` at line 26, so the observers after it are not called; inside `focus` the exception also leaves before line 71, so the Focus action is never sent. A callback that calls `_updateEditorState(t)` or `focus` through the instance (lines 83-84) changes the snapshot during the outer update, which already assigned it at line 25; after the outer call the snapshot is then `t` (or the focused copy), not `s`, and the nested calls and posts are interleaved into the outer notification sequence. The contracts `state == s` and the log `Broadcast(old(subs), s)` hold only for callbacks that do neither.
- GetEditorState, UpdateEditorState: the snapshot is a value here. In the hook it is an object held by reference: line 25 stores the caller's object, line 41 hands that same object out, and line 26 passes it to every observer. Any holder can mutate it in place and so change the snapshot, and what later observers of the same update see, with no update and no notification. The model does not capture this aliasing; it gives every observer the same snapshot and changes the snapshot only through the update path.
- Unsubscribe: the unsubscribe closure of the hook is bound to that hook's own observer list; the modelled `Unsubscriber` carries only the callback, and `Editor.Unsubscribe` accepts one taken from any editor.
- Callbacks are compared by an identifier, standing for JavaScript reference equality of function values.
