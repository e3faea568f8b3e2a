# Dark Mode Reader: the page-side state machine

This project models the content script of the Dark Mode Reader browser extension (`contentScript.js`). The script runs inside each web page and owns three things:

- one flag of user intent, `isEnabled`;
- the visual state that flag drives on the page's root element: the marker class `deep-dark-mode-root` and six inline style variables (`--dd-background`, `--dd-surface`, `--dd-surface-soft`, `--dd-text`, `--dd-text-soft`, `--dd-accent`) with fixed colour values;
- the copy of the flag written to the extension's synchronised storage under `deepDarkModeEnabled`.

The script enables, disables and toggles dark mode. It seeds the flag from one storage read at load time and answers two kinds of message. Runtime messages carry `DDM_TOGGLE` or `DDM_GET_STATE`, and the answer is `{enabled}`. Window messages carry `DDM_TOGGLE_FROM_ACTION` and are accepted only from the page's own window.

The model has two files:

- `js_values.dfy` (module `JsValues`): the JSON values that storage can hand back, and JavaScript truthiness (`Boolean(v)`, ECMAScript ToBoolean, section 7.1.2 of ECMA-262).
- `content_script.dfy` (module `ContentScript`): the constants; the page as a value (`PageState`); one specification function per transition; lemmas for the promised properties; and the class `Page`, which is the script itself. `Page` has one mutable field per piece of state and one method per script function. Each method is proved to change the state exactly as its specification function says. The load has two methods: `Page.LoadInitialAsWritten` follows the script and is specified by `Loaded`; `Page.LoadInitial` is the corrected load of the finding below and is specified by `LoadedReconciled`.

The root element is modelled as its whole class list (`set<string>`) and its whole inline style (`map<string, string>`). This lets the model say that the page's own classes and style properties are never touched. Storage is modelled as two parameters. The load receives the read's outcome as a `ReadResult` (`ReadOk(items)` or `ReadErr`). Every toggle receives `writeOk`, which says whether the write succeeded. The field `persisted` records the last value this page wrote successfully.

The central invariant is `Consistent`: the marker class is present exactly when `isEnabled` holds. In that case all six variables are set to their fixed values; otherwise none of them is set. Enable, disable, toggle, the corrected load and both message handlers all keep it, given that nothing but the script writes the root element's class list and inline style (see "## Left out").

## Model

| member | source | states |
|---|---|---|
| `JsValues.Truthy` | contentScript.js:52 | the stored value reads as off exactly when it is absent, `null`, `false`, `0` or `""`, and as on otherwise |
| `JsValues.Lookup` | contentScript.js:51-52 | reading the key from the returned object gives its value if the key was returned, and `undefined` otherwise |
| `ContentScript.MarkRoot` | contentScript.js:21-28 | the marker class is present exactly when `enable` holds; every other class is kept |
| `ContentScript.OverrideStyle` | contentScript.js:30-47 | enabling sets all six variables to their fixed values; disabling removes all six; every other property is untouched |
| `ContentScript.Enabled` | contentScript.js:62-66 | afterwards the flag is on, the class is present and all six variables hold their values; the result is consistent; nothing but the overlay changes and storage is not written |
| `ContentScript.Disabled` | contentScript.js:68-72 | afterwards the flag is off, the class is absent and no variable is set; the result is consistent; nothing but the overlay changes |
| `ContentScript.Toggled` | contentScript.js:74-82 | the flag is negated and the result is consistent; a successful write persists the new flag, a failed one leaves storage as it was; the page's own classes and style are kept |
| `ContentScript.ReadIntent` | contentScript.js:50-55 | a failed read gives on; a successful read without the key gives off; a stored boolean is read as itself |
| `ContentScript.Loaded` | contentScript.js:49-60 | as written: a read error gives on; a successful read gives the stored value's truthiness; "on" is exactly enable; "off" leaves class and style as they were; storage is never written |
| `ContentScript.LoadedReconciled` | contentScript.js:49-60 | the same intent as `Loaded` for every read outcome; the result is always consistent; nothing outside the overlay changes |
| `ContentScript.RuntimeDispatch` | contentScript.js:84-91 | an answer is sent exactly for `DDM_TOGGLE` and `DDM_GET_STATE`; the answer's `enabled` is the flag after handling; only `DDM_TOGGLE` changes state, and then exactly as a toggle |
| `ContentScript.WindowDispatch` | contentScript.js:94-99 | the flag flips exactly when the message comes from the page's own window and has type `DDM_TOGGLE_FROM_ACTION`, and then the new state is exactly a toggle; otherwise nothing changes |
| `ContentScript.NoPartialApplication` | contentScript.js:21-47 | in a consistent state, class present ⇔ all six variables set ⇔ flag on, and exactly one of "all set" and "none set" holds |
| `ContentScript.EnableIdempotent` | contentScript.js:62-66 | enabling twice gives the same state as enabling once |
| `ContentScript.DisableIdempotent` | contentScript.js:68-72 | disabling twice gives the same state as disabling once |
| `ContentScript.ToggleTwiceRestores` | contentScript.js:74-80 | from a consistent state, two toggles restore the flag, the class list and the inline style |
| `ContentScript.ToggleWriteFailureSwallowed` | contentScript.js:81 | a toggle whose storage write fails leaves the same flag, classes and style as one whose write succeeds |
| `ContentScript.LoadCanDesync` | contentScript.js:49-60 | from an enabled, consistent state, a read that yields off turns the flag off but leaves the marker class, so the state is inconsistent |
| `ContentScript.EarlyToggleThenLoadDesyncs` | contentScript.js:49-60 | concrete case: on a new page, a `DDM_TOGGLE` arrives before the load, and storage holds no entry; the load then leaves the page inconsistent |
| `ContentScript.ReconciledAgreesOnInitialState` | contentScript.js:49-60 | on a page still in its initial consistent off state, the corrected load equals the load as written |
| `ContentScript.DispatchKeepsConsistent` | contentScript.js:84-99 | both message handlers keep the invariant, for any message |
| `ContentScript.WindowToggleIsRuntimeToggle` | contentScript.js:94-99 | an accepted action-button message leads to the same state as a runtime `DDM_TOGGLE` |
| `ContentScript.FreshPageScenario` | contentScript.js:49-91 | a new page with no stored entry stays off and answers `{enabled: false}` to `DDM_GET_STATE`; `DDM_TOGGLE` then answers `{enabled: true}`, applies the overlay and persists `true` |
| `ContentScript.SettingEachVarMergesPalette` | contentScript.js:33-38 | the six `setProperty` calls, in source order, amount to merging the six fixed values into the style |
| `ContentScript.RemovingEachVarDropsPalette` | contentScript.js:40-45 | the six `removeProperty` calls amount to deleting the six names from the style |
| `ContentScript.Page.constructor` | contentScript.js:19 | the flag starts off, and the page's class list and style are as found; the invariant holds exactly when the page does not already use the extension's class or variables |
| `ContentScript.Page.SetRootDarkAttributes` | contentScript.js:21-28 | the class list becomes `MarkRoot` of the old one; nothing else changes |
| `ContentScript.Page.SetProperty` | contentScript.js:33-38 | one property is set to the given value; nothing else changes |
| `ContentScript.Page.RemoveProperty` | contentScript.js:40-45 | one property is removed; nothing else changes |
| `ContentScript.Page.ApplyInlineOverrides` | contentScript.js:30-47 | six property calls in place turn the style into `OverrideStyle` of the old style |
| `ContentScript.Page.Enable` | contentScript.js:62-66 | the new state is `Enabled` of the old state, and it is consistent; storage is not touched |
| `ContentScript.Page.Disable` | contentScript.js:68-72 | the new state is `Disabled` of the old state, and it is consistent |
| `ContentScript.Page.Toggle` | contentScript.js:74-82 | the new state is `Toggled` of the old state; the flag is negated and the result is consistent |
| `ContentScript.Page.LoadInitialAsWritten` | contentScript.js:49-60 | the new state is `Loaded` of the old state: the flag from the read, enable only when on; the invariant is kept when the page was off or the read yields on |
| `ContentScript.Page.LoadInitial` | contentScript.js:49-60 | the new state is `LoadedReconciled` of the old state and is consistent; from the initial consistent off state it equals the load as written |
| `ContentScript.Page.OnRuntimeMessage` | contentScript.js:84-91 | the new state and the answer are `RuntimeDispatch` of the old state; the invariant is kept |
| `ContentScript.Page.OnWindowMessage` | contentScript.js:94-99 | the new state is `WindowDispatch` of the old state; the invariant is kept |

## Findings

| source | as written | input that shows it | evidently intended | confidence | as-written member | corrected member |
|---|---|---|---|---|---|---|
| contentScript.js:49-60 | `loadInitialState` sets `isEnabled` from storage but calls only `enableDarkMode`, never `disableDarkMode`. The message listeners are registered (lines 84 and 94) before the load finishes waiting for the DOM and for storage. | A `DDM_TOGGLE` or `DDM_TOGGLE_FROM_ACTION` is handled while the storage read is pending. It enables dark mode. The read then returns no entry or `false`. The flag ends off while the class and the six variables stay set. The next toggle "enables" with no visible change. | the visual state matches the flag after load: the off branch also removes the overlay | medium, not executed | `ContentScript.Loaded`, run by `Page.LoadInitialAsWritten` (`LoadCanDesync`, `EarlyToggleThenLoadDesyncs`) | `ContentScript.LoadedReconciled`, used by `Page.LoadInitial`; `ReconciledAgreesOnInitialState` proves it agrees with the original on the normal startup path |

## Left out

- The classifier for page brightness and the three-state machine (off / on but suppressed / on and applied) do not exist in this script. The script has two states and answers only `{enabled}`, so neither is modelled.
- Asynchrony: the storage read, the storage write and message delivery are asynchronous in the script. Each handler runs to completion, so the model treats every handler and the load as one atomic step. Any order of those steps is allowed. That includes a message handled before the load, which is how the finding above arises.
- Only the script writes the root element's class list and inline style in this model. Page scripts and other extensions can run between any two handlers and overwrite `className` or the `style` attribute, which drops the marker class or the variables while `isEnabled` stays on. The model has no such step, so `Consistent` is kept only under that assumption.
- Storage is external and eventually consistent. The model sees it only as the read outcome passed to the load and the write outcome passed to each toggle. Propagation between devices and races between two writers are not modelled.
- Listener registration and the `document.readyState` / `DOMContentLoaded` branch (contentScript.js:84, 94, 102-106) are host wiring. Only the listeners' dispatch logic and the load itself are modelled.
- `CONFIG` (contentScript.js:6-17) is declared but never used by the script, so it is not modelled.
- The inline style is modelled as an unordered map. The order in which a `CSSStyleDeclaration` lists its properties is not captured.
- Message payloads are reduced to their `type` field, written `Option<string>`. `None` stands for a missing message, a missing `type` or a `type` that is not a string; none of these equals any of the three type strings.
- `popup.js` (rendering the toggle, looking up the active tab, the "error means show off" rule) and `background.js` (relaying the action-button click with `executeScript` and `postMessage`) are UI and extension plumbing with no state of their own. They are not part of this model.
