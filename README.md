# WebGLKeyboard_Simplified — a Dafny model of the key-evaluation engine

This project models the logic of this on-screen keyboard for Unity text-input fields:

- **Key evaluation.** `Keyboard.EvaluateKey` turns one key press (a `KeyConfig`) into an edit of
  the focused input field. The possible edits are:
  - splice text over the selection;
  - backspace;
  - switch the active layout;
  - submit the field.
- **Layout binding.** `Keyboard._SetConfig` binds a layout's rows of keys onto the fixed grid of
  UI key slots. An exception while binding is caught and logged.
- **Focus tracking.**
  - The static live target `WebGLKeyboardIO_TMP.target` is written by input fields and by key
    buttons as they are selected and deselected.
  - `Keyboard.FixedUpdate` compares its cached target with that live target on every tick, and
    opens or closes the keyboard.

## Modules

- `KeyConfigs` (key_config.dfy): the layout data model as datatypes: `KeyConfig`, `KeyRowConfig`
  (its key array may be null) and `KeyboardConfig`. It also defines `Classify`, the branch
  `EvaluateKey` takes for a key, as a tagged `Action`, and the definition `LayoutAfter`: the
  layout an action leaves bound (Keyboard.cs:55-68), if any.
- `TextEdit` (text_edit.dfy): the index arithmetic of the local function `_AddText`, written as
  the source computes it. Its contract gives the result case by case.
- `KeyEvaluation` (key_evaluation.dfy):
  - `FieldState`, a snapshot of an input field;
  - `Effect`, what an action does to a field;
  - the definition `Refocused`, the trailing refocus of `EvaluateKey` (Keyboard.cs:99-102) counted
    as one increment of `refocusCount`;
  - one lemma per key kind.
- `LayoutBinding` (layout_binding.dfy): which slots a binding reaches (`FirstThrow`, `Bound`) and
  what they then hold (`KeyAt`, `Rebind`, `Binds`). Two definitions underlie them:
  - `RowKeys`: the key array of a config row, or the null array of the default row that
    Keyboard.cs:170 builds past the config's end;
  - `Throws`: the condition under which Keyboard.cs:175 throws, a row with a slot whose key array
    is null;
  - `KeyAt`: the key line 175 picks for a slot, key `index` of its row or the empty key.
- `InputFields` (input_field.dfy): three classes.
  - `FocusTracker` holds the shared live target.
  - `InputField` is the host text widget.
  - `FieldIO` is the `WebGLKeyboardIO_TMP` component.
- `KeyboardEngine` (keyboard.dfy): the `Keyboard` class.
  - Fields: the cached target, the slot→key table, the slot views, the layout last bound, and
    an event log of `Open`, `Close` and `LoadError(name)`.
  - `ConfigOf`: the config field (Keyboard.cs:31-35) that holds a layout.
  - Methods: `SetConfig`, `EvaluateKey`, `AddText`, `BackgroundTouch`, `OnClick`, `FixedUpdate`.
- `KeyboardKeys` (keyboard_key.dfy): the `KeyboardKey` component, plus three client methods. They
  compose the focus transitions with a tick.

`Keyboard.EvaluateKey` is proved against the pure definitions:
- the target's new state is `Effect(Classify(key, multiLine), old state)`;
- the keyboard's new state is given by `LayoutAfter` of the same action.

The properties of each key kind are lemmas about those definitions.

Three behaviours of the code that a reader may not expect:
- **Open/close.** The keyboard opens on any change to a new non-null live target. That includes
  switching directly from one field to another, not only a change from null.
- **Deselect.** Deselecting an input field always clears the live target. Only key buttons are
  governed by `UseDeselect`.
- **Caret after backspace.** On a collapsed selection at the very end of the text, backspace
  leaves the raw caret at the old position, one past the new end, when a character is deleted.
  It is not one less.

Modelling assumptions about the host widget (TextMesh Pro, whose code is not part of this model):
- Writing `caretPosition` collapses the selection onto the written value, clamped to
  `[0, |text|]`. The `caret` field keeps the raw value the keyboard computed.
- The selection ends of a field always lie within its text. `InputField.Valid` states this, and
  `_AddText`'s `Substring` calls need it.

## Model

| member | source | states |
|---|---|---|
| KeyConfigs.Classify | Runtime/Scripts/Keyboard.cs:51-95 | An empty key name is the only thing that makes evaluation stop early. An inserted text is never empty. Only a Value key with resetToAlpha returns to alpha after inserting. Submit is only invoked on a single-line field. |
| TextEdit.AddText | Runtime/Scripts/Keyboard.cs:105-118 | The source's Min/Max/Substring arithmetic equals the case-by-case rule. Insertion gives `text[..lo] + s + text[hi..]` with caret `lo+1`. Backspace over a selection gives `text[..lo] + text[hi..]` with caret `lo`. Collapsed backspace gives `text[..lo-1] + text[lo..]` with caret `lo-1`, or `lo` at the end of the text. At position 0 nothing changes and the caret is 0. The caret is never negative. |
| TextEdit.BackspaceUndoesTyping | Runtime/Scripts/Keyboard.cs:107-117 | Typing one character and then pressing backspace at the new caret restores `text[..lo] + text[hi..]`. The raw caret ends one past the new end exactly when the selection reached the end of the text. |
| TextEdit.EditLength | Runtime/Scripts/Keyboard.cs:112 | The new text's length is the old length, minus the selection, plus the inserted text. A collapsed backspace that is not at position 0 removes one character instead. |
| KeyEvaluation.Write | Runtime/Scripts/Keyboard.cs:113-117 | Writing the text and then the caret leaves the new text and the raw caret, with the selection collapsed inside the text, onto the caret when the caret lies in it. The counters and the multi-line flag are kept. |
| KeyEvaluation.Effect | Runtime/Scripts/Keyboard.cs:51-102 | Each action keeps the field's selection within its text and its multi-line flag. Only the early exit leaves the field exactly unchanged; every other action adds exactly one to the refocus count. |
| KeyConfigs.RebindingKeys | Runtime/Scripts/Keyboard.cs:55-68 | A key press binds a layout exactly when the key is named and is a Value key with resetToAlpha, or one of the five layout operations. |
| KeyEvaluation.EmptyKeyIsIgnored | Runtime/Scripts/Keyboard.cs:51 | A key with an empty name changes nothing, not even the refocus count, and binds no layout. |
| KeyEvaluation.ValueKeyInserts | Runtime/Scripts/Keyboard.cs:55-58 | A Value key other than "\b" splices its name over the selection. The caret and the collapsed selection land on `lo+1`, whatever the name's length. The key binds alpha exactly when resetToAlpha is set. |
| KeyEvaluation.SpaceInsertsBlank | Runtime/Scripts/Keyboard.cs:71 | Space inserts " " by the insertion rule and binds no layout. |
| KeyEvaluation.ValueBackspaceIsBackspace | Runtime/Scripts/Keyboard.cs:105-108 | A Value key named "\b" without resetToAlpha has the same effect as the Backspace key, on the field and on the layout. |
| KeyEvaluation.BackspaceDeletesSelection | Runtime/Scripts/Keyboard.cs:109-117 | Backspace over a selection deletes exactly `text[lo..hi]` and leaves caret and selection at `lo`. |
| KeyEvaluation.BackspaceDeletesPrevious | Runtime/Scripts/Keyboard.cs:109-117 | On a collapsed selection at p > 0, backspace deletes the character before p. The raw caret goes to p-1, or stays at p at the end of the text. The selection is at p-1. At p = 0 the text is unchanged and everything is 0. |
| KeyEvaluation.LayoutKeysSwitch | Runtime/Scripts/Keyboard.cs:64-68 | Shift, Caps, Numbers, Symbols and Alpha bind their own layout. They only refocus the field. |
| KeyEvaluation.SubmitMultiLine | Runtime/Scripts/Keyboard.cs:74-75 | Submit on a multi-line field inserts "\n" by the insertion rule and submits nothing. |
| KeyEvaluation.SubmitSingleLine | Runtime/Scripts/Keyboard.cs:74-77 | Submit on a single-line field submits exactly once. It leaves the text, caret and selection unchanged and binds no layout. |
| KeyEvaluation.BackgroundTouchOnlyRefocuses | Runtime/Scripts/Keyboard.cs:83-91 | Operation None (the background key) only refocuses. Text, caret and selection are unchanged. |
| LayoutBinding.FirstThrow | Runtime/Scripts/Keyboard.cs:167-175 | The binding stops at the first UI row that has a slot and a null key array: no earlier row throws, and the row it stops at throws unless it is the end of the grid. |
| LayoutBinding.BoundSlotView | Runtime/Scripts/Keyboard.cs:179-189 | Whatever click listeners a slot's button held before, after binding it holds exactly one, which evaluates that slot's own table entry. The slot is active iff its key's name is non-empty, and shows that name. |
| LayoutBinding.RebindIdempotent | Runtime/Scripts/Keyboard.cs:188-189 | Binding a slot twice with the same key leaves the view binding it once leaves: listeners do not accumulate across rebinds. |
| LayoutBinding.BoundIff | Runtime/Scripts/Keyboard.cs:167-175 | A grid slot is bound iff no UI row up to and including its own throws. |
| LayoutBinding.BoundKey | Runtime/Scripts/Keyboard.cs:170-175 | A bound slot `(r,k)` holds `rows[r].keys[k]` when `k < keys.Length`, and the empty key otherwise. Its row exists in the config. |
| LayoutBinding.ShortConfigAborts | Runtime/Scripts/Keyboard.cs:170-175 | A UI row with slots beyond the config's rows gets a default row whose key array is null. Binding fails there, and no slot of that row or of a later row is bound. |
| LayoutBinding.CompleteBinding | Runtime/Scripts/Keyboard.cs:165-192 | Binding succeeds iff every UI row with slots has a key array. Then every slot of the grid is bound. |
| KeyboardEngine.BindLog | Runtime/Scripts/Keyboard.cs:165-208 | A binding logs nothing exactly when every UI row with slots has a key array in the config; otherwise it logs one error naming the config. |
| KeyboardEngine.Keyboard.SetConfig | Runtime/Scripts/Keyboard.cs:160-209 | The method clears the table and binds every reachable slot to its config key. Those slot views show the key; all other slot views stay as they were. It records the config as the one last bound and logs the failure if there is one. It never fails itself and does not touch the target. |
| KeyboardEngine.Keyboard.EvaluateKey | Runtime/Scripts/Keyboard.cs:48-103 | With no target nothing changes. Otherwise the target ends as `Effect(Classify(key))` says. The layout named by `LayoutAfter` is bound, and with no layout the table, slots, active layout and log are unchanged. |
| KeyboardEngine.Keyboard.AddText | Runtime/Scripts/Keyboard.cs:105-118 | The target's new text and raw caret are those of `TextEdit.AddText`. The selection collapses onto the caret. |
| KeyboardEngine.Keyboard.BackgroundTouch | Runtime/Scripts/Keyboard.cs:124 | Only the target's refocus count changes. The keyboard state is unchanged. |
| KeyboardEngine.Keyboard.OnClick | Runtime/Scripts/Keyboard.cs:189 | A click on a slot missing from the table, or bound to an empty key, changes nothing. |
| KeyboardEngine.Keyboard.FixedUpdate | Runtime/Scripts/Keyboard.cs:138-155 | After the tick the cached target equals the live one. Open, with alpha bound, is logged only on a change to a non-null target, which includes a switch from field A to field B. Close is logged only on a change from non-null to null. A tick with no change changes nothing. |
| KeyboardEngine.Keyboard.constructor | Runtime/Scripts/Keyboard.cs:37-39 | A new keyboard has no cached target, an empty table, no layout bound and an empty log. |
| InputFields.FocusTracker.constructor | Runtime/Scripts/WebGLKeyboardIO_TMP.cs:16 | The live target starts out null. |
| InputFields.Without | Runtime/Scripts/WebGLKeyboardIO_TMP.cs:26-28 | Removing a listener takes out every copy of it and leaves every other listener's count unchanged. |
| InputFields.RegistrationIdempotent | Runtime/Scripts/WebGLKeyboardIO_TMP.cs:26-29 | Registering remove-then-add a second time leaves the listener list as the first registration left it. |
| InputFields.FieldIO.Start | Runtime/Scripts/WebGLKeyboardIO_TMP.cs:23-30 | After Start the field holds exactly one select listener and one deselect listener of this component. Its text state is untouched. |
| InputFields.FieldIO.OnSelect | Runtime/Scripts/WebGLKeyboardIO_TMP.cs:35 | The live target becomes this field, whatever it was before. So selecting it again changes nothing, and there is never more than one current target. |
| InputFields.FieldIO.OnDeselect | Runtime/Scripts/WebGLKeyboardIO_TMP.cs:40 | The live target becomes null unconditionally, even when another field is current. |
| KeyboardKeys.KeyboardKey.constructor | Runtime/Scripts/KeyboardKey.cs:16 | UseDeselect starts out true. |
| KeyboardKeys.KeyboardKey.OnSelect | Runtime/Scripts/KeyboardKey.cs:22-25 | The live target becomes the keyboard's cached target when there is one. Otherwise it is unchanged. |
| KeyboardKeys.KeyboardKey.OnDeselect | Runtime/Scripts/KeyboardKey.cs:27 | The live target becomes null when UseDeselect is set. Otherwise it is unchanged. |
| KeyboardKeys.TapKeepsKeyboardOpen | Runtime/Scripts/KeyboardKey.cs:22-27 | Deselecting the field and a key, then selecting a key before the tick, leaves the live target on the cached one. The tick logs nothing and rebinds nothing. |
| KeyboardKeys.DeselectClosesKeyboard | Runtime/Scripts/Keyboard.cs:150-154 | Deselecting the field with no key select before the tick closes the keyboard. |
| KeyboardKeys.SwitchFieldReopens | Runtime/Scripts/Keyboard.cs:140-148 | Selecting a different field while the keyboard is open reopens it on that field, with alpha bound. |

## Left out

- KeyboardEngine.Keyboard.OnClick: for a slot bound to a non-empty key, the contract does not
  restate the effect. The method calls `EvaluateKey` on that key, so its effect is that method's
  contract.
- The Animator triggers (`ResetTrigger`/`SetTrigger`) are host calls. They appear only as the
  `Open` and `Close` events of the log.
- Visual styling in `_SetConfig` is left out: widths, colours, font sizes and margins, and the
  matching `KeyConfig` fields. These are floats and Unity types with no logic.
- The refocus (`onFocusSelectAll` saved, cleared, `Select()`, restored) is a host focus call. It is
  modelled as one increment of `refocusCount`.
- The self-assignments are left out because they have no logical effect: they only make the host
  redraw. This covers operation None and, in `_SetConfig`, the `pIsOpen` refresh. For that reason
  `SetConfig` has no `pIsOpen` parameter.
- What `OnSubmit` and the text and caret setters do inside the host is foreign library code.
  Submits are counted. The setters are modelled by the clamping assumption stated above.
- The text of `Debug.LogError` is not modelled; the log entry keeps only the config's name.
- `Awake` (the singleton) is left out. A `KeyboardKey` holds a reference to its keyboard instead
  of reading `Keyboard.instance`.
- `EventSystem` and the listener delegates are left out. An input field's listener lists hold
  component references; a key button's listener list holds, for each closure, the slot whose
  table entry it evaluates. `RemoveListener` is taken to remove every matching listener. The host
  calling the listeners is not modelled.
- `_SetConfig` is modelled as throwing only when it reads a null key array. These other causes
  of an exception are not modelled:
  - a null config; the catch block then reads `pConfig.name` itself (Keyboard.cs:207), so a
    second exception escapes `_SetConfig`;
  - a null `rows` array;
  - a missing widget or component.
  The grid shape is a fixed parameter.
- Text is modelled as a sequence of Unicode characters, not of UTF-16 code units as C# strings
  are. The source's `Substring` and caret arithmetic count code units, so a backspace after a
  character outside the Basic Multilingual Plane (an emoji, say) leaves half a surrogate pair
  behind, and inserting such a character puts the caret between its two halves. The model instead
  deletes the whole character and places the caret after it.
- The `default: break` branch of the operation switch cannot be reached with the nine enum
  values. Enum values outside that range are not modelled.
- `KeyboardConfig.cs` is modelled as the `KeyboardConfig` datatype. Its asset-menu plumbing is
  not modelled.
