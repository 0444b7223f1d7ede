/** What EvaluateKey does to the focused input field, stated on a snapshot of
    the field's state. Keyboard.EvaluateKey is proved to act on the field as
    `Effect(Classify(key, multiLine), ...)` does. */
module KeyEvaluation {
  import opened KeyConfigs
  import opened TextEdit

  /** The state of a host input field that the keyboard reads or writes. */
  datatype FieldState = FieldState(
    text: string,
    anchor: int,
    focus: int,
    caret: int,
    multiLine: bool,
    submitCount: nat,
    refocusCount: nat)

  /** The host keeps both selection ends within the text. */
  predicate InRange(st: FieldState)
  {
    0 <= st.anchor <= |st.text| && 0 <= st.focus <= |st.text|
  }

  /** The position the host collapses the selection onto when a caret value is
      written: within the text, and the value itself when that is in the text. */
  function Clamp(c: int, n: nat): (r: nat)
    ensures r <= n
    ensures 0 <= c <= n ==> r == c
  {
    if c < 0 then 0 else if n < c then n else c
  }

  /** The two writes of _AddText: `text`, then `caretPosition`. The selection
      collapses into the new text, onto the caret when the caret is in it; the
      counters and the multi-line flag are kept. */
  function Write(st: FieldState, e: Edit): (r: FieldState)
    ensures InRange(r)
    ensures r.text == e.text && r.caret == e.caret && r.anchor == r.focus
    ensures 0 <= e.caret <= |e.text| ==> r.anchor == e.caret
    ensures r.multiLine == st.multiLine && r.submitCount == st.submitCount && r.refocusCount == st.refocusCount
  {
    st.(text := e.text, caret := e.caret,
        anchor := Clamp(e.caret, |e.text|), focus := Clamp(e.caret, |e.text|))
  }

  /** The trailing refocus of EvaluateKey: one more refocus, nothing else changes. */
  function Refocused(st: FieldState): FieldState
  {
    st.(refocusCount := st.refocusCount + 1)
  }

  /** The effect of one action on the focused field. */
  function Effect(a: Action, st: FieldState): (r: FieldState)
    requires InRange(st)
    ensures InRange(r)
    ensures r.multiLine == st.multiLine
    ensures a.Ignore? <==> r == st
    ensures !a.Ignore? ==> r.refocusCount == st.refocusCount + 1
  {
    match a
    case Ignore => st
    case Insert(s, _) => Refocused(Write(st, AddText(st.text, st.anchor, st.focus, s)))
    case SwitchLayout(_) => Refocused(st)
    case SubmitField => Refocused(st.(submitCount := st.submitCount + 1))
    case Refresh => Refocused(st)
  }

  /** Lower and upper end of the selection of a field. */
  function Lo(st: FieldState): int { Min(st.anchor, st.focus) }
  function Hi(st: FieldState): int { Max(st.anchor, st.focus) }

  /** A key with an empty name changes nothing and binds no layout: the early
      return comes before the refocus. */
  lemma EmptyKeyIsIgnored(key: KeyConfig, st: FieldState)
    requires InRange(st) && key.name == ""
    ensures Effect(Classify(key, st.multiLine), st) == st
    ensures LayoutAfter(Classify(key, st.multiLine)) == Null
  {
  }

  /** A Value key other than "\b" splices its name over the selection and puts
      the caret one past the selection start, whatever the name's length. */
  lemma ValueKeyInserts(key: KeyConfig, st: FieldState)
    requires InRange(st)
    requires key.keyFunction == Value && key.name != "" && key.name != BackspaceText
    ensures var r := Effect(Classify(key, st.multiLine), st);
      && r.text == st.text[..Lo(st)] + key.name + st.text[Hi(st)..]
      && r.caret == Lo(st) + 1
      && r.anchor == r.focus == Lo(st) + 1
      && r.submitCount == st.submitCount
      && r.refocusCount == st.refocusCount + 1
    ensures LayoutAfter(Classify(key, st.multiLine)) == if key.resetToAlpha then NonNull(AlphaConfig) else Null
  {
  }

  /** The Space key inserts one blank by the same rule. */
  lemma SpaceInsertsBlank(key: KeyConfig, st: FieldState)
    requires InRange(st)
    requires key.name != "" && key.keyFunction == Operation && key.operation == Space
    ensures var r := Effect(Classify(key, st.multiLine), st);
      && r.text == st.text[..Lo(st)] + " " + st.text[Hi(st)..]
      && r.caret == Lo(st) + 1
      && r.submitCount == st.submitCount
    ensures LayoutAfter(Classify(key, st.multiLine)) == Null
  {
  }

  /** A Value key named "\b" without resetToAlpha acts exactly like the Backspace key. */
  lemma ValueBackspaceIsBackspace(value: KeyConfig, backspace: KeyConfig, st: FieldState)
    requires InRange(st)
    requires value.keyFunction == Value && value.name == BackspaceText && !value.resetToAlpha
    requires backspace.name != "" && backspace.keyFunction == Operation && backspace.operation == Backspace
    ensures Effect(Classify(value, st.multiLine), st) == Effect(Classify(backspace, st.multiLine), st)
    ensures LayoutAfter(Classify(value, st.multiLine)) == LayoutAfter(Classify(backspace, st.multiLine))
  {
  }

  /** Backspace over a non-empty selection deletes exactly the selection. */
  lemma BackspaceDeletesSelection(key: KeyConfig, st: FieldState)
    requires InRange(st) && Lo(st) < Hi(st)
    requires key.name != "" && key.keyFunction == Operation && key.operation == Backspace
    ensures var r := Effect(Classify(key, st.multiLine), st);
      && r.text == st.text[..Lo(st)] + st.text[Hi(st)..]
      && r.caret == Lo(st) && r.anchor == r.focus == Lo(st)
  {
  }

  /** Backspace on a collapsed selection deletes the character before it, if
      any. The raw caret moves back one, except at the end of the text, where
      it stays put; the selection lands one before the old position either way.
      Nothing goes negative. */
  lemma BackspaceDeletesPrevious(key: KeyConfig, st: FieldState)
    requires InRange(st) && st.anchor == st.focus
    requires key.name != "" && key.keyFunction == Operation && key.operation == Backspace
    ensures var r := Effect(Classify(key, st.multiLine), st);
      var p := st.anchor;
      && (p > 0 ==> r.text == st.text[..p - 1] + st.text[p..])
      && (p > 0 ==> r.caret == if p == |st.text| then p else p - 1)
      && (p > 0 ==> r.anchor == r.focus == p - 1)
      && (p == 0 ==> r.text == st.text && r.caret == 0 && r.anchor == r.focus == 0)
  {
  }

  /** The five layout keys bind their layout and leave the text, caret and selection alone. */
  lemma LayoutKeysSwitch(key: KeyConfig, st: FieldState)
    requires InRange(st)
    requires key.name != "" && key.keyFunction == Operation
    requires key.operation in {Shift, Caps, Numbers, Symbols, Alpha}
    ensures var r := Effect(Classify(key, st.multiLine), st);
      r == st.(refocusCount := st.refocusCount + 1)
    ensures LayoutAfter(Classify(key, st.multiLine)) == NonNull(
      match key.operation
      case Shift => ShiftConfig
      case Caps => CapsConfig
      case Numbers => NumberConfig
      case Symbols => SymbolConfig
      case _ => AlphaConfig)
  {
  }

  /** Submit on a multi-line field inserts a line break and submits nothing. */
  lemma SubmitMultiLine(key: KeyConfig, st: FieldState)
    requires InRange(st) && st.multiLine
    requires key.name != "" && key.keyFunction == Operation && key.operation == Submit
    ensures var r := Effect(Classify(key, st.multiLine), st);
      && r.text == st.text[..Lo(st)] + "\n" + st.text[Hi(st)..]
      && r.caret == Lo(st) + 1
      && r.submitCount == st.submitCount
  {
  }

  /** Submit on a single-line field submits exactly once and leaves the text alone. */
  lemma SubmitSingleLine(key: KeyConfig, st: FieldState)
    requires InRange(st) && !st.multiLine
    requires key.name != "" && key.keyFunction == Operation && key.operation == Submit
    ensures var r := Effect(Classify(key, st.multiLine), st);
      r == st.(submitCount := st.submitCount + 1, refocusCount := st.refocusCount + 1)
    ensures LayoutAfter(Classify(key, st.multiLine)) == Null
  {
  }

  /** Touching the keyboard background only refocuses the field. */
  lemma BackgroundTouchOnlyRefocuses(st: FieldState)
    requires InRange(st)
    ensures Effect(Classify(BackgroundKey, st.multiLine), st) == st.(refocusCount := st.refocusCount + 1)
    ensures LayoutAfter(Classify(BackgroundKey, st.multiLine)) == Null
  {
  }
}
