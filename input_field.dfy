/** The host input field, the process-wide live target (the static
    `WebGLKeyboardIO_TMP.target`) and the component that each input field
    carries to report its select and deselect events to it. */
module InputFields {
  import opened KeyEvaluation

  /** The live edit target shared by every input field, every key and the keyboard. */
  class FocusTracker {
    var target: InputField?

    constructor ()
      ensures target == null
    {
      target := null;
    }
  }

  /** The host text widget, reduced to what the keyboard reads and writes.
      `caret` is the raw caret value `_AddText` last computed; writing a caret
      collapses the selection onto that value clamped to the text. */
  class InputField {
    var text: string
    var anchor: int
    var focus: int
    var caret: int
    const multiLine: bool
    var submitCount: nat
    var refocusCount: nat
    var selectListeners: seq<FieldIO>
    var deselectListeners: seq<FieldIO>

    ghost predicate Valid()
      reads this
    {
      InRange(State())
    }

    ghost function State(): FieldState
      reads this
    {
      FieldState(text, anchor, focus, caret, multiLine, submitCount, refocusCount)
    }

    constructor (text: string, caret: nat, multiLine: bool)
      requires caret <= |text|
      ensures Valid()
      ensures State() == FieldState(text, caret, caret, caret, multiLine, 0, 0)
      ensures selectListeners == [] && deselectListeners == []
    {
      this.text := text;
      this.anchor, this.focus, this.caret := caret, caret, caret;
      this.multiLine := multiLine;
      submitCount, refocusCount := 0, 0;
      selectListeners, deselectListeners := [], [];
    }

    /** The `text` setter. */
    method SetText(t: string)
      modifies this
      ensures State() == old(State()).(text := t)
      ensures selectListeners == old(selectListeners) && deselectListeners == old(deselectListeners)
    {
      text := t;
    }

    /** The `caretPosition` setter. */
    method SetCaretPosition(c: int)
      modifies this
      ensures Valid()
      ensures State() == old(State()).(caret := c, anchor := Clamp(c, |text|), focus := Clamp(c, |text|))
      ensures selectListeners == old(selectListeners) && deselectListeners == old(deselectListeners)
    {
      caret := c;
      anchor, focus := Clamp(c, |text|), Clamp(c, |text|);
    }

    /** `OnSubmit`: what the host does on submit is not part of the model; it is counted. */
    method OnSubmit()
      modifies this
      ensures State() == old(State()).(submitCount := old(submitCount) + 1)
      ensures selectListeners == old(selectListeners) && deselectListeners == old(deselectListeners)
    {
      submitCount := submitCount + 1;
    }

    /** `Select()` with select-all-on-focus suppressed: counted. */
    method Select()
      modifies this
      ensures State() == Refocused(old(State()))
      ensures selectListeners == old(selectListeners) && deselectListeners == old(deselectListeners)
    {
      refocusCount := refocusCount + 1;
    }
  }

  /** `s` with every occurrence of `x` removed: what removing a listener does
      to a listener list. */
  function Without<T(==)>(s: seq<T>, x: T): (r: seq<T>)
    ensures multiset(r) == multiset(s)[x := 0]
  {
    if s == [] then []
    else
      assert s == [s[0]] + s[1..];
      if s[0] == x then Without(s[1..], x)
      else [s[0]] + Without(s[1..], x)
  }

  /** The component WebGLKeyboardIO_TMP attached to one input field. */
  class FieldIO {
    const input: InputField
    const io: FocusTracker

    constructor (input: InputField, io: FocusTracker)
      ensures this.input == input && this.io == io
    {
      this.input := input;
      this.io := io;
    }

    /** `Start`: remove, then add, this component's select and deselect listeners. */
    method Start()
      modifies input
      ensures input.selectListeners == Without(old(input.selectListeners), this) + [this]
      ensures input.deselectListeners == Without(old(input.deselectListeners), this) + [this]
      ensures multiset(input.selectListeners)[this] == 1
      ensures multiset(input.deselectListeners)[this] == 1
      ensures input.State() == old(input.State())
    {
      input.selectListeners := Without(input.selectListeners, this) + [this];
      input.deselectListeners := Without(input.deselectListeners, this) + [this];
    }

    /** `_OnSelect`: this field becomes the one live target. */
    method OnSelect()
      modifies io
      ensures io.target == input
    {
      io.target := input;
    }

    /** `_OnDeselect`: the live target is cleared, whichever field it is. */
    method OnDeselect()
      modifies io
      ensures io.target == null
    {
      io.target := null;
    }
  }

  /** Starting twice leaves one listener of each kind, as starting once does. */
  lemma RegistrationIdempotent<T>(s: seq<T>, x: T)
    ensures Without(Without(s, x) + [x], x) + [x] == Without(s, x) + [x]
  {
    WithoutAbsent(Without(s, x), x);
    WithoutAppend(Without(s, x), [x], x);
  }

  lemma {:induction false} WithoutAbsent<T>(s: seq<T>, x: T)
    requires x !in s
    ensures Without(s, x) == s
  {
    if s != [] {
      WithoutAbsent(s[1..], x);
    }
  }

  lemma {:induction false} WithoutAppend<T>(s: seq<T>, t: seq<T>, x: T)
    ensures Without(s + t, x) == Without(s, x) + Without(t, x)
  {
    if s == [] {
      assert s + t == t;
    } else {
      assert (s + t)[1..] == s[1..] + t;
      WithoutAppend(s[1..], t, x);
    }
  }
}
