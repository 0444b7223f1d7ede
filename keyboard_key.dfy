/** The component on every key button: selecting a key hands the live target
    back to the field the keyboard is editing, and deselecting a key may clear it. */
module KeyboardKeys {
  import opened InputFields
  import opened KeyboardEngine

  class KeyboardKey {
    /** The keyboard singleton (`Keyboard.instance`). */
    const keyboard: Keyboard
    /** Whether deselecting this key clears the live target. */
    var useDeselect: bool

    constructor (keyboard: Keyboard)
      ensures this.keyboard == keyboard
      ensures useDeselect
    {
      this.keyboard := keyboard;
      useDeselect := true;
    }

    /** `OnSelect`: restore the keyboard's cached target as the live one, if it has one. */
    method OnSelect()
      modifies keyboard.io
      ensures keyboard.io.target == if keyboard.target != null then keyboard.target else old(keyboard.io.target)
    {
      if keyboard.target != null {
        keyboard.io.target := keyboard.target;
      }
    }

    /** `OnDeselect`: clear the live target when `useDeselect` is set, else keep it. */
    method OnDeselect()
      modifies keyboard.io
      ensures keyboard.io.target == if useDeselect then null else old(keyboard.io.target)
    {
      keyboard.io.target := if useDeselect then null else keyboard.io.target;
    }
  }

  /** Tapping a key while the keyboard edits a field: the field and the key
      that had the focus are deselected and the tapped key is selected before
      the next tick. The live target is back on the cached one, so the tick
      neither closes nor reopens the keyboard. */
  method TapKeepsKeyboardOpen(kb: Keyboard, field: FieldIO, previous: KeyboardKey, tapped: KeyboardKey)
    requires kb.Valid() && kb.target != null
    requires field.io == kb.io && previous.keyboard == kb && tapped.keyboard == kb
    modifies kb.io, kb
    ensures kb.io.target == kb.target == old(kb.target)
    ensures kb.events == old(kb.events) && kb.keys == old(kb.keys) && kb.slots == old(kb.slots)
    ensures kb.active == old(kb.active)
  {
    field.OnDeselect();
    previous.OnDeselect();
    tapped.OnSelect();
    kb.FixedUpdate();
  }

  /** Without a key select in between, deselecting the field closes the keyboard on the next tick. */
  method DeselectClosesKeyboard(kb: Keyboard, field: FieldIO)
    requires kb.Valid() && kb.target != null && field.io == kb.io
    modifies kb.io, kb
    ensures kb.target == null && kb.io.target == null
    ensures kb.events == old(kb.events) + [Close]
  {
    field.OnDeselect();
    kb.FixedUpdate();
  }

  /** Selecting a field B while the keyboard edits a field A reopens it on B,
      with the alpha layout bound. */
  method SwitchFieldReopens(kb: Keyboard, other: FieldIO)
    requires kb.Valid() && kb.target != null && other.io == kb.io
    requires other.input != kb.target && other.input.Valid()
    modifies kb.io, kb
    ensures kb.target == other.input
    ensures kb.Rebound(kb.alphaConfig, old(kb.slots))
    ensures kb.events == old(kb.events) + BindLog(kb.alphaConfig, kb.grid) + [Open]
  {
    other.OnSelect();
    kb.FixedUpdate();
  }
}
