/** The data model of a keyboard layout (KeyConfig, KeyRowConfig, KeyboardConfig)
    and the decision EvaluateKey takes on one key before it touches any state. */
module KeyConfigs {

  /** A C# reference or array that may be null. */
  datatype Nullable<T> = Null | NonNull(value: T)

  datatype KeyFunction = Value | Operation

  datatype KeyOperation = None | Shift | Caps | Numbers | Symbols | Alpha | Submit | Space | Backspace

  /** One key of a layout; the styling fields (width, colours, sizes, margin) are not modelled. */
  datatype KeyConfig = KeyConfig(name: string, keyFunction: KeyFunction, operation: KeyOperation, resetToAlpha: bool)

  /** A row of keys; `keys` is null in a default-constructed row. */
  datatype KeyRowConfig = KeyRowConfig(keys: Nullable<seq<KeyConfig>>)

  /** A layout asset: its name (used in the error log) and its rows. */
  datatype KeyboardConfig = KeyboardConfig(name: string, rows: seq<KeyRowConfig>)

  /** `new KeyConfig() { name = "" }`: every other field at its default. */
  const EmptyKey := KeyConfig("", Value, None, false)

  /** The in-band text "\b" that _AddText reads as a backspace. */
  const BackspaceText: string := [8 as char]

  /** The key BackgroundTouch evaluates. */
  const BackgroundKey := KeyConfig("Background", Operation, None, false)

  /** The five layouts a keyboard holds, named after its config fields. */
  datatype Layout = AlphaConfig | ShiftConfig | CapsConfig | NumberConfig | SymbolConfig

  /** What evaluating a key does, once the target is known to exist. */
  datatype Action =
    | Ignore                                  // empty key name: return before anything else
    | Insert(text: string, thenAlpha: bool)   // _AddText(text), then possibly switch to alpha
    | SwitchLayout(layout: Layout)            // _SetConfig of one of the five layouts
    | SubmitField                             // the target's OnSubmit
    | Refresh                                 // operation None: the self-assignments only

  /** The branch EvaluateKey takes for `key` on a target whose multi-line flag is `multiLine`. */
  function Classify(key: KeyConfig, multiLine: bool): (a: Action)
    ensures a == Ignore <==> key.name == ""
    ensures a.Insert? ==> a.text != ""
    ensures a.Insert? && a.thenAlpha ==> key.keyFunction == Value && key.resetToAlpha
    ensures a.SubmitField? ==> !multiLine && key.operation == Submit
  {
    if key.name == "" then Ignore
    else match key.keyFunction
      case Value => Insert(key.name, key.resetToAlpha)
      case Operation =>
        match key.operation
        case Shift => SwitchLayout(ShiftConfig)
        case Caps => SwitchLayout(CapsConfig)
        case Numbers => SwitchLayout(NumberConfig)
        case Symbols => SwitchLayout(SymbolConfig)
        case Alpha => SwitchLayout(AlphaConfig)
        case Space => Insert(" ", false)
        case Submit => if multiLine then Insert("\n", false) else SubmitField
        case Backspace => Insert(BackspaceText, false)
        case None => Refresh
  }

  /** The layout an action leaves bound, if it binds one. */
  function LayoutAfter(a: Action): Nullable<Layout>
  {
    match a
    case Insert(_, thenAlpha) => if thenAlpha then NonNull(AlphaConfig) else Null
    case SwitchLayout(l) => NonNull(l)
    case _ => Null
  }

  /** A key press leaves a layout bound exactly when the key is a named layout
      key, or a named Value key that resets to alpha. */
  lemma RebindingKeys(key: KeyConfig, multiLine: bool)
    ensures LayoutAfter(Classify(key, multiLine)).NonNull? <==>
      key.name != "" &&
      ((key.keyFunction == Value && key.resetToAlpha) ||
       (key.keyFunction == Operation && key.operation in {Shift, Caps, Numbers, Symbols, Alpha}))
  {
  }
}
