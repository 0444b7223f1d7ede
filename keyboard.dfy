/** The on-screen keyboard: it caches the edit target, binds a layout onto its
    fixed grid of key slots, evaluates key presses against the cached target,
    and opens or closes when the live target changes. */
module KeyboardEngine {
  import opened KeyConfigs
  import TextEdit
  import opened KeyEvaluation
  import opened LayoutBinding
  import opened InputFields

  /** What the keyboard reports: the Open and Close animation triggers, and
      the error logged when binding a layout fails (with the layout's name). */
  datatype Event = Open | Close | LoadError(config: string)

  /** The log entry binding `cfg` onto `grid` leaves. */
  function BindLog(cfg: KeyboardConfig, grid: seq<nat>): (log: seq<Event>)
    ensures log == [] <==> forall r :: 0 <= r < |grid| && grid[r] > 0 ==> RowKeys(cfg, r).NonNull?
    ensures log != [] ==> log == [LoadError(cfg.name)]
  {
    CompleteBinding(cfg, grid);
    if Fails(cfg, grid) then [LoadError(cfg.name)] else []
  }

  class Keyboard {
    const io: FocusTracker
    const alphaConfig: KeyboardConfig
    const shiftConfig: KeyboardConfig
    const capsConfig: KeyboardConfig
    const numberConfig: KeyboardConfig
    const symbolConfig: KeyboardConfig
    /** `grid[r]` is the number of key slots of UI row r. */
    const grid: seq<nat>

    /** The cached edit target (`_target`). */
    var target: InputField?
    /** The slot-to-key table (`_keys`). */
    var keys: map<Slot, KeyConfig>
    /** The widget state of every slot of the grid. */
    var slots: map<Slot, SlotView>
    /** The config last passed to _SetConfig. */
    var active: Nullable<KeyboardConfig>
    var events: seq<Event>

    ghost predicate Valid()
      reads this, target
    {
      && (forall s :: InGrid(grid, s) ==> s in slots)
      && (forall s :: s in keys ==> InGrid(grid, s))
      && (target != null ==> target.Valid())
    }

    constructor (io: FocusTracker, alpha: KeyboardConfig, shift: KeyboardConfig, caps: KeyboardConfig,
                 numbers: KeyboardConfig, symbols: KeyboardConfig, grid: seq<nat>, slots: map<Slot, SlotView>)
      requires forall s :: InGrid(grid, s) ==> s in slots
      ensures Valid()
      ensures this.io == io && this.grid == grid && this.slots == slots
      ensures alphaConfig == alpha && shiftConfig == shift && capsConfig == caps
      ensures numberConfig == numbers && symbolConfig == symbols
      ensures target == null && keys == map[] && active == Null && events == []
    {
      this.io := io;
      alphaConfig, shiftConfig, capsConfig := alpha, shift, caps;
      numberConfig, symbolConfig := numbers, symbols;
      this.grid := grid;
      this.slots := slots;
      target := null;
      keys := map[];
      active := Null;
      events := [];
    }

    /** The config field that holds a layout. */
    function ConfigOf(l: Layout): KeyboardConfig
    {
      match l
      case AlphaConfig => alphaConfig
      case ShiftConfig => shiftConfig
      case CapsConfig => capsConfig
      case NumberConfig => numberConfig
      case SymbolConfig => symbolConfig
    }

    /** The config last bound is `cfg`, and the table and the slots are what
        binding it over slot views `before` leaves. */
    ghost predicate Rebound(cfg: KeyboardConfig, before: map<Slot, SlotView>)
      reads this
    {
      active == NonNull(cfg) && Binds(cfg, grid, before, keys, slots)
    }

    /** `_SetConfig`: clear the table and bind the grid row by row, slot by
        slot; an exception stops the binding where it is thrown and is logged. */
    method SetConfig(cfg: KeyboardConfig)
      requires Valid()
      modifies this
      ensures Valid() && target == old(target)
      ensures Rebound(cfg, old(slots))
      ensures events == old(events) + BindLog(cfg, grid)
    {
      ghost var before := slots;
      active := NonNull(cfg);
      keys := map[];
      var failed := false;
      var r := 0;
      while r < |grid| && !failed
        invariant 0 <= r <= |grid|
        invariant forall i :: 0 <= i < r ==> !Throws(cfg, grid, i)
        invariant failed ==> r < |grid| && Throws(cfg, grid, r)
        invariant BoundPrefix(cfg, grid, before, keys, slots, r, 0)
        invariant target == old(target) && events == old(events) && active == NonNull(cfg)
        decreases |grid| - r, if failed then 0 else 1
      {
        var row := RowKeys(cfg, r);
        var k := 0;
        while k < grid[r] && !failed
          invariant 0 <= k <= grid[r]
          invariant failed ==> k == 0 < grid[r] && row.Null?
          invariant k > 0 ==> row.NonNull?
          invariant BoundPrefix(cfg, grid, before, keys, slots, r, k)
          invariant target == old(target) && events == old(events) && active == NonNull(cfg)
          decreases grid[r] - k, if failed then 0 else 1
        {
          match row {
            case Null =>
              // reading the length of a null key array throws: the binding ends here
              failed := true;
            case NonNull(ks) =>
              var key := if k < |ks| then ks[k] else EmptyKey;
              assert InGrid(grid, Slot(r, k));
              BindSlot(cfg, grid, before, keys, slots, r, k);
              slots := slots[Slot(r, k) := Rebind(slots[Slot(r, k)], Slot(r, k), key)];
              keys := keys[Slot(r, k) := key];
              k := k + 1;
          }
        }
        if !failed {
          NextRow(cfg, grid, before, keys, slots, r);
          r := r + 1;
        }
      }
      FirstThrowAt(cfg, grid, r);
      PrefixIsBinding(cfg, grid, before, keys, slots);
      if failed {
        events := events + [LoadError(cfg.name)];
      }
    }

    /** `EvaluateKey`: act on the cached target as the key says, and refocus it. */
    method EvaluateKey(key: KeyConfig)
      requires Valid()
      modifies this, target
      ensures Valid() && target == old(target)
      ensures target == null ==> unchanged(this)
      ensures target != null ==>
        var a := Classify(key, target.multiLine);
        && target.State() == Effect(a, old(target.State()))
        && target.selectListeners == old(target.selectListeners)
        && target.deselectListeners == old(target.deselectListeners)
        && match LayoutAfter(a)
           case Null =>
             keys == old(keys) && slots == old(slots) && active == old(active) && events == old(events)
           case NonNull(l) =>
             Rebound(ConfigOf(l), old(slots)) && events == old(events) + BindLog(ConfigOf(l), grid)
    {
      if target == null || key.name == "" {
        return;
      }
      match key.keyFunction {
        case Value =>
          AddText(key.name);
          if key.resetToAlpha {
            SetConfig(alphaConfig);
          }
        case Operation =>
          match key.operation {
            case Shift => SetConfig(shiftConfig);
            case Caps => SetConfig(capsConfig);
            case Numbers => SetConfig(numberConfig);
            case Symbols => SetConfig(symbolConfig);
            case Alpha => SetConfig(alphaConfig);
            case Space => AddText(" ");
            case Submit =>
              if target.multiLine {
                AddText("\n");
              } else {
                target.OnSubmit();
              }
            case Backspace => AddText(BackspaceText);
            case None =>
          }
      }
      target.Select();
    }

    /** The local `_AddText`: splice `pText` into the target and write the caret. */
    method AddText(pText: string)
      requires target != null && target.Valid()
      modifies target
      ensures target.Valid()
      ensures target.State() ==
        Write(old(target.State()), TextEdit.AddText(old(target.text), old(target.anchor), old(target.focus), pText))
      ensures target.selectListeners == old(target.selectListeners)
      ensures target.deselectListeners == old(target.deselectListeners)
    {
      var e := TextEdit.AddText(target.text, target.anchor, target.focus, pText);
      target.SetText(e.text);
      target.SetCaretPosition(e.caret);
    }

    /** `BackgroundTouch`: evaluate an operation key of kind None, which only refocuses. */
    method BackgroundTouch()
      requires Valid()
      modifies this, target
      ensures Valid() && target == old(target)
      ensures keys == old(keys) && slots == old(slots) && active == old(active) && events == old(events)
      ensures target != null ==> target.State() == old(target.State()).(refocusCount := old(target.refocusCount) + 1)
    {
      if target != null {
        BackgroundTouchOnlyRefocuses(target.State());
      }
      EvaluateKey(BackgroundKey);
    }

    /** The click handler of a slot: evaluate the key the table holds for it.
        A slot missing from the table makes the lookup throw, and nothing happens. */
    method OnClick(s: Slot)
      requires Valid()
      modifies this, target
      ensures Valid() && target == old(target)
      ensures s !in old(keys) || old(keys)[s].name == "" ==>
        && keys == old(keys) && slots == old(slots) && active == old(active) && events == old(events)
        && (target != null ==> target.State() == old(target.State()))
    {
      if s in keys {
        EvaluateKey(keys[s]);
      }
    }

    /** `FixedUpdate`: follow the live target. A new non-null target opens the
        keyboard on the alpha layout; losing the target closes it. */
    method FixedUpdate()
      requires Valid()
      requires io.target != null ==> io.target.Valid()
      modifies this
      ensures Valid()
      ensures target == io.target
      ensures old(target) == io.target ==> unchanged(this)
      ensures io.target != null && old(target) != io.target ==>
        Rebound(alphaConfig, old(slots)) && events == old(events) + BindLog(alphaConfig, grid) + [Open]
      ensures io.target == null && old(target) != null ==>
        && keys == old(keys) && slots == old(slots) && active == old(active)
        && events == old(events) + [Close]
    {
      if io.target != null {
        if target == io.target {
          return;
        }
        target := io.target;
        SetConfig(alphaConfig);
        events := events + [Open];
        return;
      }
      if target == null {
        return;
      }
      target := null;
      events := events + [Close];
    }
  }
}
