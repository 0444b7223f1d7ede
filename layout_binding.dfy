/** What Keyboard._SetConfig binds: the UI grid is a fixed number of rows, each
    with a fixed number of key slots; slot (r, k) takes key k of row r of the
    layout, or the empty key. A row the layout does not have is a default row
    whose key array is null, and reading it throws, which ends the binding. */
module LayoutBinding {
  import opened KeyConfigs

  /** Slot `index` of UI row `row`. */
  datatype Slot = Slot(row: nat, index: nat)

  /** What a slot's widget shows: whether it is active, its caption, and the
      click listeners its button holds, each named by the slot whose table
      entry it evaluates. */
  datatype SlotView = SlotView(active: bool, caption: string, listeners: seq<Slot>)

  /** `grid[r]` is the number of key slots of UI row r. */
  predicate InGrid(grid: seq<nat>, s: Slot)
  {
    s.row < |grid| && s.index < grid[s.row]
  }

  /** The key array of config row r, or the null array of a default row. */
  function RowKeys(cfg: KeyboardConfig, r: nat): Nullable<seq<KeyConfig>>
  {
    if r < |cfg.rows| then cfg.rows[r].keys else Null
  }

  /** The key bound to slot s when its row's key array is there: a key of
      that row, or the empty key. */
  function KeyAt(cfg: KeyboardConfig, s: Slot): KeyConfig
  {
    match RowKeys(cfg, s.row)
    case Null => EmptyKey
    case NonNull(ks) => if s.index < |ks| then ks[s.index] else EmptyKey
  }

  /** Binding UI row r throws: the row has a slot and its key array is null. */
  predicate Throws(cfg: KeyboardConfig, grid: seq<nat>, r: nat)
  {
    r < |grid| && grid[r] > 0 && RowKeys(cfg, r).Null?
  }

  /** The first UI row at or after `from` whose binding throws, or |grid| if none does. */
  function FirstThrow(cfg: KeyboardConfig, grid: seq<nat>, from: nat): (f: nat)
    requires from <= |grid|
    ensures from <= f <= |grid|
    ensures f < |grid| ==> Throws(cfg, grid, f)
    ensures forall r :: from <= r < f ==> !Throws(cfg, grid, r)
    decreases |grid| - from
  {
    if from == |grid| || Throws(cfg, grid, from) then from
    else FirstThrow(cfg, grid, from + 1)
  }

  /** Binding `cfg` reaches slot s: every row up to the first throwing one. */
  predicate Bound(cfg: KeyboardConfig, grid: seq<nat>, s: Slot)
  {
    InGrid(grid, s) && s.row < FirstThrow(cfg, grid, 0)
  }

  /** Binding `cfg` is aborted by an exception. */
  predicate Fails(cfg: KeyboardConfig, grid: seq<nat>)
  {
    FirstThrow(cfg, grid, 0) < |grid|
  }

  /** `btn.onClick.RemoveAllListeners()`. */
  function RemoveAllListeners(listeners: seq<Slot>): seq<Slot>
  {
    []
  }

  /** `btn.onClick.AddListener(..)` of the handler that evaluates slot s's table entry. */
  function AddListener(listeners: seq<Slot>, s: Slot): seq<Slot>
  {
    listeners + [s]
  }

  /** The view of slot s, which showed `v`, once it is bound to `key`. */
  function Rebind(v: SlotView, s: Slot, key: KeyConfig): SlotView
  {
    SlotView(key.name != "", key.name, AddListener(RemoveAllListeners(v.listeners), s))
  }

  /** The table `keys` and the slot views `slots` are what binding `cfg` over
      the views `before` leaves: the bound slots hold their config key and show
      it; every other slot keeps its old view. */
  ghost predicate Binds(cfg: KeyboardConfig, grid: seq<nat>, before: map<Slot, SlotView>,
                        keys: map<Slot, KeyConfig>, slots: map<Slot, SlotView>)
  {
    && (forall s :: s in keys <==> Bound(cfg, grid, s))
    && (forall s :: s in keys ==> keys[s] == KeyAt(cfg, s))
    && slots.Keys == before.Keys
    && (forall s :: s in slots ==> slots[s] == if s in keys then Rebind(before[s], s, keys[s]) else before[s])
  }

  /** The same, once the binding has reached slot k of UI row r. */
  ghost predicate BoundPrefix(cfg: KeyboardConfig, grid: seq<nat>, before: map<Slot, SlotView>,
                        keys: map<Slot, KeyConfig>, slots: map<Slot, SlotView>, r: nat, k: nat)
  {
    && (forall s :: s in keys <==> InGrid(grid, s) && (s.row < r || (s.row == r && s.index < k)))
    && (forall s :: s in keys ==> keys[s] == KeyAt(cfg, s))
    && slots.Keys == before.Keys
    && (forall s :: s in slots ==> slots[s] == if s in keys then Rebind(before[s], s, keys[s]) else before[s])
  }

  /** Binding one more slot of a row whose key array is there. */
  lemma BindSlot(cfg: KeyboardConfig, grid: seq<nat>, before: map<Slot, SlotView>,
                 keys: map<Slot, KeyConfig>, slots: map<Slot, SlotView>, r: nat, k: nat)
    requires BoundPrefix(cfg, grid, before, keys, slots, r, k)
    requires r < |grid| && k < grid[r] && Slot(r, k) in before
    ensures slots[Slot(r, k)] == before[Slot(r, k)]
    ensures var key := KeyAt(cfg, Slot(r, k));
      BoundPrefix(cfg, grid, before, keys[Slot(r, k) := key],
                  slots[Slot(r, k) := Rebind(before[Slot(r, k)], Slot(r, k), key)], r, k + 1)
  {
  }

  /** A finished row is the start of the next one. */
  lemma NextRow(cfg: KeyboardConfig, grid: seq<nat>, before: map<Slot, SlotView>,
                keys: map<Slot, KeyConfig>, slots: map<Slot, SlotView>, r: nat)
    requires r < |grid| && BoundPrefix(cfg, grid, before, keys, slots, r, grid[r])
    ensures BoundPrefix(cfg, grid, before, keys, slots, r + 1, 0)
  {
  }

  /** Stopping at the first throwing row, or at the end of the grid, is the whole binding. */
  lemma PrefixIsBinding(cfg: KeyboardConfig, grid: seq<nat>, before: map<Slot, SlotView>,
                        keys: map<Slot, KeyConfig>, slots: map<Slot, SlotView>)
    requires BoundPrefix(cfg, grid, before, keys, slots, FirstThrow(cfg, grid, 0), 0)
    ensures Binds(cfg, grid, before, keys, slots)
  {
  }

  /** A slot is bound exactly when no UI row up to and including its own throws. */
  lemma BoundIff(cfg: KeyboardConfig, grid: seq<nat>, s: Slot)
    ensures Bound(cfg, grid, s) <==>
      InGrid(grid, s) && forall i :: 0 <= i <= s.row ==> !Throws(cfg, grid, i)
  {
  }

  /** A row index that no earlier row beats, and that throws or is the end of
      the grid, is where the binding stops. */
  lemma FirstThrowAt(cfg: KeyboardConfig, grid: seq<nat>, r: nat)
    requires r <= |grid|
    requires forall i :: 0 <= i < r ==> !Throws(cfg, grid, i)
    requires r == |grid| || Throws(cfg, grid, r)
    ensures FirstThrow(cfg, grid, 0) == r
  {
  }

  /** A bound slot takes key `index` of its config row, or the empty key past
      the row's end; in particular its row exists in the config. */
  lemma BoundKey(cfg: KeyboardConfig, grid: seq<nat>, s: Slot)
    requires Bound(cfg, grid, s)
    ensures s.row < |cfg.rows| && cfg.rows[s.row].keys.NonNull?
    ensures var ks := cfg.rows[s.row].keys.value;
      KeyAt(cfg, s) == if s.index < |ks| then ks[s.index] else EmptyKey
  {
    assert !Throws(cfg, grid, s.row);
  }

  /** A UI row with slots beyond the config's rows aborts the binding there:
      no slot of that row or of any later row is bound. */
  lemma ShortConfigAborts(cfg: KeyboardConfig, grid: seq<nat>, r: nat)
    requires |cfg.rows| <= r < |grid| && grid[r] > 0
    ensures Fails(cfg, grid)
    ensures forall s :: InGrid(grid, s) && r <= s.row ==> !Bound(cfg, grid, s)
  {
    assert Throws(cfg, grid, r);
  }

  /** Binding succeeds exactly when every UI row with slots has a key array,
      and then every slot of the grid is bound. */
  lemma CompleteBinding(cfg: KeyboardConfig, grid: seq<nat>)
    ensures !Fails(cfg, grid) <==>
      forall r :: 0 <= r < |grid| && grid[r] > 0 ==> RowKeys(cfg, r).NonNull?
    ensures !Fails(cfg, grid) ==> forall s :: InGrid(grid, s) ==> Bound(cfg, grid, s)
  {
    var f := FirstThrow(cfg, grid, 0);
    if f < |grid| {
      assert Throws(cfg, grid, f);
    } else {
      forall r | 0 <= r < |grid| && grid[r] > 0 ensures RowKeys(cfg, r).NonNull? {
        assert !Throws(cfg, grid, r);
      }
    }
  }

  /** Whatever listeners a slot's button held before, once the slot is bound
      it holds exactly one, which evaluates that slot's own table entry; the
      slot is active iff its key has a name, and is captioned with it. */
  lemma BoundSlotView(cfg: KeyboardConfig, grid: seq<nat>, before: map<Slot, SlotView>,
                      keys: map<Slot, KeyConfig>, slots: map<Slot, SlotView>, s: Slot)
    requires Binds(cfg, grid, before, keys, slots) && s in before && Bound(cfg, grid, s)
    ensures s in slots && s in keys
    ensures slots[s].listeners == [s]
    ensures slots[s].active <==> keys[s].name != ""
    ensures slots[s].caption == keys[s].name
  {
  }

  /** Binding a slot again leaves it as binding it once did: the listeners do not pile up. */
  lemma RebindIdempotent(v: SlotView, s: Slot, key: KeyConfig)
    ensures Rebind(Rebind(v, s, key), s, key) == Rebind(v, s, key)
  {
  }
}
