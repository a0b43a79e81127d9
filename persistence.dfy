/**
 * The three values `saveState` writes to the user-defaults store and
 * `restoreState` reads back, with the store's own reading rules: a missing
 * list is no list, a missing boolean is false, a missing integer is 0, and
 * numbers and booleans read as one another.
 */
module Persistence {
  import opened Wrappers
  import opened Modifiers
  import opened ScreenGeometry

  /** The property-list values the three keys can hold. */
  datatype Value = IntArray(items: seq<int>) | BoolValue(b: bool) | IntegerValue(n: int)

  type Store = map<string, Value>

  const AllowedDisplaysKey: string := "allowedDisplays"
  const IsEnabledKey: string := "isEnabled"
  const OverrideModifierKey: string := "overrideModifier"

  /** The persisted part of the monitor's state. */
  datatype EngineState = EngineState(allowed: set<DisplayId>, enabled: bool, modifier: ModifierOption)

  /** `array(forKey:) as? [Int]`: the stored list, if the key holds a list of integers. */
  function IntArrayFor(store: Store, key: string): Option<seq<int>> {
    if key in store && store[key].IntArray? then Some(store[key].items) else None
  }

  /** `bool(forKey:)`: false when absent; a number reads as true when it is not zero. */
  function BoolFor(store: Store, key: string): bool {
    if key !in store then false
    else match store[key]
      case BoolValue(b) => b
      case IntegerValue(n) => n != 0
      case IntArray(_) => false
  }

  /** `integer(forKey:)`: 0 when absent; a boolean reads as 1 or 0. */
  function IntegerFor(store: Store, key: string): int {
    if key !in store then 0
    else match store[key]
      case IntegerValue(n) => n
      case BoolValue(b) => if b then 1 else 0
      case IntArray(_) => 0
  }

  /** Every stored display id fits a CGDirectDisplayID (the conversion traps otherwise). */
  predicate StoredIdsInRange(store: Store) {
    IntArrayFor(store, AllowedDisplaysKey).Some? ==>
      forall i :: i in IntArrayFor(store, AllowedDisplaysKey).value ==> IsDisplayId(i)
  }

  /** The allowed set after a restore: the stored list as a set, or the current set when no list is stored. */
  function RestoredAllowed(store: Store, current: set<DisplayId>): (r: set<DisplayId>)
    requires StoredIdsInRange(store)
    ensures IntArrayFor(store, AllowedDisplaysKey).None? ==> r == current
    ensures IntArrayFor(store, AllowedDisplaysKey).Some? ==>
              forall i: int :: i in r <==> i in IntArrayFor(store, AllowedDisplaysKey).value
  {
    match IntArrayFor(store, AllowedDisplaysKey)
    case None => current
    case Some(ids) => set i | i in ids :: i as DisplayId
  }

  /** The modifier after a restore: the stored code decoded, an unknown code falling back to Option. */
  function RestoredModifier(store: Store): (m: ModifierOption)
    ensures 0 <= IntegerFor(store, OverrideModifierKey) <= 4 ==> RawValue(m) == IntegerFor(store, OverrideModifierKey)
    ensures !(0 <= IntegerFor(store, OverrideModifierKey) <= 4) ==> m == OptionKey
  {
    FromRawValue(IntegerFor(store, OverrideModifierKey)).GetOr(OptionKey)
  }

  /** The whole state `restoreState` produces from a store, given the allowed set before it. */
  function Restored(store: Store, current: set<DisplayId>): EngineState
    requires StoredIdsInRange(store)
  {
    EngineState(RestoredAllowed(store, current), BoolFor(store, IsEnabledKey), RestoredModifier(store))
  }

  /**
   * The store holds what `saveState` writes for `st`: the allowed ids as a
   * list without repeats (in no particular order), the flag, and the code.
   */
  ghost predicate Persisted(store: Store, st: EngineState) {
    && AllowedDisplaysKey in store && store[AllowedDisplaysKey].IntArray?
    && (forall i: int :: i in store[AllowedDisplaysKey].items <==> i in st.allowed)
    && (forall j, k :: 0 <= j < k < |store[AllowedDisplaysKey].items| ==>
          store[AllowedDisplaysKey].items[j] != store[AllowedDisplaysKey].items[k])
    && IsEnabledKey in store && store[IsEnabledKey] == BoolValue(st.enabled)
    && OverrideModifierKey in store && store[OverrideModifierKey] == IntegerValue(RawValue(st.modifier))
  }

  /** Save then restore: the restored triple is the saved one, whatever was in memory before. */
  lemma RestoreAfterSave(store: Store, st: EngineState, current: set<DisplayId>)
    requires Persisted(store, st)
    ensures StoredIdsInRange(store)
    ensures Restored(store, current) == st
  {
    assert IntArrayFor(store, AllowedDisplaysKey) == Some(store[AllowedDisplaysKey].items);
    var r := RestoredAllowed(store, current);
    assert forall i: DisplayId :: i in r <==> i in st.allowed;
    assert r == st.allowed;
    RawValueRoundTrip(st.modifier);
  }

  /** A stored code outside 0..4 restores as Option. */
  lemma UnknownCodeRestoresOption(store: Store)
    requires OverrideModifierKey in store && store[OverrideModifierKey].IntegerValue?
    requires !(0 <= store[OverrideModifierKey].n <= 4)
    ensures RestoredModifier(store) == OptionKey
  {
  }

  /**
   * A store without the modifier key reads as code 0, which is a valid code:
   * the restored choice is "None", not the Option fallback.
   */
  lemma AbsentCodeRestoresNoModifier(store: Store)
    requires OverrideModifierKey !in store
    ensures RestoredModifier(store) == NoModifier
  {
  }

  /** Without a stored list, the allowed set is left as it was. */
  lemma AbsentListKeepsAllowed(store: Store, current: set<DisplayId>)
    requires AllowedDisplaysKey !in store
    ensures StoredIdsInRange(store)
    ensures RestoredAllowed(store, current) == current
  {
  }

  /** A missing flag restores as disabled. */
  lemma AbsentFlagRestoresDisabled(store: Store)
    requires IsEnabledKey !in store
    ensures !BoolFor(store, IsEnabledKey)
  {
  }

  /**
   * `allowedDisplays.map { Int($0) }`: the ids of a set as a list, each once,
   * in an order the set does not fix.
   */
  method IdList(ids: set<DisplayId>) returns (xs: seq<int>)
    ensures forall i: int :: i in xs <==> i in ids
    ensures |xs| == |ids|
    ensures forall j, k :: 0 <= j < k < |xs| ==> xs[j] != xs[k]
  {
    xs := [];
    var rest := ids;
    while rest != {}
      invariant rest <= ids
      invariant forall i: int :: i in xs <==> i in ids && i !in rest
      invariant |xs| + |rest| == |ids|
      invariant forall j, k :: 0 <= j < k < |xs| ==> xs[j] != xs[k]
      decreases rest
    {
      var id :| id in rest;
      xs := xs + [id];
      rest := rest - {id};
    }
  }
}
