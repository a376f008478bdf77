/**
 * src/persistance.js: the config flags are saved to the browser's local
 * storage as strings and read back as booleans. The storage is a map from
 * key to string; whether the browser offers storage at all is a flag the
 * callers pass in.
 */
module Persistence {
  import opened Wrappers
  import opened Settings

  /** `localStorage`: only `getItem` and `setItem` are used. */
  class LocalStorage {
    var items: map<string, string>

    constructor(items: map<string, string>)
      ensures this.items == items
    {
      this.items := items;
    }

    /** `getItem(key)`: the stored string, or null. */
    function GetItem(key: string): (r: Option<string>)
      reads this
      ensures r.Some? <==> key in items
      ensures r.Some? ==> r.value == items[key]
    {
      if key in items then Some(items[key]) else None
    }

    method SetItem(key: string, value: string)
      modifies this
      ensures items == old(items)[key := value]
    {
      items := items[key := value];
    }
  }

  /** How `setItem` turns a property value into a string (a missing property would be "undefined"). */
  function PropertyString(v: Option<bool>): string {
    match v
    case Some(true) => "true"
    case Some(false) => "false"
    case None => "undefined"
  }

  /** `boolFromString`: only the exact string "true" is true; null is false. */
  function BoolFromString(input: Option<string>): (r: bool)
    ensures r <==> input == Some("true")
    ensures input.None? ==> !r
  {
    input == Some("true")
  }

  /** A stored property string reads back as the value it was written from. */
  lemma PropertyStringRoundTrip(b: bool)
    ensures BoolFromString(Some(PropertyString(Some(b)))) == b
  { }

  /** `boolFromStorage(key)` */
  function BoolFromStorage(items: map<string, string>, key: string): bool {
    BoolFromString(if key in items then Some(items[key]) else None)
  }

  /** The config after reading each key of `ks`, in order, from `items`. */
  function InitializedWith(f: Flags, ks: seq<Key>, items: map<string, string>): Flags {
    if |ks| == 0 then f
    else
      var k := ks[|ks| - 1];
      Assign(InitializedWith(f, ks[..|ks| - 1], items), k, BoolFromStorage(items, KeyName(k)))
  }

  /** One more key read. */
  lemma InitializedStep(f: Flags, ks: seq<Key>, items: map<string, string>, i: nat)
    requires i < |ks|
    ensures InitializedWith(f, ks[..i + 1], items) ==
      Assign(InitializedWith(f, ks[..i], items), ks[i], BoolFromStorage(items, KeyName(ks[i])))
  {
    assert ks[..i + 1][..i] == ks[..i];
  }

  /** `initializeConfig` with storage: every property of the config is read. */
  function Initialized(f: Flags, items: map<string, string>): Flags {
    InitializedWith(f, Keys(f), items)
  }

  /** The storage after writing each key of `ks`, in order. */
  function StoredWith(items: map<string, string>, f: Flags, ks: seq<Key>): map<string, string> {
    if |ks| == 0 then items
    else
      var k := ks[|ks| - 1];
      StoredWith(items, f, ks[..|ks| - 1])[KeyName(k) := PropertyString(Lookup(f, k))]
  }

  /** `storeConfigChanges` with storage: every property of the config is written. */
  function Stored(items: map<string, string>, f: Flags): map<string, string> {
    StoredWith(items, f, Keys(f))
  }

  /**
   * Reading keys sets every existing property among them to its stored
   * boolean and leaves the others, and the property list, alone.
   */
  lemma {:induction false} InitializedLookup(f: Flags, ks: seq<Key>, items: map<string, string>, k: Key)
    ensures Keys(InitializedWith(f, ks, items)) == Keys(f)
    ensures Lookup(InitializedWith(f, ks, items), k) ==
      if k in ks && Lookup(f, k).Some? then Some(BoolFromStorage(items, KeyName(k))) else Lookup(f, k)
    decreases |ks|
  {
    if |ks| > 0 {
      var ks' := ks[..|ks| - 1];
      var last := ks[|ks| - 1];
      var g := InitializedWith(f, ks', items);
      InitializedLookup(f, ks', items, k);
      InitializedLookup(f, ks', items, last);
      AssignKeepsKeys(g, last, BoolFromStorage(items, KeyName(last)));
      AssignOnlyOwn(g, last, BoolFromStorage(items, KeyName(last)), k);
      assert k in ks <==> k in ks' || k == last;
    }
  }

  /**
   * Writing keys stores each one's property string under its name and
   * leaves every other entry alone.
   */
  lemma {:induction false} StoredLookup(items: map<string, string>, f: Flags, ks: seq<Key>, name: string)
    ensures (exists k :: k in ks && KeyName(k) == name) ==> name in StoredWith(items, f, ks)
    ensures forall k :: k in ks && KeyName(k) == name ==> StoredWith(items, f, ks)[name] == PropertyString(Lookup(f, k))
    ensures (forall k :: k in ks ==> KeyName(k) != name) ==>
      (name in StoredWith(items, f, ks) <==> name in items) &&
      (name in items ==> StoredWith(items, f, ks)[name] == items[name])
    decreases |ks|
  {
    if |ks| > 0 {
      var ks' := ks[..|ks| - 1];
      var last := ks[|ks| - 1];
      StoredLookup(items, f, ks', name);
      assert forall k :: k in ks <==> k in ks' || k == last;
      forall k | k in ks && KeyName(k) == name
        ensures StoredWith(items, f, ks)[name] == PropertyString(Lookup(f, k))
      {
        if KeyName(last) == name {
          KeyNameInjective(k, last);
        }
      }
    }
  }

  /** Two configs with the same property list and the same property values are the same. */
  lemma FlagsByLookup(f: Flags, g: Flags)
    requires Keys(f) == Keys(g)
    requires forall k :: Lookup(f, k) == Lookup(g, k)
    ensures f == g
  {
    assert f.lateKeys == Keys(f)[|ConstructorKeys|..];
    assert g.lateKeys == Keys(g)[|ConstructorKeys|..];
    assert Lookup(f, FlagKey(ForceLine)) == Lookup(g, FlagKey(ForceLine));
    assert Lookup(f, FlagKey(RepelLine)) == Lookup(g, FlagKey(RepelLine));
    assert Lookup(f, FlagKey(AttractLine)) == Lookup(g, FlagKey(AttractLine));
    assert Lookup(f, FlagKey(FollowLine)) == Lookup(g, FlagKey(FollowLine));
    assert Lookup(f, FlagKey(FriendLines)) == Lookup(g, FlagKey(FriendLines));
    assert Lookup(f, FlagKey(Axis)) == Lookup(g, FlagKey(Axis));
    assert Lookup(f, ZoomProperty) == Lookup(g, ZoomProperty);
    assert Lookup(f, FullscreenProperty) == Lookup(g, FullscreenProperty);
  }

  /** The round trip for one property. */
  lemma StoreThenInitializeKey(items: map<string, string>, f: Flags, g: Flags, k: Key)
    requires WellKeyed(f) && WellKeyed(g) && Keys(g) == Keys(f)
    ensures Lookup(Initialized(g, Stored(items, f)), k) == Lookup(f, k)
  {
    var stored := Stored(items, f);
    InitializedLookup(g, Keys(g), stored, k);
    StoredLookup(items, f, Keys(f), KeyName(k));
    if k in Keys(f) {
      PropertyStringRoundTrip(Lookup(f, k).value);
    }
  }

  /**
   * Round trip: storing a config and then initializing any config with the
   * same properties from that storage reproduces the stored values.
   */
  lemma StoreThenInitialize(items: map<string, string>, f: Flags, g: Flags)
    requires WellKeyed(f) && WellKeyed(g) && Keys(g) == Keys(f)
    ensures Initialized(g, Stored(items, f)) == f
  {
    var h := Initialized(g, Stored(items, f));
    forall k
      ensures Lookup(h, k) == Lookup(f, k)
    {
      StoreThenInitializeKey(items, f, g, k);
    }
    InitializedLookup(g, Keys(g), Stored(items, f), ZoomProperty);
    FlagsByLookup(h, f);
  }

  /** Initializing from an empty store turns every existing property off. */
  lemma InitializeFromEmpty(f: Flags, k: Key)
    ensures Keys(Initialized(f, map[])) == Keys(f)
    ensures Lookup(Initialized(f, map[]), k) == if k in Keys(f) && Lookup(f, k).Some? then Some(false) else Lookup(f, k)
  {
    InitializedLookup(f, Keys(f), map[], k);
  }

  /** `initializeConfig(config)`: without storage nothing happens. */
  method InitializeConfig(config: Config, storage: LocalStorage, storageAvailable: bool)
    modifies config
    ensures storageAvailable ==> config.Value() == Initialized(old(config.Value()), storage.items)
    ensures !storageAvailable ==> config.Value() == old(config.Value())
  {
    if storageAvailable {
      ghost var f := config.Value();
      var keys := Keys(config.Value());
      for i := 0 to |keys|
        invariant config.Value() == InitializedWith(f, keys[..i], storage.items)
      {
        var key := keys[i];
        var value := BoolFromString(storage.GetItem(KeyName(key)));
        InitializedStep(f, keys, storage.items, i);
        config.Set(key, value);
      }
      assert keys[..|keys|] == keys;
    }
  }

  /** `storeConfigChanges(config)`: without storage nothing happens; the config is only read. */
  method StoreConfigChanges(config: Config, storage: LocalStorage, storageAvailable: bool)
    modifies storage
    ensures storageAvailable ==> storage.items == Stored(old(storage.items), config.Value())
    ensures !storageAvailable ==> storage.items == old(storage.items)
  {
    if storageAvailable {
      ghost var items := storage.items;
      var keys := Keys(config.Value());
      for i := 0 to |keys|
        invariant storage.items == StoredWith(items, config.Value(), keys[..i])
      {
        assert keys[..i + 1][..i] == keys[..i];
        var key := keys[i];
        storage.SetItem(KeyName(key), PropertyString(Lookup(config.Value(), key)));
      }
      assert keys[..|keys|] == keys;
    }
  }
}
