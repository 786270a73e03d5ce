/**
 * The dictionary-backed user-defaults store used in tests: untyped values
 * saved under string keys, typed getters with their fallbacks, and a
 * `register(defaults:)` that does nothing.
 *
 * `savedData` has type `[String: Any?]`, so assigning an `Any?` through the
 * subscript wraps it once more: storing `nil` keeps the key, with a nil
 * entry, instead of removing it. The map below keeps such keys with
 * `NilValue`.
 */
module UserDefaultsMock {
  import opened Wrappers
  import opened Values

  datatype Store = Store(savedData: map<string, Value>)

  /** `init()`: nothing saved. */
  function Fresh(): (st: Store)
    ensures |st.savedData| == 0
  {
    Store(map[])
  }

  /** `set(_: Any?, forKey:)`: the entry under `key` becomes `value`, nil included. */
  function SetValue(st: Store, value: Value, key: string): (r: Store)
    ensures key in r.savedData && r.savedData[key] == value
    ensures r.savedData.Keys == st.savedData.Keys + {key}
    ensures forall k :: k in st.savedData && k != key ==> r.savedData[k] == st.savedData[k]
  {
    Store(st.savedData[key := value])
  }

  /** `set(_: Bool, forKey:)`. */
  function SetBool(st: Store, value: bool, key: string): (r: Store)
    ensures key in r.savedData && r.savedData[key] == BoolValue(value)
    ensures r.savedData.Keys == st.savedData.Keys + {key}
    ensures BoolForKey(r, key) == value && StringForKey(r, key) == None
    ensures forall k :: k != key ==> ObjectForKey(r, k) == ObjectForKey(st, k)
  {
    SetValue(st, BoolValue(value), key)
  }

  /** `object(forKey:)`: the saved value, with both "no entry" and "nil entry" read as nil. */
  function ObjectForKey(st: Store, key: string): (v: Value)
    ensures key !in st.savedData ==> v == NilValue
    ensures key in st.savedData ==> v == st.savedData[key]
  {
    if key in st.savedData then st.savedData[key] else NilValue
  }

  /** `bool(forKey:)`: the saved Bool, `false` for anything else. */
  function BoolForKey(st: Store, key: string): (b: bool)
    ensures b <==> ObjectForKey(st, key) == BoolValue(true)
  {
    match ObjectForKey(st, key)
    case BoolValue(b) => b
    case _ => false
  }

  /** `string(forKey:)`: the saved String, nil for anything else. */
  function StringForKey(st: Store, key: string): (s: Option<string>)
    ensures s.Some? <==> ObjectForKey(st, key).StringValue?
    ensures s.Some? ==> ObjectForKey(st, key) == StringValue(s.value)
  {
    match ObjectForKey(st, key)
    case StringValue(s) => Some(s)
    case _ => None
  }

  /** `float(forKey:)`: the saved Float, `0` for anything else. */
  function FloatForKey(st: Store, key: string): (f: Float)
    ensures ObjectForKey(st, key).FloatValue? ==> ObjectForKey(st, key) == FloatValue(f)
    ensures !ObjectForKey(st, key).FloatValue? ==> f == FloatZero
  {
    match ObjectForKey(st, key)
    case FloatValue(f) => f
    case _ => FloatZero
  }

  /** `register(defaults:)`: ignored. */
  function RegisterDefaults(st: Store, defaults: map<string, Value>): (r: Store)
    ensures r.savedData == st.savedData
    ensures forall k :: ObjectForKey(r, k) == ObjectForKey(st, k)
  {
    st
  }

  // ---------------------------------------------------------------------------
  // Properties

  /** A fresh store reads nil, false, nil and zero under every key. */
  lemma FreshReadsNothing(key: string)
    ensures ObjectForKey(Fresh(), key) == NilValue
    ensures !BoolForKey(Fresh(), key)
    ensures StringForKey(Fresh(), key) == None
    ensures FloatForKey(Fresh(), key) == FloatZero
  {
  }

  /** What is written is what is read back, and writing nil reads back as nil. */
  lemma ReadYourWrite(st: Store, value: Value, key: string)
    ensures ObjectForKey(SetValue(st, value, key), key) == value
    ensures value == NilValue ==> ObjectForKey(SetValue(st, value, key), key) == NilValue
    ensures value == NilValue ==> key in SetValue(st, value, key).savedData
  {
  }

  /** A write to one key leaves every other key reading as before. */
  lemma WriteLeavesOtherKeys(st: Store, value: Value, key: string, other: string)
    requires other != key
    ensures ObjectForKey(SetValue(st, value, other), key) == ObjectForKey(st, key)
    ensures BoolForKey(SetValue(st, value, other), key) == BoolForKey(st, key)
    ensures StringForKey(SetValue(st, value, other), key) == StringForKey(st, key)
    ensures FloatForKey(SetValue(st, value, other), key) == FloatForKey(st, key)
  {
  }

  /** The typed getters after a write of each kind of value. */
  lemma TypedReadsAfterWrite(st: Store, value: Value, key: string)
    ensures BoolForKey(SetValue(st, value, key), key) == (value.BoolValue? && value.b)
    ensures StringForKey(SetValue(st, value, key), key) == (if value.StringValue? then Some(value.s) else None)
    ensures FloatForKey(SetValue(st, value, key), key) == (if value.FloatValue? then value.f else FloatZero)
  {
  }

  /** The store after saving each pair of `writes` in turn. */
  function SetAll(st: Store, writes: seq<(string, Value)>): Store
    decreases |writes|
  {
    if |writes| == 0 then st else SetAll(SetValue(st, writes[0].1, writes[0].0), writes[1..])
  }

  /** The last write to a key decides what it reads; with no write, it reads as before. */
  function LastWrite(writes: seq<(string, Value)>, key: string): Option<Value>
    decreases |writes|
  {
    if |writes| == 0 then None
    else if writes[|writes| - 1].0 == key then Some(writes[|writes| - 1].1)
    else LastWrite(writes[..|writes| - 1], key)
  }

  lemma {:induction false} SetAllSnoc(st: Store, writes: seq<(string, Value)>, w: (string, Value))
    ensures SetAll(st, writes + [w]) == SetValue(SetAll(st, writes), w.1, w.0)
    decreases |writes|
  {
    if |writes| > 0 {
      assert (writes + [w])[1..] == writes[1..] + [w];
      SetAllSnoc(SetValue(st, writes[0].1, writes[0].0), writes[1..], w);
    }
  }

  lemma {:induction false} LastWriteWins(st: Store, writes: seq<(string, Value)>, key: string)
    ensures ObjectForKey(SetAll(st, writes), key) ==
              (if LastWrite(writes, key).Some? then LastWrite(writes, key).value else ObjectForKey(st, key))
    decreases |writes|
  {
    if |writes| > 0 {
      var init := writes[..|writes| - 1];
      var w := writes[|writes| - 1];
      assert writes == init + [w];
      SetAllSnoc(st, init, w);
      LastWriteWins(st, init, key);
    }
  }
}
