/**
 `set_zval` and `from_zval`: a `PHPValue` as a PHP value and back.

 A PHP array is its slots in insertion order, under integer or string keys. `show` stands for
 `as_string`, the text that names a key of a kind PHP arrays do not have; nothing is assumed of
 it. `None` is a failed conversion: an integer overflow on the way to PHP, a thrown exception on
 the way back.
*/
module ZvalConversion {
  import opened NumericKeys
  import opened PhpValues
  import opened Wrappers

  datatype ArrayKey = IntKey(i: int) | StrKey(s: string)

  datatype Slot = Slot(key: ArrayKey, val: Zval)

  datatype Zval =
    | ZNull
    | ZBool(b: bool)
    | ZLong(i: int)
    | ZDouble(f: Double)
    | ZString(s: string)
    | ZRawBytes                  // a string that is not UTF-8
    | ZArray(slots: seq<Slot>)
    | ZBlob(bytes: seq<nat>)
    | ZHLL(hll: seq<nat>)
    | ZGeoJSON(geo: string)
    | ZJson(fields: seq<Field>)
    | ZInfinity
    | ZWildcard
    | ZOtherObject
    | ZReference(target: Zval)
    | ZUnsupported               // a resource, say

  /** What PHP guarantees of arrays, at every depth: no two slots under one key. */
  predicate Sound(z: Zval) {
    match z
    case ZArray(slots) =>
      && DistinctKeys(slots)
      && forall i :: 0 <= i < |slots| ==> Sound(slots[i].val)
    case ZReference(t) => Sound(t)
    case _ => true
  }

  predicate DistinctKeys(slots: seq<Slot>) {
    forall i, j :: 0 <= i < j < |slots| ==> slots[i].key != slots[j].key
  }

  // ---------------------------------------------------------------------------------------
  //  To PHP
  // ---------------------------------------------------------------------------------------

  /** The key of `insert_string_key`. */
  function StringKey(s: string): ArrayKey {
    match PhpNumericStringKey(s)
    case Some(i) => IntKey(i)
    case None => StrKey(s)
  }

  /** The key of `insert_map_entry`. */
  function KeyOf(k: PHPValue, show: PHPValue -> string): Option<ArrayKey> {
    match k
    case Int(i) => Some(IntKey(i))
    case UInt(u) => if u <= I64_MAX then Some(IntKey(u)) else None
    case Str(s) => Some(StringKey(s))
    case _ => Some(StringKey(show(k)))
  }

  /** Where `key` is stored, or the number of slots when it is not. */
  function Find(slots: seq<Slot>, key: ArrayKey): (at: nat)
    ensures at <= |slots| && (at < |slots| ==> slots[at].key == key)
    ensures at == |slots| ==> forall i :: 0 <= i < |slots| ==> slots[i].key != key
  {
    if slots == [] then 0
    else
      var at := Find(slots[..|slots| - 1], key);
      if at < |slots| - 1 then at
      else if slots[|slots| - 1].key == key then at
      else assert forall i :: 0 <= i < |slots| - 1 ==> slots[i] == slots[..|slots| - 1][i]; |slots|
  }

  /** `insert_at_index` and `insert`: an existing slot keeps its place and takes the new value. */
  function Put(slots: seq<Slot>, key: ArrayKey, val: Zval): seq<Slot> {
    var at := Find(slots, key);
    if at < |slots| then slots[at := Slot(key, val)] else slots + [Slot(key, val)]
  }

  /** The array filled with these entries in order. */
  function Fill(keys: seq<Option<ArrayKey>>, vals: seq<Option<Zval>>): Option<seq<Slot>>
    requires |keys| == |vals|
  {
    if keys == [] then Some([])
    else
      var n := |keys| - 1;
      match Fill(keys[..n], vals[..n])
      case None => None
      case Some(slots) =>
        if keys[n].None? || vals[n].None? then None else Some(Put(slots, keys[n].value, vals[n].value))
  }

  predicate IsMap(v: PHPValue) {
    v.HashMap? || v.OrderedMap? || v.Json?
  }

  function MapKeys(v: PHPValue): seq<PHPValue>
    requires IsMap(v)
  {
    match v
    case HashMap(xs) => seq(|xs|, i requires 0 <= i < |xs| => xs[i].k)
    case OrderedMap(xs) => seq(|xs|, i requires 0 <= i < |xs| => xs[i].k)
    case Json(xs) => seq(|xs|, i requires 0 <= i < |xs| => Str(xs[i].name))
  }

  function MapVals(v: PHPValue): (vals: seq<PHPValue>)
    requires IsMap(v)
    ensures |vals| == |MapKeys(v)|
    ensures forall i :: 0 <= i < |vals| ==> vals[i] < v
  {
    match v
    case HashMap(xs) => seq(|xs|, i requires 0 <= i < |xs| => xs[i].v)
    case OrderedMap(xs) => seq(|xs|, i requires 0 <= i < |xs| => xs[i].v)
    case Json(xs) => seq(|xs|, i requires 0 <= i < |xs| => xs[i].v)
  }

  function ArrayKeys(v: PHPValue, show: PHPValue -> string): (keys: seq<Option<ArrayKey>>)
    requires IsMap(v)
  {
    var ks := MapKeys(v);
    seq(|ks|, i requires 0 <= i < |ks| => KeyOf(ks[i], show))
  }

  predicate AllSome<T>(xs: seq<Option<T>>) {
    forall i :: 0 <= i < |xs| ==> xs[i].Some?
  }

  /** `set_zval`. */
  function SetZval(v: PHPValue, show: PHPValue -> string): Option<Zval>
    decreases v
  {
    match v
    case Nil => Some(ZNull)
    case Bool(b) => Some(ZBool(b))
    case Int(i) => Some(ZLong(i))
    case UInt(u) => if u <= I64_MAX then Some(ZLong(u)) else None
    case Float(f) => Some(ZDouble(f))
    case Str(s) => Some(ZString(s))
    case Blob(bs) => Some(ZBlob(bs))
    case HLL(bs) => Some(ZHLL(bs))
    case GeoJSON(s) => Some(ZGeoJSON(s))
    case Infinity => Some(ZInfinity)
    case Wildcard => Some(ZWildcard)
    case List(xs) =>
      var vals := seq(|xs|, i requires 0 <= i < |xs| => SetZval(xs[i], show));
      if AllSome(vals) then Some(ZArray(seq(|xs|, i requires 0 <= i < |xs| => Slot(IntKey(i), vals[i].value))))
      else None
    case HashMap(_) => SetMap(v, show)
    case OrderedMap(_) => SetMap(v, show)
    case Json(_) => SetMap(v, show)
  }

  function SetVals(v: PHPValue, show: PHPValue -> string): (vals: seq<Option<Zval>>)
    requires IsMap(v)
    ensures |vals| == |MapVals(v)|
    ensures forall i :: 0 <= i < |vals| ==> vals[i] == SetZval(MapVals(v)[i], show)
    decreases v, 0
  {
    var vs := MapVals(v);
    seq(|vs|, i requires 0 <= i < |vs| => SetZval(vs[i], show))
  }

  function SetMap(v: PHPValue, show: PHPValue -> string): Option<Zval>
    requires IsMap(v)
    decreases v, 1
  {
    match Fill(ArrayKeys(v, show), SetVals(v, show))
    case Some(slots) => Some(ZArray(slots))
    case None => None
  }

  // ---------------------------------------------------------------------------------------
  //  From PHP
  // ---------------------------------------------------------------------------------------

  /** `has_sequential_keys`: exactly 0, 1, 2, ... in this order. */
  predicate Sequential(slots: seq<Slot>) {
    forall i :: 0 <= i < |slots| ==> slots[i].key == IntKey(i)
  }

  function KeyValue(k: ArrayKey): PHPValue {
    match k
    case IntKey(i) => Int(i)
    case StrKey(s) => Str(s)
  }

  /** `from_zval`. PHP arrays have distinct keys, so no map entry replaces another. */
  function FromZval(z: Zval): Option<PHPValue> {
    match z
    case ZNull => Some(Nil)
    case ZBool(b) => Some(Bool(b))
    case ZLong(i) => Some(Int(i))
    case ZDouble(f) => Some(Float(f))
    case ZString(s) => Some(Str(s))
    case ZBlob(bs) => Some(Blob(bs))
    case ZHLL(bs) => Some(HLL(bs))
    case ZGeoJSON(s) => Some(GeoJSON(s))
    case ZJson(fs) => Some(Json(fs))
    case ZInfinity => Some(Infinity)
    case ZWildcard => Some(Wildcard)
    case ZReference(t) => if t.ZReference? then None else FromZval(t)
    case ZArray(slots) =>
      var vals := seq(|slots|, i requires 0 <= i < |slots| => FromZval(slots[i].val));
      if !AllSome(vals) then None
      else if Sequential(slots) then Some(List(seq(|slots|, i requires 0 <= i < |slots| => vals[i].value)))
      else Some(HashMap(seq(|slots|, i requires 0 <= i < |slots| => Pair(KeyValue(slots[i].key), vals[i].value))))
    case ZRawBytes => None
    case ZOtherObject => None
    case ZUnsupported => None
  }

  /** `php_array_as_map`: the entries of a map, or `None` for the exception. */
  function PhpArrayAsMap(z: Zval): Option<seq<Pair>> {
    match FromZval(z)
    case Some(HashMap(h)) => Some(h)
    case Some(List(xs)) => Some(seq(|xs|, i requires 0 <= i < |xs| => Pair(Int(i), xs[i])))
    case Some(Json(h)) => Some(seq(|h|, i requires 0 <= i < |h| => Pair(Str(h[i].name), h[i].v)))
    case _ => None
  }

  // ---------------------------------------------------------------------------------------
  //  Filling an array
  // ---------------------------------------------------------------------------------------

  /** Entry `j` is the last one written under `key`. */
  ghost predicate LastWrite(keys: seq<Option<ArrayKey>>, j: nat, key: ArrayKey) {
    && j < |keys| && keys[j] == Some(key)
    && forall k :: j < k < |keys| ==> keys[k] != Some(key)
  }

  /** Every slot holds the last value written under its key, and every key has its slot. */
  ghost predicate Filled(keys: seq<Option<ArrayKey>>, vals: seq<Option<Zval>>, slots: seq<Slot>)
    requires |keys| == |vals|
  {
    && DistinctKeys(slots) && |slots| <= |keys|
    && (forall t :: 0 <= t < |slots| ==> HoldsLast(keys, vals, slots[t]))
    && (forall i :: 0 <= i < |keys| ==> HasSlot(slots, keys[i]))
  }

  ghost predicate HoldsLast(keys: seq<Option<ArrayKey>>, vals: seq<Option<Zval>>, slot: Slot)
    requires |keys| == |vals|
  {
    exists j: nat :: LastWrite(keys, j, slot.key) && vals[j] == Some(slot.val)
  }

  ghost predicate HasSlot(slots: seq<Slot>, key: Option<ArrayKey>) {
    exists t :: 0 <= t < |slots| && key == Some(slots[t].key)
  }

  lemma PutHoldsLast(keys: seq<Option<ArrayKey>>, vals: seq<Option<Zval>>, slots: seq<Slot>, key: ArrayKey, val: Zval, t: nat)
    requires |keys| == |vals| && Filled(keys, vals, slots) && t < |Put(slots, key, val)|
    ensures HoldsLast(keys + [Some(key)], vals + [Some(val)], Put(slots, key, val)[t])
  {
    var keys', vals', slot := keys + [Some(key)], vals + [Some(val)], Put(slots, key, val)[t];
    if slot.key == key {
      assert LastWrite(keys', |keys|, key) && vals'[|keys|] == Some(slot.val);
    } else {
      assert slot == slots[t] && HoldsLast(keys, vals, slots[t]);
      var j: nat :| LastWrite(keys, j, slots[t].key) && vals[j] == Some(slots[t].val);
      assert LastWrite(keys', j, slot.key) && vals'[j] == Some(slot.val);
    }
  }

  lemma PutHasSlots(keys: seq<Option<ArrayKey>>, slots: seq<Slot>, key: ArrayKey, val: Zval)
    requires forall i :: 0 <= i < |keys| ==> HasSlot(slots, keys[i])
    ensures HasSlot(Put(slots, key, val), Some(key))
    ensures forall i :: 0 <= i < |keys| ==> HasSlot(Put(slots, key, val), keys[i])
  {
    var slots' := Put(slots, key, val);
    assert slots'[Find(slots, key)].key == key;
    forall i | 0 <= i < |keys| ensures HasSlot(slots', keys[i]) {
      assert HasSlot(slots, keys[i]);
      var t :| 0 <= t < |slots| && keys[i] == Some(slots[t].key);
      assert slots'[t].key == slots[t].key;
    }
  }

  lemma PutLast(keys: seq<Option<ArrayKey>>, vals: seq<Option<Zval>>, slots: seq<Slot>, key: ArrayKey, val: Zval)
    requires |keys| == |vals| && Filled(keys, vals, slots)
    ensures Filled(keys + [Some(key)], vals + [Some(val)], Put(slots, key, val))
  {
    var keys', vals', slots' := keys + [Some(key)], vals + [Some(val)], Put(slots, key, val);
    PutHasSlots(keys, slots, key, val);
    forall i | 0 <= i < |keys'| ensures HasSlot(slots', keys'[i]) {
      assert i < |keys| ==> keys'[i] == keys[i];
    }
    forall t | 0 <= t < |slots'| ensures HoldsLast(keys', vals', slots'[t]) {
      PutHoldsLast(keys, vals, slots, key, val, t);
    }
    PutIsDistinct(slots, key, val);
  }

  lemma PutIsDistinct(slots: seq<Slot>, key: ArrayKey, val: Zval)
    requires DistinctKeys(slots)
    ensures DistinctKeys(Put(slots, key, val)) && |Put(slots, key, val)| <= |slots| + 1
  {}

  /**
   Colliding keys resolve to the last write, no entry is lost but to a later one under the same
   key, and the only failure is an entry whose key or value does not convert.
  */
  lemma {:induction false} LastWriteWins(keys: seq<Option<ArrayKey>>, vals: seq<Option<Zval>>)
    requires |keys| == |vals|
    ensures Fill(keys, vals).Some? <==> AllSome(keys) && AllSome(vals)
    ensures Fill(keys, vals).Some? ==> Filled(keys, vals, Fill(keys, vals).value)
  {
    if keys == [] {
    } else {
      var n := |keys| - 1;
      LastWriteWins(keys[..n], vals[..n]);
      assert keys == keys[..n] + [keys[n]] && vals == vals[..n] + [vals[n]];
      if Fill(keys, vals).Some? {
        PutLast(keys[..n], vals[..n], Fill(keys[..n], vals[..n]).value, keys[n].value, vals[n].value);
      }
    }
  }

  function SlotsOf(keys: seq<Option<ArrayKey>>, vals: seq<Option<Zval>>): (slots: seq<Slot>)
    requires |keys| == |vals| && AllSome(keys) && AllSome(vals)
    ensures |slots| == |keys| && forall i :: 0 <= i < |keys| ==> slots[i] == Slot(keys[i].value, vals[i].value)
  {
    seq(|keys|, i requires 0 <= i < |keys| => Slot(keys[i].value, vals[i].value))
  }

  /** Distinct keys are stored one slot each, in the order they came: an ordered map stays ordered. */
  lemma {:induction false} DistinctKeysKeepTheirOrder(keys: seq<Option<ArrayKey>>, vals: seq<Option<Zval>>)
    requires |keys| == |vals| && AllSome(keys) && AllSome(vals)
    requires forall i, j :: 0 <= i < j < |keys| ==> keys[i] != keys[j]
    ensures Fill(keys, vals) == Some(SlotsOf(keys, vals))
  {
    if keys == [] {
    } else {
      var n := |keys| - 1;
      DistinctKeysKeepTheirOrder(keys[..n], vals[..n]);
      var front := SlotsOf(keys[..n], vals[..n]);
      assert Find(front, keys[n].value) == n by {
        assert forall i :: 0 <= i < n ==> front[i].key == keys[i].value;
      }
      assert front + [Slot(keys[n].value, vals[n].value)] == SlotsOf(keys, vals);
    }
  }

  /** An array with as many slots as entries had no two entries under one key. */
  lemma {:induction false} FullArrayHadDistinctKeys(keys: seq<Option<ArrayKey>>, vals: seq<Option<Zval>>)
    requires |keys| == |vals| && Fill(keys, vals).Some? && |Fill(keys, vals).value| == |keys|
    ensures forall i, j :: 0 <= i < j < |keys| ==> keys[i] != keys[j]
  {
    if keys == [] {
    } else {
      var n := |keys| - 1;
      LastWriteWins(keys[..n], vals[..n]);
      var front := Fill(keys[..n], vals[..n]).value;
      FullArrayHadDistinctKeys(keys[..n], vals[..n]);
      forall i | 0 <= i < n ensures keys[i] != keys[n] {
        assert HasSlot(front, keys[..n][i]);
      }
    }
  }

  // ---------------------------------------------------------------------------------------
  //  No slot out of reach
  // ---------------------------------------------------------------------------------------

  /** PHP code reads `$a["12"]` as `$a[12]`, so a string key must not be a printed integer. */
  ghost predicate InReach(k: ArrayKey) {
    k.StrKey? ==> forall i :: IsI64(i) ==> k.s != PrintInt(i)
  }

  ghost predicate AllInReach(z: Zval) {
    match z
    case ZArray(slots) => DistinctKeys(slots) && forall i :: 0 <= i < |slots| ==> SlotInReach(slots[i])
    case _ => true
  }

  ghost predicate SlotInReach(slot: Slot)
    decreases slot, 0
  {
    InReach(slot.key) && AllInReach(slot.val)
  }

  lemma StringKeyInReach(s: string)
    ensures InReach(StringKey(s))
    ensures StringKey(s).StrKey? ==> PhpNumericStringKey(s).None? && StringKey(s).s == s
  {
    if PhpNumericStringKey(s).None? {
      forall i | IsI64(i) ensures s != PrintInt(i) {
        NumericKeyInvertsPrinting(s, i);
      }
    }
  }

  /**
   No array built by `set_zval`, at any depth, holds an entry that PHP code cannot reach: keys
   are distinct and none is the decimal rendering of an integer.
  */
  lemma {:induction false} EveryEntryIsReachable(v: PHPValue, show: PHPValue -> string)
    requires SetZval(v, show).Some?
    ensures AllInReach(SetZval(v, show).value)
    decreases v
  {
    match v {
      case List(xs) =>
        var vals := seq(|xs|, i requires 0 <= i < |xs| => SetZval(xs[i], show));
        assert AllSome(vals);
        forall i | 0 <= i < |xs| ensures AllInReach(vals[i].value) {
          assert vals[i].Some?;
          EveryEntryIsReachable(xs[i], show);
        }
      case HashMap(_) => MapIsReachable(v, show);
      case OrderedMap(_) => MapIsReachable(v, show);
      case Json(_) => MapIsReachable(v, show);
      case _ =>
    }
  }

  lemma {:induction false} MapIsReachable(v: PHPValue, show: PHPValue -> string)
    requires IsMap(v) && SetMap(v, show).Some?
    ensures AllInReach(SetMap(v, show).value)
    decreases v, 0
  {
    var keys, vals := ArrayKeys(v, show), SetVals(v, show);
    assert |keys| == |vals|;
    LastWriteWins(keys, vals);
    KeysAreInReach(v, show);
    forall i | 0 <= i < |vals| ensures AllInReach(vals[i].value) {
      assert SetZval(MapVals(v)[i], show) == vals[i] && vals[i].Some?;
      EveryEntryIsReachable(MapVals(v)[i], show);
    }
    FilledIsReachable(keys, vals, Fill(keys, vals).value);
  }

  lemma KeysAreInReach(v: PHPValue, show: PHPValue -> string)
    requires IsMap(v) && AllSome(ArrayKeys(v, show))
    ensures forall i :: 0 <= i < |ArrayKeys(v, show)| ==> InReach(ArrayKeys(v, show)[i].value)
  {
    var keys := ArrayKeys(v, show);
    forall i | 0 <= i < |keys| ensures InReach(keys[i].value) {
      assert keys[i] == KeyOf(MapKeys(v)[i], show) && keys[i].Some?;
      KeyInReach(MapKeys(v)[i], show);
    }
  }

  lemma FilledIsReachable(keys: seq<Option<ArrayKey>>, vals: seq<Option<Zval>>, slots: seq<Slot>)
    requires |keys| == |vals| && AllSome(keys) && AllSome(vals) && Filled(keys, vals, slots)
    requires forall i :: 0 <= i < |keys| ==> InReach(keys[i].value) && AllInReach(vals[i].value)
    ensures AllInReach(ZArray(slots))
  {}

  lemma KeyInReach(k: PHPValue, show: PHPValue -> string)
    requires KeyOf(k, show).Some?
    ensures InReach(KeyOf(k, show).value)
  {
    match k {
      case Int(_) =>
      case UInt(_) =>
      case Str(s) => StringKeyInReach(s);
      case _ => StringKeyInReach(show(k));
    }
  }

  // ---------------------------------------------------------------------------------------
  //  Round trips
  // ---------------------------------------------------------------------------------------

  /** What a value is read back as at best: ordered maps and JSON become hash maps. */
  function Norm(v: PHPValue): PHPValue
    decreases v
  {
    match v
    case List(xs) => List(seq(|xs|, i requires 0 <= i < |xs| => Norm(xs[i])))
    case HashMap(_) => HashMap(NormPairs(v))
    case OrderedMap(_) => HashMap(NormPairs(v))
    case Json(_) => HashMap(NormPairs(v))
    case _ => v
  }

  function NormPairs(v: PHPValue): seq<Pair>
    requires IsMap(v)
    decreases v, 0
  {
    var ks, vs := MapKeys(v), MapVals(v);
    seq(|ks|, i requires 0 <= i < |ks| => Pair(ks[i], Norm(vs[i])))
  }

  function Trip(v: PHPValue, show: PHPValue -> string): Option<PHPValue> {
    match SetZval(v, show)
    case Some(z) => FromZval(z)
    case None => None
  }

  predicate RoundTrips(v: PHPValue, show: PHPValue -> string) {
    Trip(v, show).Some? && Eq(Norm(v), Trip(v, show).value)
  }

  /** A key that a PHP array stores as itself. */
  predicate PlainKey(k: PHPValue) {
    k.Int? || (k.Str? && PhpNumericStringKey(k.s).None?)
  }

  predicate PlainKeys(v: PHPValue)
    requires IsMap(v)
  {
    var ks := MapKeys(v);
    && (forall i :: 0 <= i < |ks| ==> PlainKey(ks[i]))
    && (forall i, j :: 0 <= i < j < |ks| ==> ks[i] != ks[j])
  }

  /** The map is enumerated as 0, 1, 2, ..., or is empty: its array looks like a list. */
  predicate LooksLikeAList(v: PHPValue)
    requires IsMap(v)
  {
    var ks := MapKeys(v);
    forall i :: 0 <= i < |ks| ==> ks[i] == Int(i)
  }

  /** The values that survive the trip through PHP. */
  predicate Faithful(v: PHPValue)
    decreases v
  {
    match v
    case UInt(_) => false
    case List(xs) => forall i :: 0 <= i < |xs| ==> Faithful(xs[i])
    case HashMap(_) => PlainKeys(v) && !LooksLikeAList(v) && FaithfulVals(v)
    case OrderedMap(_) => PlainKeys(v) && !LooksLikeAList(v) && FaithfulVals(v)
    case Json(_) => PlainKeys(v) && !LooksLikeAList(v) && FaithfulVals(v)
    case _ => true
  }

  predicate FaithfulVals(v: PHPValue)
    requires IsMap(v)
    decreases v, 0
  {
    var vs := MapVals(v);
    forall i :: 0 <= i < |vs| ==> Faithful(vs[i])
  }

  /** What `php_array_as_map` makes of the array that `v` becomes. */
  function AsMap(v: PHPValue, show: PHPValue -> string): Option<seq<Pair>> {
    match SetZval(v, show)
    case Some(z) => PhpArrayAsMap(z)
    case None => None
  }

  predicate MapRoundTrips(v: PHPValue, show: PHPValue -> string)
    requires IsMap(v)
  {
    AsMap(v, show).Some? && Eq(Norm(v), HashMap(AsMap(v, show).value))
  }

  function ReadVals(slots: seq<Slot>): (vals: seq<Option<PHPValue>>)
    ensures |vals| == |slots| && forall i :: 0 <= i < |slots| ==> vals[i] == FromZval(slots[i].val)
  {
    seq(|slots|, i requires 0 <= i < |slots| => FromZval(slots[i].val))
  }

  function ReadPairs(slots: seq<Slot>): (pairs: seq<Pair>)
    requires AllSome(ReadVals(slots))
    ensures |pairs| == |slots|
    ensures forall i :: 0 <= i < |slots| ==> pairs[i] == Pair(KeyValue(slots[i].key), FromZval(slots[i].val).value)
  {
    seq(|slots|, i requires 0 <= i < |slots| => Pair(KeyValue(slots[i].key), ReadVals(slots)[i].value))
  }

  /** `php_array_as_map` reads every array slot by slot, list or not. */
  lemma ArrayAsMap(slots: seq<Slot>)
    ensures PhpArrayAsMap(ZArray(slots)) == if AllSome(ReadVals(slots)) then Some(ReadPairs(slots)) else None
    ensures FromZval(ZArray(slots)).Some? <==> AllSome(ReadVals(slots))
    ensures AllSome(ReadVals(slots)) && !Sequential(slots) ==> FromZval(ZArray(slots)) == Some(HashMap(ReadPairs(slots)))
    ensures AllSome(ReadVals(slots)) && Sequential(slots) ==> FromZval(ZArray(slots)).value.List?
  {
    var vals := seq(|slots|, i requires 0 <= i < |slots| => FromZval(slots[i].val));
    assert vals == ReadVals(slots);
    if AllSome(vals) {
      assert seq(|slots|, i requires 0 <= i < |slots| => Pair(KeyValue(slots[i].key), vals[i].value)) == ReadPairs(slots);
      if Sequential(slots) {
        var xs := seq(|slots|, i requires 0 <= i < |slots| => vals[i].value);
        assert FromZval(ZArray(slots)) == Some(List(xs));
        assert seq(|xs|, i requires 0 <= i < |xs| => Pair(Int(i), xs[i])) == ReadPairs(slots);
      }
    }
  }

  lemma PlainKeyOf(k: PHPValue, show: PHPValue -> string)
    requires PlainKey(k)
    ensures KeyOf(k, show).Some? && KeyValue(KeyOf(k, show).value) == k
  {}

  /** With plain keys the array has one slot per entry, in order, under the entry's own key. */
  lemma PlainMapSlots(v: PHPValue, show: PHPValue -> string) returns (slots: seq<Slot>)
    requires IsMap(v) && PlainKeys(v) && AllSome(SetVals(v, show))
    ensures SetZval(v, show) == Some(ZArray(slots)) && |slots| == |MapKeys(v)|
    ensures forall i :: 0 <= i < |slots| ==> KeyValue(slots[i].key) == MapKeys(v)[i]
    ensures forall i :: 0 <= i < |slots| ==> SetZval(MapVals(v)[i], show) == Some(slots[i].val)
    ensures Sequential(slots) <==> LooksLikeAList(v)
  {
    var keys, vals := ArrayKeys(v, show), SetVals(v, show);
    forall i | 0 <= i < |keys| ensures keys[i].Some? && KeyValue(keys[i].value) == MapKeys(v)[i] {
      PlainKeyOf(MapKeys(v)[i], show);
    }
    DistinctKeysKeepTheirOrder(keys, vals);
    slots := Fill(keys, vals).value;
    assert SetZval(v, show) == SetMap(v, show);
    forall i | 0 <= i < |slots| ensures slots[i].key == IntKey(i) <==> MapKeys(v)[i] == Int(i) {
      assert KeyValue(slots[i].key) == MapKeys(v)[i];
    }
  }

  lemma MapTripForward(v: PHPValue, show: PHPValue -> string)
    requires IsMap(v) && PlainKeys(v)
    requires forall i :: 0 <= i < |MapVals(v)| ==> RoundTrips(MapVals(v)[i], show)
    ensures MapRoundTrips(v, show)
  {
    ValuesConvert(v, show);
    var slots := PlainMapSlots(v, show);
    ArrayAsMap(slots);
    ValuesComeBack(v, show, slots);
    EntriesMatch(NormPairs(v), ReadPairs(slots));
    assert Norm(v) == HashMap(NormPairs(v));
  }

  lemma ValuesConvert(v: PHPValue, show: PHPValue -> string)
    requires IsMap(v) && forall i :: 0 <= i < |MapVals(v)| ==> RoundTrips(MapVals(v)[i], show)
    ensures AllSome(SetVals(v, show))
  {
    forall i | 0 <= i < |MapVals(v)| ensures SetVals(v, show)[i].Some? {
      assert RoundTrips(MapVals(v)[i], show);
    }
  }

  lemma ValuesComeBack(v: PHPValue, show: PHPValue -> string, slots: seq<Slot>)
    requires IsMap(v) && |slots| == |MapVals(v)|
    requires forall i :: 0 <= i < |slots| ==> KeyValue(slots[i].key) == MapKeys(v)[i]
    requires forall i :: 0 <= i < |slots| ==> SetZval(MapVals(v)[i], show) == Some(slots[i].val)
    requires forall i :: 0 <= i < |slots| ==> RoundTrips(MapVals(v)[i], show)
    ensures AllSome(ReadVals(slots))
    ensures forall i :: 0 <= i < |slots| ==>
              NormPairs(v)[i].k == ReadPairs(slots)[i].k && Eq(NormPairs(v)[i].v, ReadPairs(slots)[i].v)
  {}

  /** Guessing a list is all that `from_zval` gets wrong about a map `php_array_as_map` recovers. */
  lemma OnlyTheGuessDiffers(v: PHPValue, show: PHPValue -> string)
    requires IsMap(v) && MapRoundTrips(v, show)
    ensures RoundTrips(v, show) <==> !LooksLikeAList(v)
  {
    MapTripKeys(v, show);
    var slots := PlainMapSlots(v, show);
    ArrayAsMap(slots);
    assert Norm(v) == HashMap(NormPairs(v));
  }

  /** Maps that agree entry by entry, in the same order, are equal. */
  lemma EntriesMatch(xs: seq<Pair>, ys: seq<Pair>)
    requires |xs| == |ys|
    requires forall i :: 0 <= i < |xs| ==> xs[i].k == ys[i].k && Eq(xs[i].v, ys[i].v)
    ensures Eq(HashMap(xs), HashMap(ys))
  {
    forall i | 0 <= i < |xs| ensures HasPair(ys, xs[i]) {
      EqReflexive(xs[i].k);
      assert SamePair(xs[i], ys[i]);
    }
  }

  /** A map that comes back equal lost no slot, and every key was found among the keys of the array. */
  lemma MapTripKeys(v: PHPValue, show: PHPValue -> string)
    requires IsMap(v) && MapRoundTrips(v, show)
    ensures PlainKeys(v) && AllSome(SetVals(v, show))
  {
    var keys, vals := ArrayKeys(v, show), SetVals(v, show);
    assert SetZval(v, show) == SetMap(v, show);
    LastWriteWins(keys, vals);
    var slots := Fill(keys, vals).value;
    EntriesFound(v, show, slots);
    FullArrayHadDistinctKeys(keys, vals);
    MapIsReachable(v, show);
    forall i | 0 <= i < |keys| ensures PlainKey(MapKeys(v)[i]) {
      assert HasPair(ReadPairs(slots), NormPairs(v)[i]);
      FoundKeyIsPlain(slots, NormPairs(v)[i]);
    }
    forall i, j | 0 <= i < j < |keys| ensures MapKeys(v)[i] != MapKeys(v)[j] {
      assert keys[i] != keys[j];
    }
  }

  lemma PlainKeyEq(a: PHPValue, b: PHPValue)
    requires PlainKey(b) && Eq(a, b)
    ensures a == b
  {}

  /** What equality of the trip says entry by entry. */
  lemma EntriesFound(v: PHPValue, show: PHPValue -> string, slots: seq<Slot>)
    requires IsMap(v) && MapRoundTrips(v, show) && SetZval(v, show) == Some(ZArray(slots))
    ensures AllSome(ReadVals(slots)) && |slots| == |MapKeys(v)|
    ensures forall i :: 0 <= i < |slots| ==> HasPair(ReadPairs(slots), NormPairs(v)[i])
  {
    ArrayAsMap(slots);
    assert Norm(v) == HashMap(NormPairs(v));
  }

  lemma FoundKeyIsPlain(slots: seq<Slot>, x: Pair)
    requires AllInReach(ZArray(slots)) && AllSome(ReadVals(slots)) && HasPair(ReadPairs(slots), x)
    ensures PlainKey(x.k)
  {
    var pairs := ReadPairs(slots);
    var j :| 0 <= j < |pairs| && SamePair(x, pairs[j]);
    assert SlotInReach(slots[j]);
    ReachableKeyIsPlain(slots[j].key);
    PlainKeyEq(x.k, pairs[j].k);
  }

  lemma MapTripBackward(v: PHPValue, show: PHPValue -> string)
    requires IsMap(v) && MapRoundTrips(v, show)
    ensures PlainKeys(v)
    ensures forall i :: 0 <= i < |MapVals(v)| ==> RoundTrips(MapVals(v)[i], show)
  {
    MapTripKeys(v, show);
    var slots := PlainMapSlots(v, show);
    EntriesFound(v, show, slots);
    var pairs := ReadPairs(slots);
    forall i | 0 <= i < |pairs| ensures PlainKey(pairs[i].k) {
      assert pairs[i].k == MapKeys(v)[i];
    }
    forall i, j | 0 <= i < j < |pairs| ensures pairs[i].k != pairs[j].k {
      assert pairs[i].k == MapKeys(v)[i] && pairs[j].k == MapKeys(v)[j];
    }
    forall i | 0 <= i < |MapVals(v)| ensures RoundTrips(MapVals(v)[i], show) {
      PlainPairIsInPlace(pairs, i, NormPairs(v)[i]);
    }
  }

  /** Among distinct plain keys an entry is found only in its own place. */
  lemma PlainPairIsInPlace(pairs: seq<Pair>, i: nat, x: Pair)
    requires i < |pairs| && x.k == pairs[i].k && HasPair(pairs, x)
    requires forall j :: 0 <= j < |pairs| ==> PlainKey(pairs[j].k)
    requires forall a, b :: 0 <= a < b < |pairs| ==> pairs[a].k != pairs[b].k
    ensures Eq(x.v, pairs[i].v)
  {
    var j :| 0 <= j < |pairs| && SamePair(x, pairs[j]);
    PlainKeyEq(x.k, pairs[j].k);
    assert j == i;
  }

  lemma ReachableKeyIsPlain(k: ArrayKey)
    requires InReach(k)
    ensures PlainKey(KeyValue(k))
  {
    if k.StrKey? && PhpNumericStringKey(k.s).Some? {
      NumericKeyInvertsPrinting(k.s, PhpNumericStringKey(k.s).value);
    }
  }

  lemma MapTrip(v: PHPValue, show: PHPValue -> string)
    requires IsMap(v)
    ensures MapRoundTrips(v, show) <==>
            PlainKeys(v) && forall i :: 0 <= i < |MapVals(v)| ==> RoundTrips(MapVals(v)[i], show)
    ensures RoundTrips(v, show) <==> MapRoundTrips(v, show) && !LooksLikeAList(v)
  {
    if MapRoundTrips(v, show) {
      MapTripBackward(v, show);
      OnlyTheGuessDiffers(v, show);
    }
    if PlainKeys(v) && forall i :: 0 <= i < |MapVals(v)| ==> RoundTrips(MapVals(v)[i], show) {
      MapTripForward(v, show);
    }
    if RoundTrips(v, show) {
      ReadAsMap(v, show);
    }
  }

  /** A map that comes back equal was read as a map. */
  lemma ReadAsMap(v: PHPValue, show: PHPValue -> string)
    requires IsMap(v) && RoundTrips(v, show)
    ensures MapRoundTrips(v, show) && !LooksLikeAList(v)
  {
    assert Norm(v) == HashMap(NormPairs(v));
    assert Trip(v, show).value.HashMap?;
    assert MapRoundTrips(v, show);
    OnlyTheGuessDiffers(v, show);
  }

  lemma ListTrip(xs: seq<PHPValue>, show: PHPValue -> string)
    ensures RoundTrips(List(xs), show) <==> forall i :: 0 <= i < |xs| ==> RoundTrips(xs[i], show)
  {
    var vals := seq(|xs|, i requires 0 <= i < |xs| => SetZval(xs[i], show));
    if AllSome(vals) {
      var slots := seq(|xs|, i requires 0 <= i < |xs| => Slot(IntKey(i), vals[i].value));
      assert SetZval(List(xs), show) == Some(ZArray(slots));
      var back := seq(|slots|, i requires 0 <= i < |slots| => FromZval(slots[i].val));
      assert forall i :: 0 <= i < |xs| ==> back[i] == Trip(xs[i], show);
      if AllSome(back) {
        var ys := seq(|slots|, i requires 0 <= i < |slots| => back[i].value);
        assert FromZval(ZArray(slots)) == Some(List(ys));
        var ns := seq(|xs|, i requires 0 <= i < |xs| => Norm(xs[i]));
        assert Norm(List(xs)) == List(ns);
        assert Trip(List(xs), show) == Some(List(ys));
        forall i | 0 <= i < |xs| ensures RoundTrips(xs[i], show) <==> Eq(ns[i], ys[i]) {
          assert back[i] == Trip(xs[i], show);
        }
      } else {
        var i :| 0 <= i < |xs| && back[i].None?;
        assert !RoundTrips(xs[i], show);
      }
    } else {
      var i :| 0 <= i < |xs| && vals[i].None?;
      assert !RoundTrips(xs[i], show);
    }
  }

  /**
   The round trip through PHP, exactly: a value comes back equal, ordered maps and JSON read as
   hash maps, iff no part of it is an unsigned integer and every map in it has only integer and
   non-numeric string keys, no key twice, and is not enumerated as 0, 1, 2, ...
  */
  lemma {:induction false} RoundTripsExactly(v: PHPValue, show: PHPValue -> string)
    ensures RoundTrips(v, show) <==> Faithful(v)
    decreases v
  {
    match v {
      case List(xs) => ListItemsTrip(xs, show);
      case HashMap(_) => MapValsTrip(v, show);
      case OrderedMap(_) => MapValsTrip(v, show);
      case Json(_) => MapValsTrip(v, show);
      case _ =>
    }
  }

  lemma {:induction false} ListItemsTrip(xs: seq<PHPValue>, show: PHPValue -> string)
    ensures RoundTrips(List(xs), show) <==> Faithful(List(xs))
    decreases xs
  {
    ListTrip(xs, show);
    forall i | 0 <= i < |xs| ensures RoundTrips(xs[i], show) <==> Faithful(xs[i]) {
      RoundTripsExactly(xs[i], show);
    }
  }

  lemma {:induction false} MapValsTrip(v: PHPValue, show: PHPValue -> string)
    requires IsMap(v)
    ensures RoundTrips(v, show) <==> PlainKeys(v) && !LooksLikeAList(v) && FaithfulVals(v)
    ensures MapRoundTrips(v, show) <==> PlainKeys(v) && FaithfulVals(v)
    decreases v, 0
  {
    MapTrip(v, show);
    var vs := MapVals(v);
    forall i | 0 <= i < |vs| ensures RoundTrips(vs[i], show) <==> Faithful(vs[i]) {
      RoundTripsExactly(vs[i], show);
    }
  }

  /**
   `php_array_as_map` recovers also the maps that look like lists, the empty one among them: a
   map comes back equal iff its keys are plain and its values survive the trip.
  */
  lemma MapRoundTripsExactly(v: PHPValue, show: PHPValue -> string)
    requires IsMap(v)
    ensures MapRoundTrips(v, show) <==> PlainKeys(v) && FaithfulVals(v)
  {
    MapValsTrip(v, show);
  }
}
