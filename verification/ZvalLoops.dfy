/**
 The loops of `set_zval` and `from_zval`, and the array object they fill, proved against the
 functions of `ZvalConversion`.
*/
module ZvalLoops {
  import opened NumericKeys
  import opened PhpValues
  import opened Wrappers
  import opened ZvalConversion

  /** `ZendHashTable`, with the insertions the conversion uses. */
  class PhpArray {
    var slots: seq<Slot>

    constructor ()
      ensures slots == []
    {
      slots := [];
    }

    method Insert(key: ArrayKey, val: Zval)
      modifies this
      ensures slots == Put(old(slots), key, val)
    {
      var at := Find(slots, key);
      if at < |slots| {
        slots := slots[at := Slot(key, val)];
      } else {
        slots := slots + [Slot(key, val)];
      }
    }

    method InsertStringKey(key: string, val: Zval)
      modifies this
      ensures slots == Put(old(slots), StringKey(key), val)
    {
      match PhpNumericStringKey(key) {
        case Some(i) => Insert(IntKey(i), val);
        case None => Insert(StrKey(key), val);
      }
    }

    method InsertMapEntry(key: PHPValue, val: Zval, show: PHPValue -> string) returns (ok: bool)
      modifies this
      ensures ok == KeyOf(key, show).Some?
      ensures slots == if ok then Put(old(slots), KeyOf(key, show).value, val) else old(slots)
    {
      ok := true;
      match key {
        case Int(i) => Insert(IntKey(i), val);
        case UInt(u) =>
          if u <= I64_MAX {
            Insert(IntKey(u), val);
          } else {
            ok := false;
          }
        case Str(s) => InsertStringKey(s, val);
        case _ => InsertStringKey(show(key), val);
      }
    }
  }

  /** `set_zval`. */
  method SetZvalInto(v: PHPValue, show: PHPValue -> string) returns (r: Option<Zval>)
    ensures r == SetZval(v, show)
    decreases v, 1
  {
    match v {
      case List(xs) => r := SetList(xs, show);
      case HashMap(_) => r := SetEntries(v, show);
      case OrderedMap(_) => r := SetEntries(v, show);
      case Json(_) => r := SetEntries(v, show);
      case UInt(u) => r := if u <= I64_MAX then Some(ZLong(u)) else None;
      case _ => r := SetZval(v, show);
    }
  }

  /** `set_array`: the items under 0, 1, 2, ... */
  method SetList(xs: seq<PHPValue>, show: PHPValue -> string) returns (r: Option<Zval>)
    ensures r == SetZval(List(xs), show)
    decreases xs
  {
    ghost var vals := seq(|xs|, i requires 0 <= i < |xs| => SetZval(xs[i], show));
    var slots: seq<Slot> := [];
    for n := 0 to |xs|
      invariant |slots| == n
      invariant forall i :: 0 <= i < n ==> vals[i] == Some(slots[i].val) && slots[i].key == IntKey(i)
    {
      var val := SetZvalInto(xs[n], show);
      if val.None? {
        assert vals[n].None?;
        return None;
      }
      slots := slots + [Slot(IntKey(n), val.value)];
    }
    assert slots == seq(|xs|, i requires 0 <= i < |xs| => Slot(IntKey(i), vals[i].value));
    r := Some(ZArray(slots));
  }

  lemma FillStep(keys: seq<Option<ArrayKey>>, vals: seq<Option<Zval>>, n: nat)
    requires |keys| == |vals| && n < |keys| && Fill(keys[..n], vals[..n]).Some?
    ensures keys[n].Some? && vals[n].Some? ==>
              Fill(keys[..n + 1], vals[..n + 1])
              == Some(Put(Fill(keys[..n], vals[..n]).value, keys[n].value, vals[n].value))
  {
    assert keys[..n + 1][..n] == keys[..n] && vals[..n + 1][..n] == vals[..n];
  }

  lemma FillFails(keys: seq<Option<ArrayKey>>, vals: seq<Option<Zval>>, n: nat)
    requires |keys| == |vals| && n < |keys| && (keys[n].None? || vals[n].None?)
    ensures Fill(keys, vals).None?
  {}

  /** The filling loop of the three kinds of map. */
  method SetEntries(v: PHPValue, show: PHPValue -> string) returns (r: Option<Zval>)
    requires IsMap(v)
    ensures r == SetMap(v, show)
    decreases v, 0
  {
    var ks, vs := MapKeys(v), MapVals(v);
    ghost var keys, vals := ArrayKeys(v, show), SetVals(v, show);
    var arr := new PhpArray();
    for n := 0 to |ks|
      invariant fresh(arr) && Fill(keys[..n], vals[..n]) == Some(arr.slots)
    {
      FillStep(keys, vals, n);
      var val := SetZvalInto(vs[n], show);
      var ok := false;
      if val.Some? {
        ok := arr.InsertMapEntry(ks[n], val.value, show);
      }
      if !ok {
        FillFails(keys, vals, n);
        return None;
      }
    }
    assert keys[..|ks|] == keys && vals[..|ks|] == vals;
    r := Some(ZArray(arr.slots));
  }

  /** The keys of a PHP array are distinct, so `insert` never replaces an entry. */
  lemma NewKeyIsAppended(h: seq<Pair>, slots: seq<Slot>, n: nat, v: PHPValue)
    requires DistinctKeys(slots) && n < |slots| && |h| == n
    requires forall i :: 0 <= i < n ==> h[i].k == KeyValue(slots[i].key)
    ensures PutPair(h, KeyValue(slots[n].key), v) == h + [Pair(KeyValue(slots[n].key), v)]
  {}

  /** `from_zval`, on any value PHP can hold. */
  method ReadZval(z: Zval) returns (r: Option<PHPValue>)
    requires Sound(z)
    ensures r == FromZval(z)
    decreases z, 1
  {
    match z {
      case ZReference(t) =>
        if t.ZReference? {
          r := None;
        } else {
          r := ReadZval(t);
        }
      case ZArray(slots) =>
        if Sequential(slots) {
          r := ReadList(slots);
        } else {
          r := ReadMap(slots);
        }
      case _ => r := FromZval(z);
    }
  }

  method ReadList(slots: seq<Slot>) returns (r: Option<PHPValue>)
    requires Sound(ZArray(slots)) && Sequential(slots)
    ensures r == FromZval(ZArray(slots))
    decreases slots
  {
    ghost var vals := seq(|slots|, i requires 0 <= i < |slots| => FromZval(slots[i].val));
    var items: seq<PHPValue> := [];
    for n := 0 to |slots|
      invariant |items| == n && forall i :: 0 <= i < n ==> vals[i] == Some(items[i])
    {
      var val := ReadZval(slots[n].val);
      if val.None? {
        assert vals[n].None?;
        return None;
      }
      items := items + [val.value];
    }
    assert items == seq(|slots|, i requires 0 <= i < |slots| => vals[i].value);
    r := Some(List(items));
  }

  method ReadMap(slots: seq<Slot>) returns (r: Option<PHPValue>)
    requires Sound(ZArray(slots)) && !Sequential(slots)
    ensures r == FromZval(ZArray(slots))
    decreases slots
  {
    ghost var vals := seq(|slots|, i requires 0 <= i < |slots| => FromZval(slots[i].val));
    var h: seq<Pair> := [];
    for n := 0 to |slots|
      invariant |h| == n
      invariant forall i :: 0 <= i < n ==> vals[i].Some? && h[i] == Pair(KeyValue(slots[i].key), vals[i].value)
    {
      var val := ReadZval(slots[n].val);
      if val.None? {
        assert vals[n].None?;
        return None;
      }
      NewKeyIsAppended(h, slots, n, val.value);
      h := PutPair(h, KeyValue(slots[n].key), val.value);
    }
    assert h == seq(|slots|, i requires 0 <= i < |slots| => Pair(KeyValue(slots[i].key), vals[i].value));
    r := Some(HashMap(h));
  }
}
