/**
 What `set_zval` and `from_zval` do with each kind of value: which conversions fail, what becomes
 of references and objects, and under which array key an entry goes.
*/
module ZvalReadings {
  import opened NumericKeys
  import opened PhpValues
  import opened Wrappers
  import opened ZvalConversion

  // ---------------------------------------------------------------------------------------
  //  Reading
  // ---------------------------------------------------------------------------------------

  /** `z` with every reference in it, at any depth, replaced by what it refers to. */
  function Dereferenced(z: Zval): Zval {
    match z
    case ZReference(t) => if t.ZReference? then z else Dereferenced(t)
    case ZArray(slots) => ZArray(seq(|slots|, i requires 0 <= i < |slots| => Slot(slots[i].key, Dereferenced(slots[i].val))))
    case _ => z
  }

  /** `foreach (.. as &$v)` leaves references in an array; they read as what they refer to. */
  lemma {:induction false} ReferencesReadAsTargets(z: Zval)
    ensures FromZval(Dereferenced(z)) == FromZval(z)
  {
    match z {
      case ZReference(t) =>
        if !t.ZReference? {
          ReferencesReadAsTargets(t);
        }
      case ZArray(slots) => SlotsReadAsTargets(slots);
      case _ =>
    }
  }

  lemma {:induction false} SlotsReadAsTargets(slots: seq<Slot>)
    ensures FromZval(Dereferenced(ZArray(slots))) == FromZval(ZArray(slots))
    decreases slots
  {
    var there := Dereferenced(ZArray(slots)).slots;
    forall i | 0 <= i < |slots| ensures FromZval(there[i].val) == FromZval(slots[i].val) && there[i].key == slots[i].key {
      ReferencesReadAsTargets(slots[i].val);
    }
    assert ReadVals(there) == ReadVals(slots);
    SlotsDecide(there, slots);
  }

  /** An array is read by its keys and what its values read as. */
  lemma SlotsDecide(a: seq<Slot>, b: seq<Slot>)
    requires |a| == |b| && ReadVals(a) == ReadVals(b) && forall i :: 0 <= i < |a| ==> a[i].key == b[i].key
    ensures FromZval(ZArray(a)) == FromZval(ZArray(b))
  {
    var x := seq(|a|, i requires 0 <= i < |a| => FromZval(a[i].val));
    var y := seq(|b|, i requires 0 <= i < |b| => FromZval(b[i].val));
    assert x == ReadVals(a) && y == ReadVals(b);
    assert Sequential(a) == Sequential(b);
    if AllSome(x) {
      assert seq(|a|, i requires 0 <= i < |a| => Pair(KeyValue(a[i].key), x[i].value))
          == seq(|b|, i requires 0 <= i < |b| => Pair(KeyValue(b[i].key), y[i].value));
    }
  }

  /** Something in `z` has no counterpart: bytes that are no text, a foreign object, a resource. */
  predicate Unreadable(z: Zval) {
    match z
    case ZRawBytes => true
    case ZOtherObject => true
    case ZUnsupported => true
    case ZReference(t) => t.ZReference? || Unreadable(t)
    case ZArray(slots) => exists i :: 0 <= i < |slots| && Unreadable(slots[i].val)
    case _ => false
  }

  /** Reading fails, with an exception, exactly when some part cannot be read. */
  lemma {:induction false} ReadingFailsExactly(z: Zval)
    ensures FromZval(z).None? <==> Unreadable(z)
  {
    match z {
      case ZReference(t) => ReadingFailsExactly(t);
      case ZArray(slots) =>
        ArrayAsMap(slots);
        forall i | 0 <= i < |slots| ensures ReadVals(slots)[i].None? <==> Unreadable(slots[i].val) {
          ReadingFailsExactly(slots[i].val);
        }
      case _ =>
    }
  }

  /**
   An array is read as a list exactly when its keys are 0, 1, 2, ... in this order, and as a map
   otherwise; integer keys are read as integers and string keys as strings, slot by slot.
  */
  lemma ArrayIsRead(slots: seq<Slot>)
    requires !Unreadable(ZArray(slots))
    ensures var r := FromZval(ZArray(slots));
      && r.Some? && (r.value.List? || r.value.HashMap?)
      && (r.value.List? <==> forall i :: 0 <= i < |slots| ==> slots[i].key == IntKey(i))
      && (r.value.List? ==> |r.value.items| == |slots|)
      && (r.value.HashMap? ==> |r.value.entries| == |slots|)
      && (forall i :: 0 <= i < |slots| ==> SlotIsRead(r.value, i, slots[i]))
  {
    ReadingFailsExactly(ZArray(slots));
    ArrayAsMap(slots);
    assert ReadVals(slots) == seq(|slots|, i requires 0 <= i < |slots| => FromZval(slots[i].val));
  }

  /** Slot `i` of the array is read as item or entry `i`. */
  predicate SlotIsRead(v: PHPValue, i: nat, slot: Slot) {
    match v
    case List(xs) => i < |xs| && FromZval(slot.val) == Some(xs[i])
    case HashMap(xs) =>
      && i < |xs| && FromZval(slot.val) == Some(xs[i].v)
      && (slot.key.IntKey? ==> xs[i].k == Int(slot.key.i))
      && (slot.key.StrKey? ==> xs[i].k == Str(slot.key.s))
    case _ => false
  }

  /** A JSON object is read as its fields, and by `php_array_as_map` as a map with string keys. */
  lemma JsonIsRead(fs: seq<Field>)
    ensures FromZval(ZJson(fs)) == Some(Json(fs))
    ensures PhpArrayAsMap(ZJson(fs)).Some? && |PhpArrayAsMap(ZJson(fs)).value| == |fs|
    ensures forall i :: 0 <= i < |fs| ==> PhpArrayAsMap(ZJson(fs)).value[i] == Pair(Str(fs[i].name), fs[i].v)
  {}

  // ---------------------------------------------------------------------------------------
  //  Writing
  // ---------------------------------------------------------------------------------------

  /** Some unsigned integer in `v`, a value or the key of a map, is beyond a signed 64-bit one. */
  predicate TooLarge(v: PHPValue)
    decreases v
  {
    match v
    case UInt(u) => u >= 0x8000_0000_0000_0000
    case List(xs) => exists i :: 0 <= i < |xs| && TooLarge(xs[i])
    case HashMap(xs) => exists i :: 0 <= i < |xs| && PairTooLarge(xs[i])
    case OrderedMap(xs) => exists i :: 0 <= i < |xs| && PairTooLarge(xs[i])
    case Json(xs) => exists i :: 0 <= i < |xs| && TooLarge(xs[i].v)
    case _ => false
  }

  predicate PairTooLarge(x: Pair)
    decreases x
  {
    (x.k.UInt? && x.k.u >= 0x8000_0000_0000_0000) || TooLarge(x.v)
  }

  /** The conversion fails exactly on an overflow, at any depth; keys of other kinds never fail. */
  lemma {:induction false} WritingFailsExactly(v: PHPValue, show: PHPValue -> string)
    ensures SetZval(v, show).None? <==> TooLarge(v)
    decreases v
  {
    match v {
      case List(xs) =>
        var vals := seq(|xs|, i requires 0 <= i < |xs| => SetZval(xs[i], show));
        forall i | 0 <= i < |xs| ensures vals[i].None? <==> TooLarge(xs[i]) {
          WritingFailsExactly(xs[i], show);
        }
      case HashMap(xs) => MapFailsExactly(v, show);
      case OrderedMap(xs) => MapFailsExactly(v, show);
      case Json(xs) => MapFailsExactly(v, show);
      case _ =>
    }
  }

  /** What entry `i` of a map needs. */
  predicate EntryTooLarge(v: PHPValue, i: nat)
    requires IsMap(v) && i < |MapKeys(v)|
  {
    (MapKeys(v)[i].UInt? && MapKeys(v)[i].u >= 0x8000_0000_0000_0000) || TooLarge(MapVals(v)[i])
  }

  lemma EntriesTooLarge(v: PHPValue)
    requires IsMap(v)
    ensures TooLarge(v) <==> exists i: nat :: i < |MapKeys(v)| && EntryTooLarge(v, i)
  {
    match v {
      case HashMap(xs) => assert forall i: nat :: i < |xs| ==> EntryTooLarge(v, i) == PairTooLarge(xs[i]);
      case OrderedMap(xs) => assert forall i: nat :: i < |xs| ==> EntryTooLarge(v, i) == PairTooLarge(xs[i]);
      case Json(xs) => assert forall i: nat :: i < |xs| ==> EntryTooLarge(v, i) == TooLarge(xs[i].v);
    }
  }

  lemma {:induction false} MapFailsExactly(v: PHPValue, show: PHPValue -> string)
    requires IsMap(v)
    ensures SetMap(v, show).None? <==> TooLarge(v)
    decreases v, 0
  {
    var keys, vals := ArrayKeys(v, show), SetVals(v, show);
    LastWriteWins(keys, vals);
    EntriesTooLarge(v);
    forall i: nat | i < |keys| ensures keys[i].None? || vals[i].None? <==> EntryTooLarge(v, i) {
      WritingFailsExactly(MapVals(v)[i], show);
    }
  }

  /** An unsigned integer in range becomes the same PHP value, and the same key, as a signed one. */
  lemma UnsignedIsWritten(u: nat, show: PHPValue -> string)
    ensures SetZval(UInt(u), show) == if u < 0x8000_0000_0000_0000 then SetZval(Int(u), show) else None
    ensures KeyOf(UInt(u), show) == if u < 0x8000_0000_0000_0000 then KeyOf(Int(u), show) else None
  {}

  /**
   The key of an entry. A string goes under the integer it prints, if there is one, and under
   itself otherwise; a key of a kind that PHP arrays do not have goes where its text would go.
  */
  lemma KeysAreWritten(k: PHPValue, show: PHPValue -> string)
    ensures k.Int? ==> KeyOf(k, show) == Some(IntKey(k.i))
    ensures k.Str? ==> forall i :: IsI64(i) ==> (k.s == PrintInt(i) <==> KeyOf(k, show) == Some(IntKey(i)))
    ensures k.Str? && (forall i :: IsI64(i) ==> k.s != PrintInt(i)) ==> KeyOf(k, show) == Some(StrKey(k.s))
    ensures !k.Int? && !k.UInt? ==> KeyOf(k, show) == KeyOf(Str(if k.Str? then k.s else show(k)), show)
  {
    if k.Str? {
      forall i | IsI64(i) ensures k.s == PrintInt(i) <==> KeyOf(k, show) == Some(IntKey(i)) {
        NumericKeyInvertsPrinting(k.s, i);
      }
      if PhpNumericStringKey(k.s).Some? {
        NumericKeyInvertsPrinting(k.s, PhpNumericStringKey(k.s).value);
      }
    }
  }
}
