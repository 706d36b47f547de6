/**
 What one conversion does to a map, entry by entry: what PHP sends to the server, and in what
 order it gets the server's results.
*/
module AeroEntries {
  import opened AeroTrips
  import opened AeroValues
  import opened Counting
  import opened PhpValues
  import opened Sorting

  // ---------------------------------------------------------------------------------------
  //  Sending
  // ---------------------------------------------------------------------------------------

  /** An entry is stored unless a later one has its key. */
  lemma {:induction false} BuildKeepsLast(ps: seq<APair>, i: nat)
    requires i < |ps| && forall j :: i < j < |ps| ==> ps[j].k != ps[i].k
    ensures ps[i].k in Build(ps) && Build(ps)[ps[i].k] == ps[i].v
  {
    var n := |ps| - 1;
    if i < n {
      BuildKeepsLast(ps[..n], i);
    }
  }

  /** `x` is sent as an entry of `m`. */
  ghost predicate SentIn(m: map<AVal, AVal>, x: Pair, e: Env)
    requires Admissible(e)
  {
    ToAero(x.k, e) in m && m[ToAero(x.k, e)] == ToAero(x.v, e)
  }

  /** Entry `k` of the server's map was sent from an entry of `xs`. */
  ghost predicate SentFrom(m: map<AVal, AVal>, k: AVal, xs: seq<Pair>, e: Env)
    requires Admissible(e) && k in m
  {
    exists i :: 0 <= i < |xs| && ToAero(xs[i].k, e) == k && m[k] == ToAero(xs[i].v, e)
  }

  /**
   A PHP hash map is sent entry by entry. Where the server tells two of its keys apart no longer,
   the entry stored is one of theirs.
  */
  lemma HashMapIsSent(xs: seq<Pair>, e: Env)
    requires Admissible(e)
    ensures ToAero(HashMap(xs), e).AHashMap?
    ensures var m := ToAero(HashMap(xs), e).m;
      && (forall k <- m :: SentFrom(m, k, xs, e))
      && (forall i :: 0 <= i < |xs| ==> ToAero(xs[i].k, e) in m)
      && (forall i :: 0 <= i < |xs| && (forall j :: 0 <= j < |xs| && j != i ==> ToAero(xs[j].k, e) != ToAero(xs[i].k, e)) ==>
            SentIn(m, xs[i], e))
  {
    var w := e.walk(xs);
    assert Permutes(w, |xs|);
    var ps := seq(|w|, i requires 0 <= i < |w| => APair(ToAero(xs[w[i]].k, e), ToAero(xs[w[i]].v, e)));
    var m := ToAero(HashMap(xs), e).m;
    assert m == Build(ps);
    forall k <- m ensures SentFrom(m, k, xs, e) {
      var d := BuildSource(ps, k);
      assert ToAero(xs[w[d]].k, e) == k;
    }
    forall i | 0 <= i < |xs| ensures ToAero(xs[i].k, e) in m {
      var at := Pigeonhole(w, i);
      BuildHasEveryKey(ps, at);
    }
  }

  /** An ordered map is sent as a map in which a later entry replaces an earlier one of the same key. */
  lemma OrderedMapIsSent(xs: seq<Pair>, e: Env)
    requires Admissible(e)
    ensures ToAero(OrderedMap(xs), e).AOrderedMap?
    ensures var m := ToAero(OrderedMap(xs), e).o;
      && (forall k <- m :: SentFrom(m, k, xs, e))
      && (forall i :: 0 <= i < |xs| && (forall j :: i < j < |xs| ==> ToAero(xs[j].k, e) != ToAero(xs[i].k, e)) ==>
            SentIn(m, xs[i], e))
  {
    var ps := seq(|xs|, i requires 0 <= i < |xs| => APair(ToAero(xs[i].k, e), ToAero(xs[i].v, e)));
    var m := ToAero(OrderedMap(xs), e).o;
    assert m == Build(ps);
    forall k <- m ensures SentFrom(m, k, xs, e) {
      var d := BuildSource(ps, k);
      assert ToAero(xs[d].k, e) == k;
    }
    forall i | 0 <= i < |xs| && (forall j :: i < j < |xs| ==> ToAero(xs[j].k, e) != ToAero(xs[i].k, e)) ensures SentIn(m, xs[i], e) {
      BuildKeepsLast(ps, i);
    }
  }

  /** JSON is sent as a hash map keyed by its names: exactly these keys, each with its own value. */
  lemma JsonIsSent(xs: seq<Field>, e: Env)
    requires Admissible(e) && WellFormed(Json(xs))
    ensures ToAero(Json(xs), e).AHashMap?
    ensures var m := ToAero(Json(xs), e).m;
      && (forall k <- m :: exists i :: 0 <= i < |xs| && k == AString(xs[i].name))
      && (forall i :: 0 <= i < |xs| ==> AString(xs[i].name) in m && m[AString(xs[i].name)] == ToAero(xs[i].v, e))
  {
    var w := e.walkFields(xs);
    assert Permutes(w, |xs|);
    var ps := seq(|w|, i requires 0 <= i < |w| => APair(AString(xs[w[i]].name), ToAero(xs[w[i]].v, e)));
    var m := ToAero(Json(xs), e).m;
    assert m == Build(ps);
    forall k <- m ensures exists i :: 0 <= i < |xs| && k == AString(xs[i].name) {
      var d := BuildSource(ps, k);
      assert k == AString(xs[w[d]].name);
    }
    forall i | 0 <= i < |xs| ensures AString(xs[i].name) in m && m[AString(xs[i].name)] == ToAero(xs[i].v, e) {
      var at := Pigeonhole(w, i);
      forall j | at < j < |ps| ensures ps[j].k != ps[at].k {
        assert xs[w[j]].name != xs[w[at]].name;
      }
      BuildKeepsLast(ps, at);
    }
  }

  /** An unsigned integer is sent like the integer it is, and as nil (after an exception) if it is too large. */
  lemma UnsignedIsSent(u: nat, e: Env)
    requires Admissible(e)
    ensures ToAero(UInt(u), e) == if u < 0x8000_0000_0000_0000 then ToAero(Int(u), e) else ANil
    ensures ToAero(Int(u), e) == AInt(u)
  {}

  // ---------------------------------------------------------------------------------------
  //  Receiving
  // ---------------------------------------------------------------------------------------

  /** PHP gets an ordered map in the order of the server's keys. */
  lemma OrderedMapIsReceived(m: map<AVal, AVal>, e: Env) returns (ks: seq<AVal>)
    requires Admissible(e)
    ensures StrictlySorted(e.less, ks) && Enumerates(ks, m)
    ensures ToPhp(AOrderedMap(m), e).OrderedMap?
    ensures var xs := ToPhp(AOrderedMap(m), e).pairs;
      |xs| == |ks| && forall i :: 0 <= i < |ks| ==> xs[i] == Pair(ToPhp(ks[i], e), ToPhp(m[ks[i]], e))
  {
    ks := InOrder(m, e);
  }

  /** And ranked results in the order in which the server lists them. */
  lemma PairsAreReceived(ps: seq<APair>, e: Env)
    requires Admissible(e)
    ensures ToPhp(AKeyValueList(ps), e).OrderedMap?
    ensures var xs := ToPhp(AKeyValueList(ps), e).pairs;
      |xs| == |ps| && forall i :: 0 <= i < |ps| ==> xs[i] == Pair(ToPhp(ps[i].k, e), ToPhp(ps[i].v, e))
  {}

  /** A 32-bit float is received as the 64-bit float it widens to, at any depth by the lemmas above. */
  lemma FloatIsReceived(bits: nat, f: Double, e: Env)
    requires Admissible(e)
    ensures ToPhp(AF32(bits), e) == ToPhp(AF64(e.widen(bits)), e) && ToPhp(AF64(f), e) == Float(f)
  {}

  /** Of a hash map PHP gets exactly its entries, unless it takes two of the keys for equal. */
  lemma HashMapIsReceived(m: map<AVal, AVal>, e: Env)
    requires Admissible(e) && KeysApart(m, e)
    ensures ToPhp(AHashMap(m), e).HashMap?
    ensures var xs := ToPhp(AHashMap(m), e).entries;
      && (forall k <- m :: Pair(ToPhp(k, e), ToPhp(m[k], e)) in xs)
      && (forall i :: 0 <= i < |xs| ==> ReceivedFrom(m, xs[i], e))
  {
    var ks := Keys(AHashMap(m), e);
    var ps := PhpPairs(ks, m, e);
    WholeEntries(AHashMap(m), e);
    PhpOfHashMap(m, e);
    forall k <- m ensures Pair(ToPhp(k, e), ToPhp(m[k], e)) in ps {
      PairOfKey(ks, m, k, e);
    }
    forall i | 0 <= i < |ps| ensures ReceivedFrom(m, ps[i], e) {
      assert ks[i] in m;
    }
  }

  lemma PairOfKey(ks: seq<AVal>, m: map<AVal, AVal>, k: AVal, e: Env)
    requires Admissible(e) && Enumerates(ks, m) && k in m
    ensures Pair(ToPhp(k, e), ToPhp(m[k], e)) in PhpPairs(ks, m, e)
  {
    assert k in ks;
    var i :| 0 <= i < |ks| && ks[i] == k;
    assert PhpPairs(ks, m, e)[i] == Pair(ToPhp(k, e), ToPhp(m[k], e));
  }

  /** Entry `x` was received from an entry of `m`. */
  ghost predicate ReceivedFrom(m: map<AVal, AVal>, x: Pair, e: Env)
    requires Admissible(e)
  {
    exists k :: k in m && x == Pair(ToPhp(k, e), ToPhp(m[k], e))
  }

  // ---------------------------------------------------------------------------------------
  //  Keys that PHP takes for equal
  // ---------------------------------------------------------------------------------------

  /** `HashMap::insert`: the value goes under the equal key if there is one, and every other entry stays. */
  lemma InsertReplaces(entries: seq<Pair>, k: PHPValue, v: PHPValue)
    ensures var out, at := PutPair(entries, k, v), FindPair(entries, k);
      && |out| == (if at < |entries| then |entries| else |entries| + 1)
      && out[at].v == v && Eq(out[at].k, k)
      && forall i :: 0 <= i < |entries| ==> out[i].k == entries[i].k && (i != at ==> out[i].v == entries[i].v)
  {
    EqReflexive(k);
  }

  /** Pair `b` is the last one whose key is equal to `key`. */
  ghost predicate LastUnder(ps: seq<Pair>, b: nat, key: PHPValue) {
    b < |ps| && Eq(key, ps[b].k) && forall c :: b < c < |ps| ==> !Eq(key, ps[c].k)
  }

  /** The entry holds the value of the last pair under its key. */
  ghost predicate HoldsLast(ps: seq<Pair>, x: Pair) {
    exists b: nat :: LastUnder(ps, b, x.k) && x.v == ps[b].v
  }

  lemma HoldsLastStays(ps: seq<Pair>, p: Pair, x: Pair)
    requires HoldsLast(ps, x) && !Eq(x.k, p.k)
    ensures HoldsLast(ps + [p], x)
  {
    var b: nat :| LastUnder(ps, b, x.k) && x.v == ps[b].v;
    assert LastUnder(ps + [p], b, x.k) && (ps + [p])[b] == ps[b];
  }

  /** At most one entry has a key equal to `k`. */
  lemma OneEqualKey(out: seq<Pair>, k: PHPValue, i: nat, j: nat)
    requires Unequal(out) && i < |out| && j < |out| && forall x :: 0 <= x < |out| ==> WellFormed(out[x].k)
    requires Eq(out[i].k, k) && Eq(out[j].k, k)
    ensures i == j
  {
    EqEuclidean(out[i].k, out[j].k, k);
    EqEuclidean(out[j].k, out[i].k, k);
  }

  /** An entry after one more pair. */
  lemma EntryHoldsLast(front: seq<Pair>, p: Pair, before: seq<Pair>, j: nat)
    requires Unequal(before) && WellFormed(p.k) && j < |PutPair(before, p.k, p.v)|
    requires forall i :: 0 <= i < |before| ==> WellFormed(before[i].k) && HoldsLast(front, before[i])
    ensures var x := PutPair(before, p.k, p.v)[j]; WellFormed(x.k) && HoldsLast(front + [p], x)
  {
    InsertReplaces(before, p.k, p.v);
    var x, at := PutPair(before, p.k, p.v)[j], FindPair(before, p.k);
    if j == at {
      assert LastUnder(front + [p], |front|, x.k);
    } else {
      if Eq(before[j].k, p.k) {
        OneEqualKey(before, p.k, at, j);
      }
      HoldsLastStays(front, p, x);
    }
  }

  /** `out` keeps, under keys that PHP tells apart, the last value of every key in `ps`. */
  ghost predicate KeepsLast(ps: seq<Pair>, out: seq<Pair>) {
    && Unequal(out)
    && (forall j :: 0 <= j < |out| ==> WellFormed(out[j].k) && HoldsLast(ps, out[j]))
    && (forall i :: 0 <= i < |ps| ==> FindPair(out, ps[i].k) < |out|)
  }

  lemma KeyIsFound(front: seq<Pair>, p: Pair, before: seq<Pair>, i: nat)
    requires i <= |front| && (i < |front| ==> FindPair(before, front[i].k) < |before|)
    ensures var out := PutPair(before, p.k, p.v); FindPair(out, (front + [p])[i].k) < |out|
  {
    InsertReplaces(before, p.k, p.v);
    var out := PutPair(before, p.k, p.v);
    if i < |front| {
      assert Eq(out[FindPair(before, front[i].k)].k, front[i].k);
    } else {
      assert Eq(out[FindPair(before, p.k)].k, p.k);
    }
  }

  lemma KeepsLastStep(front: seq<Pair>, p: Pair, before: seq<Pair>)
    requires KeepsLast(front, before) && WellFormed(p.k)
    ensures KeepsLast(front + [p], PutPair(before, p.k, p.v))
  {
    var out := PutPair(before, p.k, p.v);
    PutUnequal(before, p);
    forall j | 0 <= j < |out| ensures WellFormed(out[j].k) && HoldsLast(front + [p], out[j]) {
      EntryHoldsLast(front, p, before, j);
    }
    forall i | 0 <= i < |front + [p]| ensures FindPair(out, (front + [p])[i].k) < |out| {
      KeyIsFound(front, p, before, i);
    }
  }

  ghost predicate KeysAreWellFormed(ps: seq<Pair>) {
    forall i :: 0 <= i < |ps| ==> WellFormed(ps[i].k)
  }

  lemma NothingKept()
    ensures KeepsLast([], Collect([]))
  {}

  lemma LastPair(ps: seq<Pair>) returns (front: seq<Pair>, p: Pair)
    requires ps != [] && KeysAreWellFormed(ps)
    ensures ps == front + [p] && |front| < |ps| && KeysAreWellFormed(front) && WellFormed(p.k)
    ensures Collect(ps) == PutPair(Collect(front), p.k, p.v)
  {
    front, p := ps[..|ps| - 1], ps[|ps| - 1];
  }

  /** Collecting into a PHP-side map: of pairs with equal keys the last value stays, and no key is lost. */
  lemma {:induction false} LastValueStays(ps: seq<Pair>)
    requires KeysAreWellFormed(ps)
    ensures KeepsLast(ps, Collect(ps))
    decreases |ps|
  {
    if ps == [] {
      NothingKept();
    } else {
      var front, p := LastPair(ps);
      LastValueStays(front);
      KeepsLastStep(front, p, Collect(front));
    }
  }
}
