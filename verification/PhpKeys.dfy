/**
 What keys a PHP-side map tells apart: equality of maps as a matching of their entries, and what
 the hash keeps of a value. Without hash maps inside, equal hashes are equal values.
*/
module PhpKeys {
  import opened Counting
  import opened PhpValues
  import opened XorFolds

  // ---------------------------------------------------------------------------------------
  //  Equality
  // ---------------------------------------------------------------------------------------

  /** Floats are equal when both are NaN, both are zero, or they have the same bits. */
  lemma FloatsAreEqualExactly(x: Double, y: Double)
    ensures Eq(Float(x), Float(y)) <==> (x.NaN? && y.NaN?) || (x.Zero? && y.Zero?) || x == y
  {}

  /** Entry `i` of `xs` is equal to entry `m[i]` of `ys`. */
  ghost predicate Paired(xs: seq<Pair>, ys: seq<Pair>, m: seq<nat>) {
    |xs| == |ys| && Permutes(m, |ys|) && forall i :: 0 <= i < |xs| ==> Eq(xs[i].k, ys[m[i]].k) && Eq(xs[i].v, ys[m[i]].v)
  }

  /** Hash maps are equal exactly when their entries match one to one, in whatever order. */
  lemma HashMapsAreEqualExactly(xs: seq<Pair>, ys: seq<Pair>)
    requires WellFormed(HashMap(xs)) && WellFormed(HashMap(ys))
    ensures Eq(HashMap(xs), HashMap(ys)) <==> exists m :: Paired(xs, ys, m)
  {
    if Eq(HashMap(xs), HashMap(ys)) {
      var m := MatchingExists(xs, ys);
      forall i, j | 0 <= i < j < |m| ensures m[i] != m[j] {
        if m[i] == m[j] {
          EqEuclidean(xs[i].k, xs[j].k, ys[m[i]].k);
        }
      }
      assert Paired(xs, ys, m);
    }
    if m :| Paired(xs, ys, m) {
      forall i | 0 <= i < |xs| ensures HasPair(ys, xs[i]) {
        assert SamePair(xs[i], ys[m[i]]);
      }
    }
  }

  ghost predicate PairedFields(xs: seq<Field>, ys: seq<Field>, m: seq<nat>) {
    |xs| == |ys| && Permutes(m, |ys|) && forall i :: 0 <= i < |xs| ==> xs[i].name == ys[m[i]].name && Eq(xs[i].v, ys[m[i]].v)
  }

  lemma JsonIsEqualExactly(xs: seq<Field>, ys: seq<Field>)
    requires WellFormed(Json(xs)) && WellFormed(Json(ys))
    ensures Eq(Json(xs), Json(ys)) <==> exists m :: PairedFields(xs, ys, m)
  {
    if Eq(Json(xs), Json(ys)) {
      var m := MatchingFieldsExists(xs, ys);
      assert PairedFields(xs, ys, m);
    }
    if m :| PairedFields(xs, ys, m) {
      forall i | 0 <= i < |xs| ensures HasField(ys, xs[i]) {
        assert SameField(xs[i], ys[m[i]]);
      }
    }
  }

  // ---------------------------------------------------------------------------------------
  //  Hashing
  // ---------------------------------------------------------------------------------------

  /** The accumulator loop for JSON, over the fields in iteration order. */
  method FoldFields(fields: seq<Field>, finish: seq<Token> -> Bits) returns (acc: Bits)
    ensures Hash(Json(fields), finish) == [Discriminant(10), Length(|fields|), Word(acc)]
  {
    ghost var ws := seq(|fields|, i requires 0 <= i < |fields| => finish([Text(fields[i].name)] + Hash(fields[i].v, finish)));
    acc := {};
    for n := 0 to |fields|
      invariant acc == Xor(ws[..n])
    {
      XorStep(ws, n);
      acc := BitXor(acc, finish([Text(fields[n].name)] + Hash(fields[n].v, finish)));
    }
    assert ws[..|fields|] == ws;
  }

  /** No hash map and no JSON object, at any depth. */
  predicate NoHashMaps(a: PHPValue) {
    match a
    case HashMap(_) => false
    case Json(_) => false
    case List(xs) => forall i :: 0 <= i < |xs| ==> NoHashMaps(xs[i])
    case OrderedMap(xs) => forall i :: 0 <= i < |xs| ==> NoHashMaps(xs[i].k) && NoHashMaps(xs[i].v)
    case _ => true
  }

  lemma {:induction false} NoHashMapsIsWellFormed(a: PHPValue)
    requires NoHashMaps(a)
    ensures WellFormed(a)
  {
    match a {
      case List(xs) => forall i | 0 <= i < |xs| ensures WellFormed(xs[i]) { NoHashMapsIsWellFormed(xs[i]); }
      case OrderedMap(xs) =>
        forall i | 0 <= i < |xs| ensures WellFormed(xs[i].k) && WellFormed(xs[i].v) { PairIsWellFormed(xs[i]); }
      case _ =>
    }
  }

  lemma PairIsWellFormed(x: Pair)
    requires NoHashMaps(x.k) && NoHashMaps(x.v)
    ensures WellFormed(x.k) && WellFormed(x.v)
    decreases x
  {
    NoHashMapsIsWellFormed(x.k);
    NoHashMapsIsWellFormed(x.v);
  }

  lemma {:induction false} ConcatFront(parts: seq<seq<Token>>)
    requires parts != []
    ensures Concat(parts) == parts[0] + Concat(parts[1..])
  {
    var n := |parts| - 1;
    if n == 0 {
      assert parts[..0] == [] && parts[1..] == [];
    } else {
      ConcatFront(parts[..n]);
      var middle, tail := parts[1..][..n - 1], parts[1..];
      assert parts[..n][1..] == middle && tail[n - 1] == parts[n] && |tail| == n;
      assert Concat(tail) == Concat(middle) + parts[n];
      Associative(parts[0], Concat(middle), parts[n]);
    }
  }

  lemma Associative(a: seq<Token>, b: seq<Token>, c: seq<Token>)
    ensures (a + b) + c == a + (b + c)
  {}

  lemma FrontFirst(parts: seq<seq<Token>>, r: seq<Token>)
    requires parts != []
    ensures Concat(parts) + r == parts[0] + (Concat(parts[1..]) + r)
  {
    ConcatFront(parts);
  }

  function ItemHashes(xs: seq<PHPValue>, finish: seq<Token> -> Bits): (hs: seq<seq<Token>>)
    ensures |hs| == |xs| && forall i :: 0 <= i < |xs| ==> hs[i] == Hash(xs[i], finish)
  {
    seq(|xs|, i requires 0 <= i < |xs| => Hash(xs[i], finish))
  }

  function PairHashes(xs: seq<Pair>, finish: seq<Token> -> Bits): (hs: seq<seq<Token>>)
    ensures |hs| == |xs| && forall i :: 0 <= i < |xs| ==> hs[i] == Hash(xs[i].k, finish) + Hash(xs[i].v, finish)
  {
    seq(|xs|, i requires 0 <= i < |xs| => Hash(xs[i].k, finish) + Hash(xs[i].v, finish))
  }

  lemma HashOfList(xs: seq<PHPValue>, finish: seq<Token> -> Bits)
    ensures Hash(List(xs), finish) == [Discriminant(7), Length(|xs|)] + Concat(ItemHashes(xs, finish))
  {
    assert ItemHashes(xs, finish) == seq(|xs|, i requires 0 <= i < |xs| => Hash(xs[i], finish));
  }

  lemma HashOfPairs(xs: seq<Pair>, finish: seq<Token> -> Bits)
    ensures Hash(OrderedMap(xs), finish) == [Discriminant(9), Length(|xs|)] + Concat(PairHashes(xs, finish))
  {
    assert PairHashes(xs, finish) == seq(|xs|, i requires 0 <= i < |xs| => Hash(xs[i].k, finish) + Hash(xs[i].v, finish));
  }

  /** Values whose codes start two equal streams are equal, and the rests of the streams are. */
  lemma {:induction false} HashDecodes(x: PHPValue, y: PHPValue, r: seq<Token>, s: seq<Token>, finish: seq<Token> -> Bits)
    requires NoHashMaps(x) && NoHashMaps(y) && Hash(x, finish) + r == Hash(y, finish) + s
    ensures Eq(x, y) && r == s
    decreases x
  {
    assert (Hash(x, finish) + r)[0] == Discriminant(Tag(x)) && (Hash(y, finish) + s)[0] == Discriminant(Tag(y));
    assert Tag(x) == Tag(y);
    if x.List? {
      HashOfList(x.items, finish);
      HashOfList(y.items, finish);
      Headed(7, |x.items|, Concat(ItemHashes(x.items, finish)), r, |y.items|, Concat(ItemHashes(y.items, finish)), s);
      ItemsDecode(x.items, y.items, r, s, finish);
    } else if x.OrderedMap? {
      HashOfPairs(x.pairs, finish);
      HashOfPairs(y.pairs, finish);
      Headed(9, |x.pairs|, Concat(PairHashes(x.pairs, finish)), r, |y.pairs|, Concat(PairHashes(y.pairs, finish)), s);
      PairsDecode(x.pairs, y.pairs, r, s, finish);
    } else {
      LeafDecodes(x, y, r, s, finish);
    }
  }

  lemma Headed(d: nat, n: nat, a: seq<Token>, r: seq<Token>, m: nat, b: seq<Token>, s: seq<Token>)
    requires [Discriminant(d), Length(n)] + a + r == [Discriminant(d), Length(m)] + b + s
    ensures n == m && a + r == b + s
  {
    var p, q := [Discriminant(d), Length(n)] + a + r, [Discriminant(d), Length(m)] + b + s;
    assert p[1] == Length(n) && q[1] == Length(m);
    assert p[2..] == a + r && q[2..] == b + s;
  }

  lemma LeafDecodes(x: PHPValue, y: PHPValue, r: seq<Token>, s: seq<Token>, finish: seq<Token> -> Bits)
    requires NoHashMaps(x) && !x.List? && !x.OrderedMap? && Tag(x) == Tag(y)
    requires Hash(x, finish) + r == Hash(y, finish) + s
    ensures Eq(x, y) && r == s
  {
    var n := |Hash(x, finish)|;
    assert |Hash(y, finish)| == n;
    assert (Hash(x, finish) + r)[..n] == Hash(x, finish) && (Hash(y, finish) + s)[..n] == Hash(y, finish);
    assert (Hash(x, finish) + r)[n..] == r && (Hash(y, finish) + s)[n..] == s;
    assert n == 2 ==> Hash(x, finish)[1] == Hash(y, finish)[1];
  }

  lemma ItemsAreEqual(xs: seq<PHPValue>, ys: seq<PHPValue>)
    requires |xs| == |ys| > 0 && Eq(xs[0], ys[0]) && Eq(List(xs[1..]), List(ys[1..]))
    ensures Eq(List(xs), List(ys))
  {
    forall i | 0 < i < |xs| ensures Eq(xs[i], ys[i]) {
      assert xs[i] == xs[1..][i - 1] && ys[i] == ys[1..][i - 1];
    }
  }

  lemma PairsAreEqual(xs: seq<Pair>, ys: seq<Pair>)
    requires |xs| == |ys| > 0 && SamePair(xs[0], ys[0]) && Eq(OrderedMap(xs[1..]), OrderedMap(ys[1..]))
    ensures Eq(OrderedMap(xs), OrderedMap(ys))
  {
    forall i | 0 < i < |xs| ensures SamePair(xs[i], ys[i]) {
      assert xs[i] == xs[1..][i - 1] && ys[i] == ys[1..][i - 1];
    }
  }

  lemma FirstItems(xs: seq<PHPValue>, r: seq<Token>, finish: seq<Token> -> Bits)
    requires xs != []
    ensures Concat(ItemHashes(xs, finish)) + r == Hash(xs[0], finish) + (Concat(ItemHashes(xs[1..], finish)) + r)
  {
    FrontFirst(ItemHashes(xs, finish), r);
    assert ItemHashes(xs, finish)[1..] == ItemHashes(xs[1..], finish);
  }

  lemma {:induction false} ItemsDecode(xs: seq<PHPValue>, ys: seq<PHPValue>, r: seq<Token>, s: seq<Token>, finish: seq<Token> -> Bits)
    requires |xs| == |ys| && NoHashMaps(List(xs)) && NoHashMaps(List(ys))
    requires Concat(ItemHashes(xs, finish)) + r == Concat(ItemHashes(ys, finish)) + s
    ensures Eq(List(xs), List(ys)) && r == s
    decreases xs
  {
    if xs == [] {
      assert Concat(ItemHashes(xs, finish)) + r == r && Concat(ItemHashes(ys, finish)) + s == s;
    } else {
      FirstItems(xs, r, finish);
      FirstItems(ys, s, finish);
      var r', s' := Concat(ItemHashes(xs[1..], finish)) + r, Concat(ItemHashes(ys[1..], finish)) + s;
      HashDecodes(xs[0], ys[0], r', s', finish);
      ItemsDecode(xs[1..], ys[1..], r, s, finish);
      ItemsAreEqual(xs, ys);
    }
  }

  lemma PlainTail(xs: seq<Pair>)
    requires xs != [] && NoHashMaps(OrderedMap(xs))
    ensures NoHashMaps(xs[0].k) && NoHashMaps(xs[0].v) && NoHashMaps(OrderedMap(xs[1..]))
  {}

  lemma FirstPairs(xs: seq<Pair>, r: seq<Token>, finish: seq<Token> -> Bits)
    requires xs != []
    ensures Concat(PairHashes(xs, finish)) + r == Hash(xs[0].k, finish) + Hash(xs[0].v, finish) + (Concat(PairHashes(xs[1..], finish)) + r)
  {
    FrontFirst(PairHashes(xs, finish), r);
    assert PairHashes(xs, finish)[1..] == PairHashes(xs[1..], finish);
  }

  lemma {:induction false} PairsDecode(xs: seq<Pair>, ys: seq<Pair>, r: seq<Token>, s: seq<Token>, finish: seq<Token> -> Bits)
    requires |xs| == |ys| && NoHashMaps(OrderedMap(xs)) && NoHashMaps(OrderedMap(ys))
    requires Concat(PairHashes(xs, finish)) + r == Concat(PairHashes(ys, finish)) + s
    ensures Eq(OrderedMap(xs), OrderedMap(ys)) && r == s
    decreases xs
  {
    if xs == [] {
      assert Concat(PairHashes(xs, finish)) + r == r && Concat(PairHashes(ys, finish)) + s == s;
    } else {
      PlainTail(xs);
      PlainTail(ys);
      FirstPairs(xs, r, finish);
      FirstPairs(ys, s, finish);
      var r', s' := Concat(PairHashes(xs[1..], finish)) + r, Concat(PairHashes(ys[1..], finish)) + s;
      PairDecodes(xs[0], ys[0], r', s', finish);
      PairsDecode(xs[1..], ys[1..], r, s, finish);
      PairsAreEqual(xs, ys);
    }
  }

  lemma {:induction false} PairDecodes(x: Pair, y: Pair, r: seq<Token>, s: seq<Token>, finish: seq<Token> -> Bits)
    requires NoHashMaps(x.k) && NoHashMaps(x.v) && NoHashMaps(y.k) && NoHashMaps(y.v)
    requires Hash(x.k, finish) + Hash(x.v, finish) + r == Hash(y.k, finish) + Hash(y.v, finish) + s
    ensures SamePair(x, y) && r == s
    decreases x
  {
    var a, b := Hash(x.v, finish) + r, Hash(y.v, finish) + s;
    assert Hash(x.k, finish) + a == Hash(x.k, finish) + Hash(x.v, finish) + r;
    assert Hash(y.k, finish) + b == Hash(y.k, finish) + Hash(y.v, finish) + s;
    HashDecodes(x.k, y.k, a, b, finish);
    HashDecodes(x.v, y.v, r, s, finish);
  }

  lemma SameHashMeansEqual(x: PHPValue, y: PHPValue, finish: seq<Token> -> Bits)
    requires NoHashMaps(x) && NoHashMaps(y) && Hash(x, finish) == Hash(y, finish)
    ensures Eq(x, y)
  {
    assert Hash(x, finish) + [] == Hash(y, finish) + [];
    HashDecodes(x, y, [], [], finish);
  }

  lemma EqualMeansSameHash(x: PHPValue, y: PHPValue, finish: seq<Token> -> Bits)
    requires NoHashMaps(x) && NoHashMaps(y) && Eq(x, y)
    ensures Hash(x, finish) == Hash(y, finish)
  {
    NoHashMapsIsWellFormed(x);
    NoHashMapsIsWellFormed(y);
    EqImpliesSameHash(x, y, finish);
  }

  predicate SameHash(x: PHPValue, y: PHPValue, finish: seq<Token> -> Bits) {
    Hash(x, finish) == Hash(y, finish)
  }

  /** Without hash maps inside, two values feed the hasher the same tokens exactly when they are equal. */
  lemma HashIsExactWithoutMaps(x: PHPValue, y: PHPValue, finish: seq<Token> -> Bits)
    requires NoHashMaps(x) && NoHashMaps(y)
    ensures SameHash(x, y, finish) <==> Eq(x, y)
  {
    if SameHash(x, y, finish) {
      SameHashMeansEqual(x, y, finish);
    }
    if Eq(x, y) {
      EqualMeansSameHash(x, y, finish);
    }
  }
}
