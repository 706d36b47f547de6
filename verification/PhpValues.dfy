/**
 `PHPValue` with its derived equality and its hand-written hash.

 A hash map is given by its entries in iteration order, which is arbitrary: two equal maps may
 list their entries differently, at every depth. Hashing is the stream of tokens fed to a
 hasher, and `finish` stands for any function that turns such a stream into a word of bits.
*/
module PhpValues {
  import opened Counting
  import opened XorFolds

  /** A 64-bit float, up to what `OrderedFloat` tells apart. */
  datatype Double = NaN(payload: nat) | Zero(negative: bool) | Number(bits: nat)

  /** `OrderedFloat` equates all NaNs, and both zeros. */
  function Canon(d: Double): Double {
    match d
    case NaN(_) => NaN(0)
    case Zero(_) => Zero(false)
    case Number(_) => d
  }

  datatype Pair = Pair(k: PHPValue, v: PHPValue)

  datatype Field = Field(name: string, v: PHPValue)

  datatype PHPValue =
    | Nil
    | Bool(b: bool)
    | Int(i: int)
    | UInt(u: nat)
    | Float(f: Double)
    | Str(s: string)
    | Blob(bytes: seq<nat>)
    | List(items: seq<PHPValue>)
    | HashMap(entries: seq<Pair>)
    | OrderedMap(pairs: seq<Pair>)
    | Json(fields: seq<Field>)
    | GeoJSON(geo: string)
    | HLL(hll: seq<nat>)
    | Wildcard
    | Infinity

  /** The derived `PartialEq`. Maps are equal when as long and every entry is found in the other. */
  predicate Eq(a: PHPValue, b: PHPValue)
    decreases a
  {
    match (a, b)
    case (Float(x), Float(y)) => Canon(x) == Canon(y)
    case (List(xs), List(ys)) => |xs| == |ys| && forall i :: 0 <= i < |xs| ==> Eq(xs[i], ys[i])
    case (OrderedMap(xs), OrderedMap(ys)) =>
      |xs| == |ys| && forall i :: 0 <= i < |xs| ==> SamePair(xs[i], ys[i])
    case (HashMap(xs), HashMap(ys)) => |xs| == |ys| && forall i :: 0 <= i < |xs| ==> HasPair(ys, xs[i])
    case (Json(xs), Json(ys)) => |xs| == |ys| && forall i :: 0 <= i < |xs| ==> HasField(ys, xs[i])
    case _ => a == b
  }

  predicate SamePair(x: Pair, y: Pair)
    decreases x, 0
  {
    Eq(x.k, y.k) && Eq(x.v, y.v)
  }

  predicate SameField(x: Field, y: Field)
    decreases x, 0
  {
    x.name == y.name && Eq(x.v, y.v)
  }

  predicate HasPair(ys: seq<Pair>, x: Pair)
    decreases x, 1
  {
    exists j :: 0 <= j < |ys| && SamePair(x, ys[j])
  }

  predicate HasField(ys: seq<Field>, x: Field)
    decreases x, 1
  {
    exists j :: 0 <= j < |ys| && SameField(x, ys[j])
  }

  /** What `HashMap` guarantees at every depth: no two equal keys. */
  predicate WellFormed(a: PHPValue) {
    match a
    case List(xs) => forall i :: 0 <= i < |xs| ==> WellFormed(xs[i])
    case OrderedMap(xs) => forall i :: 0 <= i < |xs| ==> WellFormed(xs[i].k) && WellFormed(xs[i].v)
    case HashMap(xs) =>
      && (forall i :: 0 <= i < |xs| ==> WellFormed(xs[i].k) && WellFormed(xs[i].v))
      && (forall i, j :: 0 <= i < j < |xs| ==> !Eq(xs[i].k, xs[j].k))
    case Json(xs) =>
      && (forall i :: 0 <= i < |xs| ==> WellFormed(xs[i].v))
      && (forall i, j :: 0 <= i < j < |xs| ==> xs[i].name != xs[j].name)
    case _ => true
  }

  /** Where an equal key is stored, or the number of entries when there is none. */
  function FindPair(entries: seq<Pair>, k: PHPValue): (at: nat)
    ensures at <= |entries| && (at < |entries| ==> Eq(entries[at].k, k))
    ensures (forall i :: 0 <= i < |entries| ==> !Eq(entries[i].k, k)) <==> at == |entries|
  {
    if entries == [] then 0
    else
      var n := |entries| - 1;
      var at := FindPair(entries[..n], k);
      if at < n then at else if Eq(entries[n].k, k) then n else n + 1
  }

  /** `HashMap::insert`: an equal key keeps its place and takes the new value. */
  function PutPair(entries: seq<Pair>, k: PHPValue, v: PHPValue): seq<Pair> {
    var at := FindPair(entries, k);
    if at < |entries| then entries[at := Pair(entries[at].k, v)] else entries + [Pair(k, v)]
  }

  // ---------------------------------------------------------------------------------------
  //  Hashing
  // ---------------------------------------------------------------------------------------

  datatype Token =
    | Discriminant(d: nat) | Flag(b: bool) | Signed(i: int) | Unsigned(u: nat) | Real(f: Double)
    | Text(s: string) | Bytes(bs: seq<nat>) | Length(n: nat) | Word(w: Bits)

  function Tag(a: PHPValue): nat {
    match a
    case Nil => 0 case Bool(_) => 1 case Int(_) => 2 case UInt(_) => 3 case Float(_) => 4 case Str(_) => 5
    case Blob(_) => 6 case List(_) => 7 case HashMap(_) => 8 case OrderedMap(_) => 9 case Json(_) => 10
    case GeoJSON(_) => 11 case HLL(_) => 12 case Wildcard => 13 case Infinity => 14
  }

  /** `Hash for PHPValue`: the tokens that `a` feeds to the hasher. */
  function Hash(a: PHPValue, finish: seq<Token> -> Bits): seq<Token>
    decreases a, 0
  {
    [Discriminant(Tag(a))] +
    match a
    case Bool(b) => [Flag(b)]
    case Int(i) => [Signed(i)]
    case UInt(u) => [Unsigned(u)]
    case Float(f) => [Real(Canon(f))]
    case Str(s) => [Text(s)]
    case GeoJSON(s) => [Text(s)]
    case Blob(bs) => [Bytes(bs)]
    case HLL(bs) => [Bytes(bs)]
    case List(xs) => [Length(|xs|)] + Concat(seq(|xs|, i requires 0 <= i < |xs| => Hash(xs[i], finish)))
    case OrderedMap(xs) =>
      [Length(|xs|)] +
      Concat(seq(|xs|, i requires 0 <= i < |xs| => Hash(xs[i].k, finish) + Hash(xs[i].v, finish)))
    case HashMap(xs) =>
      [Length(|xs|),
       Word(Xor(seq(|xs|, i requires 0 <= i < |xs| => finish(Hash(xs[i].k, finish) + Hash(xs[i].v, finish)))))]
    case Json(xs) =>
      [Length(|xs|),
       Word(Xor(seq(|xs|, i requires 0 <= i < |xs| => finish([Text(xs[i].name)] + Hash(xs[i].v, finish)))))]
    case _ => []
  }

  function Concat(parts: seq<seq<Token>>): seq<Token> {
    if parts == [] then [] else Concat(parts[..|parts| - 1]) + parts[|parts| - 1]
  }

  /** The same loop as the source runs it, over the entries in iteration order. */
  method FoldEntries(entries: seq<Pair>, finish: seq<Token> -> Bits) returns (acc: Bits)
    ensures Hash(HashMap(entries), finish) == [Discriminant(8), Length(|entries|), Word(acc)]
  {
    ghost var ws := seq(|entries|, i requires 0 <= i < |entries| => finish(Hash(entries[i].k, finish) + Hash(entries[i].v, finish)));
    acc := {};
    for n := 0 to |entries|
      invariant acc == Xor(ws[..n])
    {
      XorStep(ws, n);
      acc := BitXor(acc, finish(Hash(entries[n].k, finish) + Hash(entries[n].v, finish)));
    }
    assert ws[..|entries|] == ws;
  }

  // ---------------------------------------------------------------------------------------
  //  Equality is an equivalence
  // ---------------------------------------------------------------------------------------

  lemma {:induction false} EqReflexive(a: PHPValue)
    ensures Eq(a, a)
  {
    match a {
      case List(xs) => forall i | 0 <= i < |xs| ensures Eq(xs[i], xs[i]) { EqReflexive(xs[i]); }
      case OrderedMap(xs) =>
        forall i | 0 <= i < |xs| ensures SamePair(xs[i], xs[i]) { PairReflexive(xs[i]); }
      case HashMap(xs) =>
        forall i | 0 <= i < |xs| ensures HasPair(xs, xs[i]) { PairReflexive(xs[i]); }
      case Json(xs) =>
        forall i | 0 <= i < |xs| ensures HasField(xs, xs[i]) {
          EqReflexive(xs[i].v);
          assert SameField(xs[i], xs[i]);
        }
      case _ =>
    }
  }

  lemma PairReflexive(x: Pair)
    ensures SamePair(x, x)
    decreases x
  {
    EqReflexive(x.k);
    EqReflexive(x.v);
  }

  /** `m[i]` is where entry `i` of `xs` is found in `ys`. */
  ghost predicate Matching(xs: seq<Pair>, ys: seq<Pair>, m: seq<nat>) {
    |m| == |xs| && forall i :: 0 <= i < |xs| ==> m[i] < |ys| && SamePair(xs[i], ys[m[i]])
  }

  lemma MatchingExists(xs: seq<Pair>, ys: seq<Pair>) returns (m: seq<nat>)
    requires forall i :: 0 <= i < |xs| ==> HasPair(ys, xs[i])
    ensures Matching(xs, ys, m)
  {
    m := [];
    for n := 0 to |xs|
      invariant |m| == n && forall i :: 0 <= i < n ==> m[i] < |ys| && SamePair(xs[i], ys[m[i]])
    {
      assert HasPair(ys, xs[n]);
      var j :| 0 <= j < |ys| && SamePair(xs[n], ys[j]);
      m := m + [j];
    }
  }

  ghost predicate MatchingFields(xs: seq<Field>, ys: seq<Field>, m: seq<nat>) {
    |m| == |xs| && forall i :: 0 <= i < |xs| ==> m[i] < |ys| && SameField(xs[i], ys[m[i]])
  }

  lemma MatchingFieldsExists(xs: seq<Field>, ys: seq<Field>) returns (m: seq<nat>)
    requires forall i :: 0 <= i < |xs| ==> HasField(ys, xs[i])
    ensures MatchingFields(xs, ys, m)
  {
    m := [];
    for n := 0 to |xs|
      invariant |m| == n && forall i :: 0 <= i < n ==> m[i] < |ys| && SameField(xs[i], ys[m[i]])
    {
      assert HasField(ys, xs[n]);
      var j :| 0 <= j < |ys| && SameField(xs[n], ys[j]);
      m := m + [j];
    }
  }

  /** Two values equal to a third are equal: the step from which symmetry and transitivity follow. */
  lemma {:induction false} EqEuclidean(x: PHPValue, y: PHPValue, z: PHPValue)
    requires WellFormed(x) && WellFormed(y) && Eq(x, z) && Eq(y, z)
    ensures Eq(x, y)
    decreases z
  {
    match z {
      case List(zs) =>
        forall i | 0 <= i < |zs| ensures Eq(x.items[i], y.items[i]) {
          EqEuclidean(x.items[i], y.items[i], zs[i]);
        }
      case OrderedMap(zs) =>
        forall i | 0 <= i < |zs| ensures SamePair(x.pairs[i], y.pairs[i]) {
          assert SamePair(x.pairs[i], zs[i]) && SamePair(y.pairs[i], zs[i]);
          PairEuclidean(x.pairs[i], y.pairs[i], zs[i]);
        }
      case HashMap(zs) => EntriesEuclidean(x.entries, y.entries, zs);
      case Json(zs) => FieldsEuclidean(x.fields, y.fields, zs);
      case _ =>
    }
  }

  lemma PairEuclidean(x: Pair, y: Pair, z: Pair)
    requires WellFormed(x.k) && WellFormed(x.v) && WellFormed(y.k) && WellFormed(y.v)
    requires SamePair(x, z) && SamePair(y, z)
    ensures SamePair(x, y)
    decreases z
  {
    EqEuclidean(x.k, y.k, z.k);
    EqEuclidean(x.v, y.v, z.v);
  }

  lemma EntriesEuclidean(xs: seq<Pair>, ys: seq<Pair>, zs: seq<Pair>)
    requires WellFormed(HashMap(xs)) && WellFormed(HashMap(ys)) && |xs| == |ys| == |zs|
    requires forall i :: 0 <= i < |xs| ==> HasPair(zs, xs[i])
    requires forall i :: 0 <= i < |ys| ==> HasPair(zs, ys[i])
    ensures forall i :: 0 <= i < |xs| ==> HasPair(ys, xs[i])
    decreases zs
  {
    var mx := MatchingExists(xs, zs);
    var my := MatchingExists(ys, zs);
    forall a, b | 0 <= a < b < |my| ensures my[a] != my[b] {
      if my[a] == my[b] {
        EqEuclidean(ys[a].k, ys[b].k, zs[my[a]].k);
      }
    }
    forall i | 0 <= i < |xs| ensures HasPair(ys, xs[i]) {
      var j := Pigeonhole(my, mx[i]);
      PairEuclidean(xs[i], ys[j], zs[mx[i]]);
    }
  }

  lemma FieldsEuclidean(xs: seq<Field>, ys: seq<Field>, zs: seq<Field>)
    requires WellFormed(Json(xs)) && WellFormed(Json(ys)) && |xs| == |ys| == |zs|
    requires forall i :: 0 <= i < |xs| ==> HasField(zs, xs[i])
    requires forall i :: 0 <= i < |ys| ==> HasField(zs, ys[i])
    ensures forall i :: 0 <= i < |xs| ==> HasField(ys, xs[i])
    decreases zs
  {
    var mx := MatchingFieldsExists(xs, zs);
    var my := MatchingFieldsExists(ys, zs);
    forall i | 0 <= i < |xs| ensures HasField(ys, xs[i]) {
      var j := Pigeonhole(my, mx[i]);
      EqEuclidean(xs[i].v, ys[j].v, zs[mx[i]].v);
      assert SameField(xs[i], ys[j]);
    }
  }

  /** Equality of well-formed values is symmetric. */
  lemma EqSymmetric(x: PHPValue, y: PHPValue)
    requires WellFormed(x) && WellFormed(y) && Eq(x, y)
    ensures Eq(y, x)
  {
    EqReflexive(y);
    EqEuclidean(y, x, y);
  }

  /** Equality of well-formed values is transitive. */
  lemma EqTransitive(x: PHPValue, y: PHPValue, z: PHPValue)
    requires WellFormed(x) && WellFormed(y) && WellFormed(z) && Eq(x, y) && Eq(y, z)
    ensures Eq(x, z)
  {
    EqSymmetric(y, z);
    EqEuclidean(x, z, y);
  }

  // ---------------------------------------------------------------------------------------
  //  Equal values hash alike
  // ---------------------------------------------------------------------------------------

  /**
   Equal keys hash alike, whatever order their maps are enumerated in at any depth, so a map
   keyed by such values finds what it holds.
  */
  lemma {:induction false} EqImpliesSameHash(x: PHPValue, y: PHPValue, finish: seq<Token> -> Bits)
    requires WellFormed(x) && WellFormed(y) && Eq(x, y)
    ensures Hash(x, finish) == Hash(y, finish)
    decreases x
  {
    match x {
      case List(xs) =>
        var ys := y.items;
        forall i | 0 <= i < |xs| ensures Hash(xs[i], finish) == Hash(ys[i], finish) {
          EqImpliesSameHash(xs[i], ys[i], finish);
        }
        assert seq(|xs|, i requires 0 <= i < |xs| => Hash(xs[i], finish)) == seq(|ys|, i requires 0 <= i < |ys| => Hash(ys[i], finish));
      case OrderedMap(xs) =>
        var ys := y.pairs;
        forall i | 0 <= i < |xs| ensures Hash(xs[i].k, finish) + Hash(xs[i].v, finish) == Hash(ys[i].k, finish) + Hash(ys[i].v, finish) {
          assert SamePair(xs[i], ys[i]);
          PairHash(xs[i], ys[i], finish);
        }
        assert seq(|xs|, i requires 0 <= i < |xs| => Hash(xs[i].k, finish) + Hash(xs[i].v, finish))
            == seq(|ys|, i requires 0 <= i < |ys| => Hash(ys[i].k, finish) + Hash(ys[i].v, finish));
      case HashMap(xs) => EntriesHash(xs, y.entries, finish);
      case Json(xs) => FieldsHash(xs, y.fields, finish);
      case _ =>
    }
  }

  lemma PairHash(x: Pair, y: Pair, finish: seq<Token> -> Bits)
    requires WellFormed(x.k) && WellFormed(x.v) && WellFormed(y.k) && WellFormed(y.v) && SamePair(x, y)
    ensures Hash(x.k, finish) == Hash(y.k, finish) && Hash(x.v, finish) == Hash(y.v, finish)
    decreases x
  {
    EqImpliesSameHash(x.k, y.k, finish);
    EqImpliesSameHash(x.v, y.v, finish);
  }

  lemma EntriesHash(xs: seq<Pair>, ys: seq<Pair>, finish: seq<Token> -> Bits)
    requires WellFormed(HashMap(xs)) && WellFormed(HashMap(ys)) && |xs| == |ys|
    requires forall i :: 0 <= i < |xs| ==> HasPair(ys, xs[i])
    ensures Hash(HashMap(xs), finish) == Hash(HashMap(ys), finish)
    decreases xs
  {
    var m := MatchingExists(xs, ys);
    var hx := seq(|xs|, i requires 0 <= i < |xs| => finish(Hash(xs[i].k, finish) + Hash(xs[i].v, finish)));
    var hy := seq(|ys|, i requires 0 <= i < |ys| => finish(Hash(ys[i].k, finish) + Hash(ys[i].v, finish)));
    forall i | 0 <= i < |m| ensures hx[i] == hy[m[i]] {
      PairHash(xs[i], ys[m[i]], finish);
    }
    forall i, j | 0 <= i < j < |m| ensures m[i] != m[j] {
      if m[i] == m[j] {
        EqEuclidean(xs[i].k, xs[j].k, ys[m[i]].k);
      }
    }
    XorPermuted(hx, hy, m);
  }

  lemma FieldsHash(xs: seq<Field>, ys: seq<Field>, finish: seq<Token> -> Bits)
    requires WellFormed(Json(xs)) && WellFormed(Json(ys)) && |xs| == |ys|
    requires forall i :: 0 <= i < |xs| ==> HasField(ys, xs[i])
    ensures Hash(Json(xs), finish) == Hash(Json(ys), finish)
    decreases xs
  {
    var m := MatchingFieldsExists(xs, ys);
    var hx := seq(|xs|, i requires 0 <= i < |xs| => finish([Text(xs[i].name)] + Hash(xs[i].v, finish)));
    var hy := seq(|ys|, i requires 0 <= i < |ys| => finish([Text(ys[i].name)] + Hash(ys[i].v, finish)));
    forall i | 0 <= i < |m| ensures hx[i] == hy[m[i]] {
      EqImpliesSameHash(xs[i].v, ys[m[i]].v, finish);
    }
    XorPermuted(hx, hy, m);
  }
}
