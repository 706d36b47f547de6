/**
 `ClientPolicy::fingerprint`: the bytes it feeds to the hasher.

 The stream is what `std::hash` writes: integers little-endian at their width, `usize` and the
 discriminant of an `Option` in 8 bytes, a string as its bytes and 0xff, a `Vec` with its length
 in front. `keyed` stands for the randomly keyed hash of the password. Maps and sets are given in
 iteration order, which is arbitrary.
*/
module Fingerprint {
  import opened Counting
  import opened Sorting
  import opened Wrappers

  type Byte = b: int | 0 <= b < 256

  /** UTF-8 text, in which the byte 0xff cannot occur. */
  type Text = t: seq<Byte> | 0xff !in t

  datatype Auth = NoAuth | PKI | Internal(user: Text, password: Text) | External(user: Text, password: Text)

  datatype Entry = Entry(from: Text, to: Text)

  /** A number and the bytes it takes. */
  datatype Word = Word(value: nat, width: nat)

  datatype Policy = Policy(
    auth: Auth,
    clusterName: Option<Text>,
    timeout: nat,
    idleTimeout: nat,
    minConns: nat,
    maxConns: nat,
    connPools: nat,
    useServicesAlternate: bool,
    failIfNotConnected: bool,
    tendInterval: nat,
    bufferReclaimThreshold: nat,
    applicationId: Option<Text>,
    ipMap: Option<seq<Entry>>,
    rackIds: Option<seq<nat>>,
    tls: bool,
    tlsDigest: nat)

  // ---------------------------------------------------------------------------------------
  //  What gets hashed
  // ---------------------------------------------------------------------------------------

  function LittleEndian(n: nat, width: nat): (bytes: seq<Byte>)
    ensures |bytes| == width
  {
    if width == 0 then [] else [n % 256] + LittleEndian(n / 256, width - 1)
  }

  function TextBytes(t: Text): seq<Byte> {
    t + [0xff]
  }

  function Discriminant(present: bool): (bytes: seq<Byte>)
    ensures |bytes| == 8 && bytes[0] == Bit(present)
  {
    LittleEndian(Bit(present), 8)
  }

  function OptionBytes(t: Option<Text>): seq<Byte> {
    match t
    case None => Discriminant(false)
    case Some(x) => Discriminant(true) + TextBytes(x)
  }

  function WordsBytes(ws: seq<Word>): seq<Byte> {
    if ws == [] then [] else LittleEndian(ws[0].value, ws[0].width) + WordsBytes(ws[1..])
  }

  function EntriesBytes(es: seq<Entry>): seq<Byte> {
    if es == [] then [] else TextBytes(es[0].from) + TextBytes(es[0].to) + EntriesBytes(es[1..])
  }

  function NumbersBytes(ns: seq<nat>): seq<Byte> {
    if ns == [] then [] else LittleEndian(ns[0], 8) + NumbersBytes(ns[1..])
  }

  /** "none", "pki", "internal" and "external". */
  function ModeName(a: Auth): Text {
    match a
    case NoAuth => [110, 111, 110, 101]
    case PKI => [112, 107, 105]
    case Internal(_, _) => [105, 110, 116, 101, 114, 110, 97, 108]
    case External(_, _) => [101, 120, 116, 101, 114, 110, 97, 108]
  }

  function AuthBytes(a: Auth, keyed: Text -> nat): seq<Byte> {
    TextBytes(ModeName(a)) + CredentialBytes(a, keyed)
  }

  function CredentialBytes(a: Auth, keyed: Text -> nat): seq<Byte> {
    match a
    case Internal(u, p) => TextBytes(u) + LittleEndian(keyed(p), 8)
    case External(u, p) => TextBytes(u) + LittleEndian(keyed(p), 8)
    case _ => []
  }

  function Bit(b: bool): nat {
    if b then 1 else 0
  }

  function Knobs(p: Policy): seq<Word> {
    [Word(p.timeout, 4), Word(p.idleTimeout, 4), Word(p.minConns, 8), Word(p.maxConns, 8), Word(p.connPools, 1),
     Word(Bit(p.useServicesAlternate), 1), Word(Bit(p.failIfNotConnected), 1), Word(p.tendInterval, 4),
     Word(p.bufferReclaimThreshold, 8)]
  }

  predicate ByteLess(a: Byte, b: Byte) {
    a < b
  }

  predicate TextLess(a: seq<Byte>, b: seq<Byte>) {
    Lexicographic(ByteLess, a, b)
  }

  predicate EntryLess(a: Entry, b: Entry) {
    TextLess(a.from, b.from) || (a.from == b.from && TextLess(a.to, b.to))
  }

  predicate NumberLess(a: nat, b: nat) {
    a < b
  }

  function IpBytes(ipMap: Option<seq<Entry>>): seq<Byte> {
    match ipMap
    case None => []
    case Some(es) => LittleEndian(|es|, 8) + EntriesBytes(Sort(EntryLess, es))
  }

  function RackBytes(rackIds: Option<seq<nat>>): seq<Byte> {
    match rackIds
    case None => []
    case Some(ns) => LittleEndian(|ns|, 8) + NumbersBytes(Sort(NumberLess, ns))
  }

  function TlsBytes(p: Policy): seq<Byte> {
    LittleEndian(Bit(p.tls), 1) + LittleEndian(p.tlsDigest, 8)
  }

  /** Everything that `fingerprint` hashes, in its order. */
  function Stream(p: Policy, keyed: Text -> nat): seq<Byte> {
    AuthBytes(p.auth, keyed) + (OptionBytes(p.clusterName) + (WordsBytes(Knobs(p)) + (OptionBytes(p.applicationId)
      + (IpBytes(p.ipMap) + RackBytes(p.rackIds) + TlsBytes(p)))))
  }

  // ---------------------------------------------------------------------------------------
  //  Each code can be read back
  // ---------------------------------------------------------------------------------------

  function Power256(n: nat): nat {
    if n == 0 then 1 else 256 * Power256(n - 1)
  }

  predicate Fits(w: Word) {
    w.value < Power256(w.width)
  }

  lemma {:induction false} NumberDecodes(a: nat, b: nat, width: nat)
    requires Fits(Word(a, width)) && Fits(Word(b, width)) && LittleEndian(a, width) == LittleEndian(b, width)
    ensures a == b
  {
    if width == 0 {
    } else {
      var x, y := LittleEndian(a, width), LittleEndian(b, width);
      assert x[1..] == LittleEndian(a / 256, width - 1) && y[1..] == LittleEndian(b / 256, width - 1);
      assert x[0] == a % 256 && y[0] == b % 256;
      NumberDecodes(a / 256, b / 256, width - 1);
    }
  }

  /** Two streams that start with codes of one length have the same codes and the same rests. */
  lemma SameLengthSplits(x: seq<Byte>, y: seq<Byte>, r: seq<Byte>, s: seq<Byte>)
    requires |x| == |y| && x + r == y + s
    ensures x == y && r == s
  {
    assert (x + r)[..|x|] == x && (y + s)[..|y|] == y;
    assert (x + r)[|x|..] == r && (y + s)[|y|..] == s;
  }

  lemma {:induction false} TextDecodes(a: Text, b: Text, r: seq<Byte>, s: seq<Byte>)
    requires TextBytes(a) + r == TextBytes(b) + s
    ensures a == b && r == s
  {
    var x, y := TextBytes(a) + r, TextBytes(b) + s;
    EndOfText(a, r);
    EndOfText(b, s);
    assert |a| == |b|;
    SameLengthSplits(TextBytes(a), TextBytes(b), r, s);
    assert a == TextBytes(a)[..|a|] && b == TextBytes(b)[..|b|];
  }

  /** The first 0xff of a coded text ends it. */
  lemma EndOfText(a: Text, r: seq<Byte>)
    ensures (TextBytes(a) + r)[|a|] == 0xff
    ensures forall i :: 0 <= i < |a| ==> (TextBytes(a) + r)[i] != 0xff
  {}

  lemma Regroup(x: seq<Byte>, y: seq<Byte>, r: seq<Byte>)
    ensures x + y + r == x + (y + r)
  {}

  lemma OptionStart(a: Option<Text>, r: seq<Byte>)
    ensures |OptionBytes(a) + r| >= 8 && (OptionBytes(a) + r)[0] == Bit(a.Some?)
  {}

  lemma OptionDecodes(a: Option<Text>, b: Option<Text>, r: seq<Byte>, s: seq<Byte>)
    requires OptionBytes(a) + r == OptionBytes(b) + s
    ensures a == b && r == s
  {
    OptionStart(a, r);
    OptionStart(b, s);
    assert a.Some? == b.Some?;
    if a.Some? {
      var d := Discriminant(true);
      Regroup(d, TextBytes(a.value), r);
      Regroup(d, TextBytes(b.value), s);
      SameLengthSplits(d, d, TextBytes(a.value) + r, TextBytes(b.value) + s);
      TextDecodes(a.value, b.value, r, s);
    } else {
      SameLengthSplits(Discriminant(false), Discriminant(false), r, s);
    }
  }

  ghost predicate AllFit(ws: seq<Word>) {
    forall i :: 0 <= i < |ws| ==> Fits(ws[i])
  }

  lemma {:induction false} WordsDecode(a: seq<Word>, b: seq<Word>, r: seq<Byte>, s: seq<Byte>)
    requires |a| == |b| && AllFit(a) && AllFit(b) && forall i :: 0 <= i < |a| ==> a[i].width == b[i].width
    requires WordsBytes(a) + r == WordsBytes(b) + s
    ensures a == b && r == s
  {
    if a == [] {
      assert WordsBytes(a) + r == r && WordsBytes(b) + s == s;
    } else {
      var x, y := LittleEndian(a[0].value, a[0].width), LittleEndian(b[0].value, b[0].width);
      assert WordsBytes(a) + r == x + (WordsBytes(a[1..]) + r);
      assert WordsBytes(b) + s == y + (WordsBytes(b[1..]) + s);
      SameLengthSplits(x, y, WordsBytes(a[1..]) + r, WordsBytes(b[1..]) + s);
      NumberDecodes(a[0].value, b[0].value, a[0].width);
      WordsDecode(a[1..], b[1..], r, s);
      assert a == [a[0]] + a[1..] && b == [b[0]] + b[1..];
    }
  }

  lemma {:induction false} EntriesDecode(a: seq<Entry>, b: seq<Entry>, r: seq<Byte>, s: seq<Byte>)
    requires |a| == |b| && EntriesBytes(a) + r == EntriesBytes(b) + s
    ensures a == b && r == s
  {
    if a == [] {
      assert EntriesBytes(a) + r == r && EntriesBytes(b) + s == s;
    } else {
      var x, y := EntriesBytes(a[1..]) + r, EntriesBytes(b[1..]) + s;
      assert EntriesBytes(a) + r == TextBytes(a[0].from) + (TextBytes(a[0].to) + x);
      assert EntriesBytes(b) + s == TextBytes(b[0].from) + (TextBytes(b[0].to) + y);
      TextDecodes(a[0].from, b[0].from, TextBytes(a[0].to) + x, TextBytes(b[0].to) + y);
      TextDecodes(a[0].to, b[0].to, x, y);
      EntriesDecode(a[1..], b[1..], r, s);
      assert a == [a[0]] + a[1..] && b == [b[0]] + b[1..];
    }
  }

  lemma {:induction false} NumbersDecode(a: seq<nat>, b: seq<nat>)
    requires |a| == |b| && NumbersBytes(a) == NumbersBytes(b)
    requires forall n :: n in a || n in b ==> Fits(Word(n, 8))
    ensures a == b
  {
    if a == [] {
    } else {
      assert a[0] in a && b[0] in b;
      SameLengthSplits(LittleEndian(a[0], 8), LittleEndian(b[0], 8), NumbersBytes(a[1..]), NumbersBytes(b[1..]));
      NumberDecodes(a[0], b[0], 8);
      NumbersDecode(a[1..], b[1..]);
      assert a == [a[0]] + a[1..] && b == [b[0]] + b[1..];
    }
  }

  lemma ModesDiffer(a: Auth, b: Auth)
    requires ModeName(a) == ModeName(b)
    ensures a.NoAuth? == b.NoAuth? && a.PKI? == b.PKI? && a.Internal? == b.Internal? && a.External? == b.External?
  {}

  /** Same mode, same user, and passwords with the same keyed hash. */
  predicate SameAuth(a: Auth, b: Auth, keyed: Text -> nat) {
    match (a, b)
    case (Internal(u, p), Internal(v, q)) => u == v && keyed(p) == keyed(q)
    case (External(u, p), External(v, q)) => u == v && keyed(p) == keyed(q)
    case _ => a == b
  }

  ghost predicate Is64Bit(keyed: Text -> nat) {
    forall t :: Fits(Word(keyed(t), 8))
  }

  lemma CredentialsDecode(u: Text, v: Text, i: nat, j: nat, r: seq<Byte>, s: seq<Byte>)
    requires Fits(Word(i, 8)) && Fits(Word(j, 8))
    requires TextBytes(u) + LittleEndian(i, 8) + r == TextBytes(v) + LittleEndian(j, 8) + s
    ensures u == v && i == j && r == s
  {
    var x, y := LittleEndian(i, 8), LittleEndian(j, 8);
    Regroup(TextBytes(u), x, r);
    Regroup(TextBytes(v), y, s);
    TextDecodes(u, v, x + r, y + s);
    SameLengthSplits(x, y, r, s);
    NumberDecodes(i, j, 8);
  }

  lemma AuthDecodes(a: Auth, b: Auth, keyed: Text -> nat, r: seq<Byte>, s: seq<Byte>)
    requires Is64Bit(keyed) && AuthBytes(a, keyed) + r == AuthBytes(b, keyed) + s
    ensures SameAuth(a, b, keyed) && r == s
  {
    var x, y := CredentialBytes(a, keyed), CredentialBytes(b, keyed);
    Regroup(TextBytes(ModeName(a)), x, r);
    Regroup(TextBytes(ModeName(b)), y, s);
    TextDecodes(ModeName(a), ModeName(b), x + r, y + s);
    ModesDiffer(a, b);
    if a.Internal? || a.External? {
      assert Fits(Word(keyed(a.password), 8)) && Fits(Word(keyed(b.password), 8));
      CredentialsDecode(a.user, b.user, keyed(a.password), keyed(b.password), r, s);
    } else {
      assert x + r == r && y + s == s;
    }
  }

  // ---------------------------------------------------------------------------------------
  //  Sorting makes the stream independent of iteration order
  // ---------------------------------------------------------------------------------------

  lemma OrdersAreTotal()
    ensures StrictTotal(EntryLess) && StrictTotal(NumberLess)
  {
    LexicographicOrder(ByteLess, TextLess);
    assert forall a, b: Entry :: a == b || a.from != b.from || a.to != b.to;
  }

  /** Everything that two policies must share to be hashed alike; maps and sets in any order. */
  ghost predicate SameHashed(p: Policy, q: Policy, keyed: Text -> nat) {
    && SameAuth(p.auth, q.auth, keyed)
    && p.clusterName == q.clusterName && p.applicationId == q.applicationId
    && SameKnobs(p, q)
    && p.tls == q.tls && p.tlsDigest == q.tlsDigest
    && SameIps(p.ipMap, q.ipMap) && SameRacks(p.rackIds, q.rackIds)
  }

  predicate SameKnobs(p: Policy, q: Policy) {
    && p.timeout == q.timeout && p.idleTimeout == q.idleTimeout
    && p.minConns == q.minConns && p.maxConns == q.maxConns && p.connPools == q.connPools
    && p.useServicesAlternate == q.useServicesAlternate && p.failIfNotConnected == q.failIfNotConnected
    && p.tendInterval == q.tendInterval && p.bufferReclaimThreshold == q.bufferReclaimThreshold
  }

  /** `u32`, `usize` and `u8`. */
  predicate KnobsFit(p: Policy) {
    && p.timeout < 0x1_0000_0000 && p.idleTimeout < 0x1_0000_0000 && p.tendInterval < 0x1_0000_0000
    && p.minConns < 0x1_0000_0000_0000_0000 && p.maxConns < 0x1_0000_0000_0000_0000
    && p.bufferReclaimThreshold < 0x1_0000_0000_0000_0000
    && p.connPools < 0x100
  }

  ghost predicate SameIps(a: Option<seq<Entry>>, b: Option<seq<Entry>>) {
    a.Some? == b.Some? && (a.Some? ==> SameElements(a.value, b.value))
  }

  ghost predicate SameRacks(a: Option<seq<nat>>, b: Option<seq<nat>>) {
    a.Some? == b.Some? && (a.Some? ==> SameElements(a.value, b.value))
  }

  /** What the types of the fields guarantee: widths, distinct keys and members, countable sizes. */
  ghost predicate Typed(p: Policy) {
    && KnobsFit(p) && p.tlsDigest < 0x1_0000_0000_0000_0000
    && (p.ipMap.Some? ==> Distinct(p.ipMap.value) && Fits(Word(|p.ipMap.value|, 8)))
    && (p.rackIds.Some? ==>
          && Distinct(p.rackIds.value) && Fits(Word(|p.rackIds.value|, 8))
          && forall n :: n in p.rackIds.value ==> Fits(Word(n, 8)))
  }

  lemma SameSetSameSize<T(!new)>(less: (T, T) -> bool, xs: seq<T>, ys: seq<T>)
    requires StrictTotal(less) && Distinct(xs) && Distinct(ys) && SameElements(xs, ys)
    ensures |xs| == |ys| && Sort(less, xs) == Sort(less, ys)
  {
    SortForgetsOrder(less, xs, ys);
    SortKeepsElements(less, xs);
    SortKeepsElements(less, ys);
  }

  /** The fingerprint does not depend on the iteration order of the map or the set. */
  lemma OrderIsForgotten(p: Policy, q: Policy, keyed: Text -> nat)
    requires Typed(p) && Typed(q) && SameHashed(p, q, keyed)
    ensures Stream(p, keyed) == Stream(q, keyed)
  {
    OrdersAreTotal();
    if p.ipMap.Some? {
      SameSetSameSize(EntryLess, p.ipMap.value, q.ipMap.value);
    }
    if p.rackIds.Some? {
      SameSetSameSize(NumberLess, p.rackIds.value, q.rackIds.value);
    }
    assert IpBytes(p.ipMap) == IpBytes(q.ipMap) && RackBytes(p.rackIds) == RackBytes(q.rackIds);
    assert AuthBytes(p.auth, keyed) == AuthBytes(q.auth, keyed);
  }

  // ---------------------------------------------------------------------------------------
  //  The stream can be read back
  // ---------------------------------------------------------------------------------------

  /** One policy has rack ids and no translation map, the other has a map: nothing marks which is which. */
  predicate Crossed(p: Policy, q: Policy) {
    || (p.ipMap.None? && p.rackIds.Some? && q.ipMap.Some?)
    || (q.ipMap.None? && q.rackIds.Some? && p.ipMap.Some?)
  }

  lemma CountedEntriesDecode(a: seq<Entry>, b: seq<Entry>, r: seq<Byte>, s: seq<Byte>)
    requires Fits(Word(|a|, 8)) && Fits(Word(|b|, 8))
    requires LittleEndian(|a|, 8) + EntriesBytes(a) + r == LittleEndian(|b|, 8) + EntriesBytes(b) + s
    ensures a == b && r == s
  {
    Regroup(LittleEndian(|a|, 8), EntriesBytes(a), r);
    Regroup(LittleEndian(|b|, 8), EntriesBytes(b), s);
    SameLengthSplits(LittleEndian(|a|, 8), LittleEndian(|b|, 8), EntriesBytes(a) + r, EntriesBytes(b) + s);
    NumberDecodes(|a|, |b|, 8);
    EntriesDecode(a, b, r, s);
  }

  lemma IpDecodes(a: seq<Entry>, b: seq<Entry>, r: seq<Byte>, s: seq<Byte>)
    requires Fits(Word(|a|, 8)) && Fits(Word(|b|, 8))
    requires IpBytes(Some(a)) + r == IpBytes(Some(b)) + s
    ensures SameElements(a, b) && r == s
  {
    OrdersAreTotal();
    SortKeepsElements(EntryLess, a);
    SortKeepsElements(EntryLess, b);
    CountedEntriesDecode(Sort(EntryLess, a), Sort(EntryLess, b), r, s);
  }

  lemma RackDecodes(a: seq<nat>, b: seq<nat>)
    requires Fits(Word(|a|, 8)) && Fits(Word(|b|, 8)) && forall n :: n in a || n in b ==> Fits(Word(n, 8))
    requires RackBytes(Some(a)) == RackBytes(Some(b))
    ensures SameElements(a, b)
  {
    OrdersAreTotal();
    SortKeepsElements(NumberLess, a);
    SortKeepsElements(NumberLess, b);
    SameLengthSplits(LittleEndian(|a|, 8), LittleEndian(|b|, 8), NumbersBytes(Sort(NumberLess, a)), NumbersBytes(Sort(NumberLess, b)));
    NumberDecodes(|a|, |b|, 8);
    NumbersDecode(Sort(NumberLess, a), Sort(NumberLess, b));
  }

  lemma MapsDecode(p: Policy, q: Policy)
    requires Typed(p) && Typed(q) && !Crossed(p, q)
    requires IpBytes(p.ipMap) + RackBytes(p.rackIds) == IpBytes(q.ipMap) + RackBytes(q.rackIds)
    ensures SameIps(p.ipMap, q.ipMap) && SameRacks(p.rackIds, q.rackIds)
  {
    assert p.rackIds.Some? ==> |RackBytes(p.rackIds)| >= 8;
    assert q.rackIds.Some? ==> |RackBytes(q.rackIds)| >= 8;
    assert p.ipMap.Some? ==> |IpBytes(p.ipMap)| >= 8;
    assert q.ipMap.Some? ==> |IpBytes(q.ipMap)| >= 8;
    if p.ipMap.Some? && q.ipMap.Some? {
      IpDecodes(p.ipMap.value, q.ipMap.value, RackBytes(p.rackIds), RackBytes(q.rackIds));
    }
    assert p.ipMap.Some? == q.ipMap.Some?;
    assert RackBytes(p.rackIds) == RackBytes(q.rackIds) by {
      assert p.ipMap.None? ==> IpBytes(p.ipMap) + RackBytes(p.rackIds) == RackBytes(p.rackIds);
      assert q.ipMap.None? ==> IpBytes(q.ipMap) + RackBytes(q.rackIds) == RackBytes(q.rackIds);
    }
    if p.rackIds.Some? {
      RackDecodes(p.rackIds.value, q.rackIds.value);
    }
  }

  lemma TlsDecodes(p: Policy, q: Policy, r: seq<Byte>, s: seq<Byte>)
    requires Typed(p) && Typed(q) && r + TlsBytes(p) == s + TlsBytes(q)
    ensures r == s && p.tls == q.tls && p.tlsDigest == q.tlsDigest
  {
    assert |TlsBytes(p)| == |TlsBytes(q)| && |r| == |s|;
    SameLengthSplits(r, s, TlsBytes(p), TlsBytes(q));
    SameLengthSplits(LittleEndian(Bit(p.tls), 1), LittleEndian(Bit(q.tls), 1),
                     LittleEndian(p.tlsDigest, 8), LittleEndian(q.tlsDigest, 8));
    EightBytes();
    assert Power256(1) == 256;
    NumberDecodes(Bit(p.tls), Bit(q.tls), 1);
    NumberDecodes(p.tlsDigest, q.tlsDigest, 8);
  }

  lemma KnobsAreWords(p: Policy)
    requires KnobsFit(p)
    ensures AllFit(Knobs(p))
  {
    EightBytes();
    assert Power256(1) == 0x100 && Power256(4) == 0x1_0000_0000;
  }

  lemma KnobsDecode(p: Policy, q: Policy, r: seq<Byte>, s: seq<Byte>)
    requires KnobsFit(p) && KnobsFit(q) && WordsBytes(Knobs(p)) + r == WordsBytes(Knobs(q)) + s
    ensures SameKnobs(p, q) && r == s
  {
    KnobsAreWords(p);
    KnobsAreWords(q);
    WordsDecode(Knobs(p), Knobs(q), r, s);
    SameWords(p, q);
  }

  lemma SameWords(p: Policy, q: Policy)
    requires Knobs(p) == Knobs(q)
    ensures SameKnobs(p, q)
  {
    var a, b := Knobs(p), Knobs(q);
    assert forall i :: 0 <= i < 9 ==> a[i].value == b[i].value;
    assert a[0].value == b[0].value && a[1].value == b[1].value && a[2].value == b[2].value && a[3].value == b[3].value;
    assert a[4].value == b[4].value && a[5].value == b[5].value && a[6].value == b[6].value;
    assert a[7].value == b[7].value && a[8].value == b[8].value;
  }

  /** The part of the stream after the application id. */
  function Rest(p: Policy): seq<Byte> {
    IpBytes(p.ipMap) + RackBytes(p.rackIds) + TlsBytes(p)
  }

  lemma StreamDecodes(p: Policy, q: Policy, keyed: Text -> nat)
    requires Typed(p) && Typed(q) && Is64Bit(keyed) && !Crossed(p, q)
    requires Stream(p, keyed) == Stream(q, keyed)
    ensures SameHashed(p, q, keyed)
  {
    var p3, q3 := OptionBytes(p.applicationId) + Rest(p), OptionBytes(q.applicationId) + Rest(q);
    var p2, q2 := WordsBytes(Knobs(p)) + p3, WordsBytes(Knobs(q)) + q3;
    var p1, q1 := OptionBytes(p.clusterName) + p2, OptionBytes(q.clusterName) + q2;
    AuthDecodes(p.auth, q.auth, keyed, p1, q1);
    OptionDecodes(p.clusterName, q.clusterName, p2, q2);
    KnobsDecode(p, q, p3, q3);
    OptionDecodes(p.applicationId, q.applicationId, Rest(p), Rest(q));
    TlsDecodes(p, q, IpBytes(p.ipMap) + RackBytes(p.rackIds), IpBytes(q.ipMap) + RackBytes(q.rackIds));
    MapsDecode(p, q);
  }

  /**
   Two policies feed the hasher the same bytes exactly when they agree in every hashed field and
   digest, the map and the set in any order, unless one has rack ids and no map and the other has
   a map.
  */
  lemma StreamIsUniquelyDecodable(p: Policy, q: Policy, keyed: Text -> nat)
    requires Typed(p) && Typed(q) && Is64Bit(keyed) && !Crossed(p, q)
    ensures Stream(p, keyed) == Stream(q, keyed) <==> SameHashed(p, q, keyed)
  {
    if SameHashed(p, q, keyed) {
      OrderIsForgotten(p, q, keyed);
    }
    if Stream(p, keyed) == Stream(q, keyed) {
      StreamDecodes(p, q, keyed);
    }
  }

  /**
   For the policies that PHP can set up, none of which has rack ids, that is exact without
   exception: equal bytes mean equal hashed fields and digests, and the other way round.
  */
  lemma FingerprintsAreExact(p: Policy, q: Policy, keyed: Text -> nat)
    requires Typed(p) && Typed(q) && Is64Bit(keyed) && p.rackIds.None? && q.rackIds.None?
    ensures Stream(p, keyed) == Stream(q, keyed) <==> SameHashed(p, q, keyed)
  {
    StreamIsUniquelyDecodable(p, q, keyed);
  }

  function WithEntry(p: Policy, e: Entry): Policy {
    p.(ipMap := Some([e]), rackIds := None)
  }

  function WithRack(p: Policy, n: nat): Policy {
    p.(ipMap := None, rackIds := Some([n]))
  }

  lemma SinglesAreTyped(p: Policy, e: Entry, n: nat)
    requires Typed(p) && Fits(Word(n, 8))
    ensures Typed(WithEntry(p, e)) && Typed(WithRack(p, n))
  {
    EightBytes();
  }

  lemma EightBytes()
    ensures Power256(8) == 0x1_0000_0000_0000_0000
  {
    assert Power256(2) == 0x1_0000 && Power256(4) == 0x1_0000_0000 && Power256(6) == 0x1_0000_0000_0000;
  }

  /** A map of one entry is hashed as one rack id, when the id's eight bytes spell the entry. */
  lemma EntryPassesForARack(p: Policy, e: Entry, n: nat, keyed: Text -> nat)
    requires TextBytes(e.from) + TextBytes(e.to) == LittleEndian(n, 8)
    ensures var a, b := WithEntry(p, e), WithRack(p, n);
            Stream(a, keyed) == Stream(b, keyed) && !SameHashed(a, b, keyed) && Crossed(a, b)
  {
    OneEntry(e);
    OneNumber(n);
    var a, b := WithEntry(p, e), WithRack(p, n);
    assert IpBytes(a.ipMap) + RackBytes(a.rackIds) == IpBytes(b.ipMap) + RackBytes(b.rackIds);
  }

  lemma SpelledFits()
    ensures Fits(Word(SPELLED, 8)) && TextBytes([97, 98, 99]) + TextBytes([100, 101, 102]) == LittleEndian(SPELLED, 8)
  {
    SpelledBytes();
    EightBytes();
  }

  /** Such pairs exist: a map from "abc" to "def" passes for one rack. */
  lemma CrossedPoliciesCollide(p: Policy, keyed: Text -> nat) returns (a: Policy, b: Policy)
    requires Typed(p)
    ensures Typed(a) && Typed(b)
    ensures Stream(a, keyed) == Stream(b, keyed) && !SameHashed(a, b, keyed)
    ensures a.rackIds.None? && a.ipMap == Some([Entry([97, 98, 99], [100, 101, 102])])
    ensures b == a.(ipMap := None, rackIds := b.rackIds)
  {
    var e, n := Entry([97, 98, 99], [100, 101, 102]), SPELLED;
    SpelledFits();
    SinglesAreTyped(p, e, n);
    EntryPassesForARack(p, e, n, keyed);
    a, b := WithEntry(p, e), WithRack(p, n);
  }

  lemma OneEntry(e: Entry)
    ensures IpBytes(Some([e])) == LittleEndian(1, 8) + (TextBytes(e.from) + TextBytes(e.to))
  {
    assert [e][1..] == [];
    assert Sort(EntryLess, [e]) == [e];
    assert EntriesBytes([e]) == TextBytes(e.from) + TextBytes(e.to) + EntriesBytes([]);
  }

  lemma OneNumber(n: nat)
    ensures RackBytes(Some([n])) == LittleEndian(1, 8) + LittleEndian(n, 8)
  {
    assert [n][1..] == [];
    assert Sort(NumberLess, [n]) == [n];
    assert NumbersBytes([n]) == LittleEndian(n, 8) + NumbersBytes([]);
  }

  const SPELLED: nat := 0xff666564ff636261

  lemma SpelledHigh()
    ensures LittleEndian(0xff666564, 4) == [100, 101, 102, 0xff]
  {
    assert LittleEndian(0xff, 1) == [0xff] + LittleEndian(0, 0);
    assert LittleEndian(0xff66, 2) == [102] + LittleEndian(0xff, 1);
    assert LittleEndian(0xff6665, 3) == [101] + LittleEndian(0xff66, 2);
  }

  lemma SpelledBytes()
    ensures LittleEndian(SPELLED, 8) == [97, 98, 99, 0xff, 100, 101, 102, 0xff]
  {
    SpelledHigh();
    assert LittleEndian(0xff666564ff, 5) == [0xff] + LittleEndian(0xff666564, 4);
    assert LittleEndian(0xff666564ff63, 6) == [99] + LittleEndian(0xff666564ff, 5);
    assert LittleEndian(0xff666564ff6362, 7) == [98] + LittleEndian(0xff666564ff63, 6);
  }
}
