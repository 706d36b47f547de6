/**
 `normalize_hosts` and the key of the client cache.

 A seed list is canonical once every seed is trimmed, in lower case and with a port, and the
 seeds are sorted without repetition. Two seed lists share a client exactly when they name the
 same canonical seeds.
*/
module Hosts {
  import opened Counting
  import opened NumericKeys
  import opened Sorting
  import opened Wrappers

  // ---------------------------------------------------------------------------------------
  //  Text
  // ---------------------------------------------------------------------------------------

  /** `split(',')`: never empty. */
  function Split(s: string): (parts: seq<string>)
    ensures parts != []
  {
    if s == "" then [""]
    else
      var rest := Split(s[1..]);
      if s[0] == ',' then [""] + rest else [[s[0]] + rest[0]] + rest[1..]
  }

  /** `join(",")`. */
  function Join(parts: seq<string>): string {
    if parts == [] then ""
    else if |parts| == 1 then parts[0]
    else parts[0] + "," + Join(parts[1..])
  }

  /** `char::is_whitespace`: the characters with the Unicode property `White_Space`. */
  predicate IsBlank(c: char) {
    var u := c as int;
    || 0x09 <= u <= 0x0d || u == 0x20 || u == 0x85 || u == 0xa0 || u == 0x1680
    || 0x2000 <= u <= 0x200a || u == 0x2028 || u == 0x2029 || u == 0x202f || u == 0x205f || u == 0x3000
  }

  predicate AllBlank(s: string) {
    forall i :: 0 <= i < |s| ==> IsBlank(s[i])
  }

  function TrimStart(s: string): string {
    if s != "" && IsBlank(s[0]) then TrimStart(s[1..]) else s
  }

  function TrimEnd(s: string): string {
    if s != "" && IsBlank(s[|s| - 1]) then TrimEnd(s[..|s| - 1]) else s
  }

  /** `str::trim`. */
  function Trim(s: string): string {
    TrimEnd(TrimStart(s))
  }

  function LowerChar(c: char): char {
    if 'A' <= c <= 'Z' then (c as int + 32) as char else c
  }

  /** `to_ascii_lowercase`. */
  function Lower(s: string): (l: string)
    ensures |l| == |s| && forall i :: 0 <= i < |s| ==> l[i] == LowerChar(s[i])
  {
    seq(|s|, i requires 0 <= i < |s| => LowerChar(s[i]))
  }

  /** Where `rsplit_once(':')` splits. */
  function LastColon(s: string): (at: Option<nat>)
    ensures at.Some? ==> at.value < |s| && s[at.value] == ':' && ':' !in s[at.value + 1..]
    ensures at.None? ==> ':' !in s
  {
    if s == "" then None
    else if s[|s| - 1] == ':' then Some(|s| - 1)
    else
      var at := LastColon(s[..|s| - 1]);
      assert s == s[..|s| - 1] + [s[|s| - 1]];
      assert at.Some? ==> s[at.value + 1..] == s[..|s| - 1][at.value + 1..] + [s[|s| - 1]];
      at
  }

  predicate CharLess(a: char, b: char) {
    a < b
  }

  /** Strings are ordered by code points, which for UTF-8 is also the order of the bytes. */
  predicate TextLess(a: string, b: string) {
    Lexicographic(CharLess, a, b)
  }

  lemma TextOrder()
    ensures StrictTotal(TextLess)
  {
    LexicographicOrder(CharLess, TextLess);
  }

  // ---------------------------------------------------------------------------------------
  //  Seeds
  // ---------------------------------------------------------------------------------------

  /** The guard of the `host:port` arm: a nonempty head and a nonempty port of ASCII digits. */
  predicate HasPort(h: string) {
    var at := LastColon(h);
    at.Some? && h[at.value + 1..] != "" && AllDigits(h[at.value + 1..]) && h[..at.value] != ""
  }

  const DEFAULT_PORT := "3000"

  /** One seed in canonical form. */
  function Canon(h: string): string {
    if HasPort(h) then Lower(h[..LastColon(h).value]) + ":" + h[LastColon(h).value + 1..]
    else Lower(h) + ":" + DEFAULT_PORT
  }

  /** The seeds that a list of segments names, in the order they are written. */
  function SeedsOf(segments: seq<string>): seq<string> {
    if segments == [] then []
    else
      var h := Trim(segments[0]);
      (if h == "" then [] else [Canon(h)]) + SeedsOf(segments[1..])
  }

  function Seeds(hosts: string): seq<string> {
    SeedsOf(Split(hosts))
  }

  /** `normalize_hosts`. */
  function NormalizeHosts(hosts: string): string {
    Join(Dedup(Sort(TextLess, Seeds(hosts))))
  }

  // ---------------------------------------------------------------------------------------
  //  Splitting undoes joining
  // ---------------------------------------------------------------------------------------

  lemma {:induction false} SplitAtComma(a: string, rest: string)
    requires ',' !in a
    ensures Split(a) == [a] && Split(a + "," + rest) == [a] + Split(rest)
  {
    if a == "" {
      assert ("," + rest)[1..] == rest;
      assert a + "," + rest == "," + rest;
    } else {
      SplitAtComma(a[1..], rest);
      assert (a + "," + rest)[1..] == a[1..] + "," + rest;
      assert a == [a[0]] + a[1..];
    }
  }

  predicate NoCommas(parts: seq<string>) {
    forall i :: 0 <= i < |parts| ==> ',' !in parts[i]
  }

  lemma {:induction false} SplitUndoesJoin(parts: seq<string>)
    requires parts != [] && NoCommas(parts)
    ensures Split(Join(parts)) == parts
  {
    if |parts| == 1 {
      SplitAtComma(parts[0], "");
    } else {
      SplitUndoesJoin(parts[1..]);
      SplitAtComma(parts[0], Join(parts[1..]));
    }
  }

  lemma {:induction false} SegmentsHaveNoCommas(s: string)
    ensures NoCommas(Split(s))
  {
    if s != "" {
      SegmentsHaveNoCommas(s[1..]);
    }
  }

  // ---------------------------------------------------------------------------------------
  //  One seed
  // ---------------------------------------------------------------------------------------

  /** The port of a seed with one is already in lower case. */
  lemma CanonIsLower(h: string)
    ensures Canon(h) == if HasPort(h) then Lower(h) else Lower(h) + ":" + DEFAULT_PORT
  {}

  /** `host:port` written out is recognised as such, whatever the host is. */
  lemma RecognisesPort(head: string, port: string)
    requires head != "" && port != "" && AllDigits(port)
    ensures HasPort(head + ":" + port) && LastColon(head + ":" + port) == Some(|head|)
  {
    var h := head + ":" + port;
    assert h[|head| + 1..] == port && h[..|head|] == head;
    assert forall i :: 0 <= i < |port| ==> IsDigit(port[i]);
    LastColonFound(h, |head|);
  }

  lemma LastColonFound(s: string, at: nat)
    requires at < |s| && s[at] == ':' && ':' !in s[at + 1..]
    ensures LastColon(s) == Some(at)
  {}

  lemma LowerKeepsPort(h: string)
    ensures HasPort(Lower(h)) == HasPort(h)
  {}

  lemma LowerTwice(s: string)
    ensures Lower(Lower(s)) == Lower(s)
  {}

  lemma LowerWithPort(s: string)
    ensures Lower(s + ":3000") == Lower(s) + ":3000"
    ensures Lower(s) + ":3000" == Lower(s) + ":" + DEFAULT_PORT
  {}

  /** A seed in canonical form is its own canonical form. */
  lemma CanonIsIdempotent(h: string)
    requires h != ""
    ensures Canon(Canon(h)) == Canon(h)
  {
    CanonIsLower(h);
    CanonIsLower(Canon(h));
    if HasPort(h) {
      LowerKeepsPort(h);
      LowerTwice(h);
    } else {
      RecognisesPort(Lower(h), DEFAULT_PORT);
      LowerWithPort(Lower(h));
      LowerTwice(h);
    }
  }

  /**
   Writing the default port out changes nothing exactly when the host does not already end in a
   colon and digits: it is neutral for a plain host name, and not for "a:3000" or "::1".
  */
  lemma DefaultPortIsNeutral(h: string)
    requires h != ""
    ensures Canon(h + ":3000") == Canon(h) <==> !EndsInPort(h)
  {
    CanonIsLowerWithPort(h);
    CanonIsLowerWithPort(h + ":3000");
    assert PortAt(h + ":3000", |h|);
  }

  /** At `at` a colon ends some text, and one or more digits follow to the end. */
  predicate PortAt(h: string, at: int) {
    0 < at < |h| - 1 && h[at] == ':' && forall i :: at < i < |h| ==> '0' <= h[i] <= '9'
  }

  predicate EndsInPort(h: string) {
    exists at :: 0 < at < |h| && PortAt(h, at)
  }

  /** The guard of the first arm says exactly that. */
  lemma HasPortExactly(h: string)
    ensures HasPort(h) <==> EndsInPort(h)
  {
    if HasPort(h) {
      PortIsAtTheColon(h);
    }
    if at :| 0 < at < |h| && PortAt(h, at) {
      PortIsRecognised(h, at);
    }
  }

  lemma PortIsAtTheColon(h: string)
    requires HasPort(h)
    ensures PortAt(h, LastColon(h).value)
  {
    var at := LastColon(h).value;
    var port := h[at + 1..];
    forall i | at < i < |h| ensures '0' <= h[i] <= '9' {
      assert h[i] == port[i - at - 1];
    }
  }

  lemma PortIsRecognised(h: string, at: nat)
    requires PortAt(h, at)
    ensures HasPort(h)
  {
    var port := h[at + 1..];
    assert forall i :: 0 <= i < |port| ==> port[i] == h[at + 1 + i];
    RecognisesPort(h[..at], port);
    assert h == h[..at] + ":" + port;
  }

  /** One letter, small or capital, or the same character. */
  predicate SameLetter(c: char, d: char) {
    || c == d
    || ('A' <= c <= 'Z' && 'a' <= d <= 'z' && c as int - 'A' as int == d as int - 'a' as int)
    || ('a' <= c <= 'z' && 'A' <= d <= 'Z' && c as int - 'a' as int == d as int - 'A' as int)
  }

  predicate SameUpToCase(s: string, t: string) {
    |s| == |t| && forall i :: 0 <= i < |s| ==> SameLetter(s[i], t[i])
  }

  /** A seed with its port written out. */
  function WithPort(h: string): string {
    if EndsInPort(h) then h else h + ":3000"
  }

  lemma LowerDecidesCase(s: string, t: string)
    ensures Lower(s) == Lower(t) <==> SameUpToCase(s, t)
  {
    forall c: char, d: char ensures LowerChar(c) == LowerChar(d) <==> SameLetter(c, d) {
      LowerLetters(c, d);
    }
    if Lower(s) == Lower(t) {
      assert |s| == |Lower(s)| == |Lower(t)| == |t|;
      forall i | 0 <= i < |s| ensures SameLetter(s[i], t[i]) {
        assert Lower(s)[i] == LowerChar(s[i]) && Lower(t)[i] == LowerChar(t[i]);
      }
    }
  }

  lemma LowerLetters(c: char, d: char)
    ensures LowerChar(c) == LowerChar(d) <==> SameLetter(c, d)
  {}

  /** Two seeds have one canonical form exactly when, with their ports written out, only case differs. */
  lemma CanonExactly(g: string, h: string)
    ensures Canon(g) == Canon(h) <==> SameUpToCase(WithPort(g), WithPort(h))
  {
    CanonIsLowerWithPort(g);
    CanonIsLowerWithPort(h);
    LowerDecidesCase(WithPort(g), WithPort(h));
  }

  lemma CanonIsLowerWithPort(h: string)
    ensures Canon(h) == Lower(WithPort(h))
  {
    CanonIsLower(h);
    HasPortExactly(h);
    LowerWithPort(h);
    assert h + ":" + "3000" == h + ":3000";
  }

  /** The case of ASCII letters does not matter, and the canonical form is in small letters. */
  lemma CaseIsNeutral(g: string, h: string)
    requires SameUpToCase(g, h)
    ensures Canon(g) == Canon(h)
    ensures forall c <- Canon(g) :: !('A' <= c <= 'Z')
  {
    SameCaseWithPort(g, h);
    CanonExactly(g, h);
    CanonIsLowerWithPort(g);
    LowerIsSmall(WithPort(g));
  }

  lemma LowerIsSmall(s: string)
    ensures forall c <- Lower(s) :: !('A' <= c <= 'Z')
  {
    forall i | 0 <= i < |s| ensures !('A' <= Lower(s)[i] <= 'Z') {
      assert Lower(s)[i] == LowerChar(s[i]);
    }
  }

  lemma SameCaseWithPort(g: string, h: string)
    requires SameUpToCase(g, h)
    ensures SameUpToCase(WithPort(g), WithPort(h))
  {
    if EndsInPort(g) {
      SameCaseKeepsPort(g, h);
    } else if EndsInPort(h) {
      SameCaseKeepsPort(h, g);
    }
  }

  lemma SameCaseKeepsPort(g: string, h: string)
    requires SameUpToCase(g, h) && EndsInPort(g)
    ensures EndsInPort(h)
  {
    var at :| 0 < at < |g| && PortAt(g, at);
    forall i | at <= i < |h| ensures h[i] == g[i] {
      assert SameLetter(g[i], h[i]);
    }
    assert PortAt(h, at);
  }

  lemma {:induction false} TrimStartSkips(pad: string, s: string)
    requires AllBlank(pad)
    ensures TrimStart(pad + s) == TrimStart(s)
  {
    if pad == "" {
      assert pad + s == s;
    } else {
      assert (pad + s)[1..] == pad[1..] + s;
      TrimStartSkips(pad[1..], s);
    }
  }

  lemma {:induction false} TrimEndSkips(s: string, pad: string)
    requires AllBlank(pad)
    ensures TrimEnd(s + pad) == TrimEnd(s)
  {
    if pad == "" {
      assert s + pad == s;
    } else {
      assert (s + pad)[..|s + pad| - 1] == s + pad[..|pad| - 1];
      TrimEndSkips(s, pad[..|pad| - 1]);
    }
  }

  lemma {:induction false} TrimStartOfPadded(s: string, pad: string)
    requires AllBlank(pad)
    ensures TrimStart(s + pad) == TrimStart(s) + pad || (TrimStart(s) == "" && TrimStart(s + pad) == "")
  {
    if s == "" {
      TrimStartSkips(pad, "");
      assert s + pad == pad && pad + "" == pad;
    } else if IsBlank(s[0]) {
      assert (s + pad)[1..] == s[1..] + pad;
      TrimStartOfPadded(s[1..], pad);
    }
  }

  /** Spaces, tabs, line ends and the other characters that Unicode calls white space. */
  predicate Padding(s: string) {
    forall c <- s :: c in " \t\n\r" || IsBlank(c)
  }

  /** Blanks around a seed do not matter, and nothing else is cut off. */
  lemma BlanksAreNeutral(before: string, s: string, after: string)
    requires Padding(before) && Padding(after)
    ensures Trim(before + s + after) == Trim(s)
    ensures s != "" && '!' <= s[0] <= '~' && '!' <= s[|s| - 1] <= '~' ==> Trim(s) == s
  {
    assert AllBlank(before) && AllBlank(after);
    assert before + s + after == before + (s + after);
    TrimStartSkips(before, s + after);
    TrimStartOfPadded(s, after);
    TrimEndSkips(TrimStart(s), after);
  }

  /** Text that neither starts nor ends in a blank. */
  predicate Tight(s: string) {
    s != "" && !IsBlank(s[0]) && !IsBlank(s[|s| - 1])
  }

  lemma {:induction false} TrimStartTight(s: string)
    ensures TrimStart(s) != "" ==> !IsBlank(TrimStart(s)[0])
    ensures forall c :: c in TrimStart(s) ==> c in s
  {
    if s != "" && IsBlank(s[0]) {
      TrimStartTight(s[1..]);
    }
  }

  lemma {:induction false} TrimEndTight(s: string)
    ensures TrimEnd(s) != "" ==> !IsBlank(TrimEnd(s)[|TrimEnd(s)| - 1]) && TrimEnd(s)[0] == s[0]
    ensures |TrimEnd(s)| <= |s|
    ensures forall c :: c in TrimEnd(s) ==> c in s
  {
    if s != "" && IsBlank(s[|s| - 1]) {
      TrimEndTight(s[..|s| - 1]);
    }
  }

  lemma TrimIsTight(s: string)
    ensures Trim(s) != "" ==> Tight(Trim(s))
    ensures forall c :: c in Trim(s) ==> c in s
  {
    TrimStartTight(s);
    TrimEndTight(TrimStart(s));
  }

  // ---------------------------------------------------------------------------------------
  //  Canonical seed lists
  // ---------------------------------------------------------------------------------------

  /** What every seed looks like after normalisation. */
  predicate CanonicalSeed(x: string) {
    Tight(x) && ',' !in x && Canon(x) == x
  }

  lemma SeedIsCanonical(segment: string)
    requires ',' !in segment && Trim(segment) != ""
    ensures CanonicalSeed(Canon(Trim(segment)))
  {
    TrimIsTight(segment);
    CanonOfTight(Trim(segment));
    CanonIsIdempotent(Trim(segment));
  }

  lemma CanonOfTight(h: string)
    requires Tight(h) && ',' !in h
    ensures Tight(Canon(h)) && ',' !in Canon(h)
  {}

  ghost predicate AllCanonical(xs: seq<string>) {
    forall x :: x in xs ==> CanonicalSeed(x)
  }

  /** The seeds are the canonical forms of the segments that are not blank. */
  lemma {:induction false} SeedsAre(segments: seq<string>, x: string)
    ensures x in SeedsOf(segments) <==> exists i :: 0 <= i < |segments| && Trim(segments[i]) != "" && x == Canon(Trim(segments[i]))
  {
    if segments == [] {
    } else {
      SeedsAre(segments[1..], x);
      assert segments == [segments[0]] + segments[1..];
      if i :| 0 <= i < |segments| && Trim(segments[i]) != "" && x == Canon(Trim(segments[i])) {
        if i > 0 {
          assert segments[1..][i - 1] == segments[i];
        }
      }
    }
  }

  lemma SeedsAreCanonical(segments: seq<string>)
    requires NoCommas(segments)
    ensures AllCanonical(SeedsOf(segments))
  {
    forall x | x in SeedsOf(segments) ensures CanonicalSeed(x) {
      SeedsAre(segments, x);
      var i :| 0 <= i < |segments| && Trim(segments[i]) != "" && x == Canon(Trim(segments[i]));
      SeedIsCanonical(segments[i]);
    }
  }

  lemma TightIsTrimmed(x: string)
    requires Tight(x)
    ensures Trim(x) == x
  {}

  lemma CanonicalSeedStays(x: string)
    requires CanonicalSeed(x)
    ensures x != "" && Trim(x) == x && Canon(Trim(x)) == x
  {
    TightIsTrimmed(x);
  }

  lemma {:induction false} CanonicalSeedsStay(xs: seq<string>)
    requires AllCanonical(xs)
    ensures SeedsOf(xs) == xs
  {
    if xs == [] {
    } else {
      assert xs[0] in xs;
      assert AllCanonical(xs[1..]) by { assert forall x :: x in xs[1..] ==> x in xs; }
      CanonicalSeedsStay(xs[1..]);
      CanonicalSeedStays(xs[0]);
      assert xs == [xs[0]] + xs[1..];
    }
  }

  /** Reading a joined list of canonical seeds gives the list back. */
  lemma SeedsUndoJoin(xs: seq<string>)
    requires AllCanonical(xs)
    ensures Seeds(Join(xs)) == xs
  {
    if xs != [] {
      forall i | 0 <= i < |xs| ensures ',' !in xs[i] {
        assert xs[i] in xs;
      }
      SplitUndoesJoin(xs);
      CanonicalSeedsStay(xs);
    }
  }

  /** The seeds of the normalised list: those of the list itself, each once, in order. */
  lemma NormalizedSeeds(hosts: string)
    ensures Seeds(NormalizeHosts(hosts)) == Dedup(Sort(TextLess, Seeds(hosts)))
    ensures StrictlySorted(TextLess, Seeds(NormalizeHosts(hosts))) && SameElements(Seeds(NormalizeHosts(hosts)), Seeds(hosts))
  {
    SegmentsHaveNoCommas(hosts);
    SeedsAreCanonical(Split(hosts));
    TextOrder();
    SortDedup(TextLess, Seeds(hosts));
    SeedsUndoJoin(Dedup(Sort(TextLess, Seeds(hosts))));
  }

  /** Two seed lists have the same normal form exactly when they name the same canonical seeds. */
  lemma NormalFormsDecideTheSeeds(a: string, b: string)
    ensures NormalizeHosts(a) == NormalizeHosts(b) <==> SameElements(Seeds(a), Seeds(b))
  {
    NormalizedSeeds(a);
    NormalizedSeeds(b);
    if SameElements(Seeds(a), Seeds(b)) {
      TextOrder();
      StrictlySortedIsUnique(TextLess, Seeds(NormalizeHosts(a)), Seeds(NormalizeHosts(b)));
    }
  }

  /** Normalising twice is normalising once. */
  lemma NormalizeIsIdempotent(hosts: string)
    ensures NormalizeHosts(NormalizeHosts(hosts)) == NormalizeHosts(hosts)
  {
    NormalizedSeeds(hosts);
    NormalFormsDecideTheSeeds(NormalizeHosts(hosts), hosts);
  }

  /** `t` says the same as `s`: only blanks, the case of ASCII letters, or the default port left out differ. */
  predicate SameSeed(s: string, t: string) {
    (Trim(s) == "" <==> Trim(t) == "") && (Trim(s) != "" ==> SameUpToCase(WithPort(Trim(s)), WithPort(Trim(t))))
  }

  /** Every segment that names a seed says the same as some segment of the other list. */
  ghost predicate Covers(segments: seq<string>, others: seq<string>) {
    forall i :: 0 <= i < |others| && Trim(others[i]) != "" ==> HasSame(segments, others[i])
  }

  ghost predicate HasSame(segments: seq<string>, s: string) {
    exists j :: 0 <= j < |segments| && SameSeed(s, segments[j])
  }

  lemma CoveredSeeds(segments: seq<string>, others: seq<string>)
    requires Covers(segments, others)
    ensures forall x :: x in SeedsOf(others) ==> x in SeedsOf(segments)
  {
    forall x | x in SeedsOf(others) ensures x in SeedsOf(segments) {
      SeedsAre(others, x);
      var i :| 0 <= i < |others| && Trim(others[i]) != "" && x == Canon(Trim(others[i]));
      assert HasSame(segments, others[i]);
      var j :| 0 <= j < |segments| && SameSeed(others[i], segments[j]);
      CanonExactly(Trim(others[i]), Trim(segments[j]));
      SeedsAre(segments, x);
    }
  }

  lemma SeedsCovered(segments: seq<string>, others: seq<string>)
    requires forall x :: x in SeedsOf(others) ==> x in SeedsOf(segments)
    ensures Covers(segments, others)
  {
    forall i | 0 <= i < |others| && Trim(others[i]) != "" ensures HasSame(segments, others[i]) {
      SeedHasSame(segments, others, i);
    }
  }

  lemma SeedHasSame(segments: seq<string>, others: seq<string>, i: nat)
    requires i < |others| && Trim(others[i]) != ""
    requires Canon(Trim(others[i])) in SeedsOf(others) ==> Canon(Trim(others[i])) in SeedsOf(segments)
    ensures HasSame(segments, others[i])
  {
    var x := Canon(Trim(others[i]));
    SeedsAre(others, x);
    SeedsAre(segments, x);
    var j :| 0 <= j < |segments| && Trim(segments[j]) != "" && x == Canon(Trim(segments[j]));
    CanonExactly(Trim(others[i]), Trim(segments[j]));
    assert SameSeed(others[i], segments[j]);
  }

  lemma CoverEachOtherExactly(segments: seq<string>, others: seq<string>)
    ensures Covers(segments, others) && Covers(others, segments) <==> SameElements(SeedsOf(segments), SeedsOf(others))
  {
    if Covers(segments, others) && Covers(others, segments) {
      CoveredSeeds(segments, others);
      CoveredSeeds(others, segments);
    }
    if SameElements(SeedsOf(segments), SeedsOf(others)) {
      SeedsCovered(segments, others);
      SeedsCovered(others, segments);
    }
  }

  /**
   Two lists of segments have one normal form exactly when each segment that names a seed says
   the same as some segment of the other list. So reordering, repeating, adding blank segments
   and respelling a segment change nothing, and everything else does.
  */
  lemma SpellingDecides(segments: seq<string>, others: seq<string>)
    requires segments != [] && others != [] && NoCommas(segments) && NoCommas(others)
    ensures NormalizeHosts(Join(segments)) == NormalizeHosts(Join(others))
        <==> Covers(segments, others) && Covers(others, segments)
  {
    SplitUndoesJoin(segments);
    SplitUndoesJoin(others);
    CoverEachOtherExactly(segments, others);
    NormalFormsDecideTheSeeds(Join(segments), Join(others));
  }

  lemma OneSeed(h: string)
    requires Tight(h) && ',' !in h
    ensures Seeds(h) == [Canon(h)]
  {
    SplitAtComma(h, "");
    TightIsTrimmed(h);
    assert SeedsOf([h]) == [Canon(h)] + SeedsOf([]);
  }

  /** For one seed, too: leaving the default port out is neutral exactly without a trailing port. */
  lemma DefaultPortMayBeLeftOut(h: string)
    requires Tight(h) && ',' !in h
    ensures NormalizeHosts(h + ":3000") == NormalizeHosts(h) <==> !EndsInPort(h)
  {
    var t := h + ":3000";
    OneSeed(h);
    OneSeed(t);
    DefaultPortIsNeutral(h);
    NormalFormsDecideTheSeeds(t, h);
    assert Canon(h) in Seeds(h);
  }

  /** "::1" is taken for the host ":" on port 1, so writing its default port out changes the key. */
  lemma BareAddressHasAPort()
    ensures NormalizeHosts("::1") != NormalizeHosts("::1:3000")
  {
    var h := "::1";
    assert h + ":3000" == "::1:3000";
    assert h[2] == '1' && PortAt(h, 1);
    DefaultPortMayBeLeftOut(h);
  }

  // ---------------------------------------------------------------------------------------
  //  The key of the client cache
  // ---------------------------------------------------------------------------------------

  function HexDigit(d: nat): char
    requires d < 16
  {
    "0123456789abcdef"[d]
  }

  /** The last `n` hexadecimal digits of a number. */
  function Hex(w: nat, n: nat): (s: string)
    ensures |s| == n && '|' !in s
  {
    if n == 0 then "" else Hex(w / 16, n - 1) + [HexDigit(w % 16)]
  }

  function Power16(n: nat): nat {
    if n == 0 then 1 else 16 * Power16(n - 1)
  }

  lemma {:induction false} HexIsInjective(a: nat, b: nat, n: nat)
    requires a < Power16(n) && b < Power16(n) && Hex(a, n) == Hex(b, n)
    ensures a == b
  {
    if n == 0 {
    } else {
      assert Hex(a, n)[..n - 1] == Hex(a / 16, n - 1) && Hex(b, n)[..n - 1] == Hex(b / 16, n - 1);
      assert Hex(a, n)[n - 1] == Hex(b, n)[n - 1];
      HexIsInjective(a / 16, b / 16, n - 1);
    }
  }

  /** `format!("{:016x}")` of a 64-bit word, or nothing for a client without a policy. */
  function FingerprintText(word: Option<nat>): (s: string)
    ensures '|' !in s
  {
    match word
    case None => ""
    case Some(w) => Hex(w, 16)
  }

  function CacheKey(hosts: string, word: Option<nat>): string {
    NormalizeHosts(hosts) + "|" + FingerprintText(word)
  }

  predicate IsWord(word: Option<nat>) {
    word.Some? ==> word.value < Power16(16)
  }

  /**
   Two connects share a cache entry exactly when each of their seeds says the same as some seed of
   the other, and their policies have the same fingerprint, or neither has a policy.
  */
  lemma CacheKeysDecide(a: string, p: Option<nat>, b: string, q: Option<nat>)
    requires IsWord(p) && IsWord(q)
    ensures CacheKey(a, p) == CacheKey(b, q) <==> Covers(Split(a), Split(b)) && Covers(Split(b), Split(a)) && p == q
  {
    NormalFormsDecideTheSeeds(a, b);
    CoverEachOtherExactly(Split(a), Split(b));
    if CacheKey(a, p) == CacheKey(b, q) {
      BarSeparates(NormalizeHosts(a), FingerprintText(p), NormalizeHosts(b), FingerprintText(q));
      if p.Some? && q.Some? {
        HexIsInjective(p.value, q.value, 16);
      }
    }
  }

  lemma BarSeparates(a: string, x: string, b: string, y: string)
    requires a + "|" + x == b + "|" + y && '|' !in x && '|' !in y
    ensures a == b && x == y
  {
    var s, t := a + "|" + x, b + "|" + y;
    BarIsLast(a, x);
    BarIsLast(b, y);
    assert |a| == |b|;
    assert s[..|a|] == a && t[..|b|] == b && s[|a| + 1..] == x && t[|b| + 1..] == y;
  }

  lemma BarIsLast(a: string, x: string)
    requires '|' !in x
    ensures var s := a + "|" + x; s[|a|] == '|' && forall i :: |a| < i < |s| ==> s[i] != '|'
  {}
}
