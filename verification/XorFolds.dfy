/**
 Folding words with XOR, and why the order of the words does not matter.
*/
module XorFolds {

  function Fold<W>(op: (W, W) -> W, unit: W, ws: seq<W>): W {
    if ws == [] then unit else op(Fold(op, unit, ws[..|ws| - 1]), ws[|ws| - 1])
  }

  /** A machine word, as the set of the places of its one bits. */
  type Bits = set<nat>

  /** Bitwise exclusive or: the bits set in one word and not in the other. */
  function BitXor(a: Bits, b: Bits): Bits {
    (a - b) + (b - a)
  }

  /** The accumulator loop `acc ^= h.finish()`. */
  function Xor(ws: seq<Bits>): Bits {
    Fold(BitXor, {}, ws)
  }

  /** The accumulator after one more word. */
  lemma XorStep(ws: seq<Bits>, n: nat)
    requires n < |ws|
    ensures Xor(ws[..n + 1]) == BitXor(Xor(ws[..n]), ws[n])
  {
    assert ws[..n + 1][..n] == ws[..n];
  }

  /** How many of the words have the bit set. */
  function HowMany(ws: seq<Bits>, bit: nat): nat {
    if ws == [] then 0 else HowMany(ws[..|ws| - 1], bit) + if bit in ws[|ws| - 1] then 1 else 0
  }

  /** A bit of the folded word is set exactly when an odd number of the words have it set. */
  lemma {:induction false} XorIsParity(ws: seq<Bits>, bit: nat)
    ensures bit in Xor(ws) <==> HowMany(ws, bit) % 2 == 1
  {
    if ws == [] {
    } else {
      XorIsParity(ws[..|ws| - 1], bit);
    }
  }

  function Drop<T>(s: seq<T>, at: nat): seq<T>
    requires at < |s|
  {
    s[..at] + s[at + 1..]
  }

  ghost predicate LeftCommutative<W(!new)>(op: (W, W) -> W) {
    forall a, b, c :: op(op(a, b), c) == op(op(a, c), b)
  }

  lemma {:induction false} FoldWithout<W(!new)>(op: (W, W) -> W, unit: W, ws: seq<W>, at: nat)
    requires LeftCommutative(op) && at < |ws|
    ensures Fold(op, unit, ws) == op(Fold(op, unit, Drop(ws, at)), ws[at])
  {
    var n := |ws| - 1;
    if at == n {
      assert Drop(ws, at) == ws[..n];
    } else {
      FoldWithout(op, unit, ws[..n], at);
      assert Drop(ws, at)[..n - 1] == Drop(ws[..n], at);
      assert Drop(ws, at)[n - 1] == ws[n];
      var rest := Fold(op, unit, Drop(ws[..n], at));
      assert op(op(rest, ws[at]), ws[n]) == op(op(rest, ws[n]), ws[at]);
    }
  }

  lemma {:induction false} FoldPermuted<W(!new)>(op: (W, W) -> W, unit: W, xs: seq<W>, ys: seq<W>, m: seq<nat>)
    requires LeftCommutative(op)
    requires |xs| == |ys| == |m| && forall i :: 0 <= i < |m| ==> m[i] < |ys| && xs[i] == ys[m[i]]
    requires forall i, j :: 0 <= i < j < |m| ==> m[i] != m[j]
    ensures Fold(op, unit, xs) == Fold(op, unit, ys)
  {
    if xs == [] {
    } else {
      var n := |xs| - 1;
      var at := m[n];
      var m' := seq(n, i requires 0 <= i < n => if m[i] < at then m[i] else m[i] - 1);
      FoldPermuted(op, unit, xs[..n], Drop(ys, at), m');
      FoldWithout(op, unit, ys, at);
    }
  }

  /** The XOR fold gives the same word for every enumeration order: `m[i]` is the new place of word `i`. */
  lemma XorPermuted(xs: seq<Bits>, ys: seq<Bits>, m: seq<nat>)
    requires |xs| == |ys| == |m| && forall i :: 0 <= i < |m| ==> m[i] < |ys| && xs[i] == ys[m[i]]
    requires forall i, j :: 0 <= i < j < |m| ==> m[i] != m[j]
    ensures Xor(xs) == Xor(ys)
  {
    var op := BitXor;
    forall a, b, c: Bits ensures op(op(a, b), c) == op(op(a, c), b) {
      XorReorders(a, b, c);
    }
    FoldPermuted(op, {}, xs, ys, m);
  }

  lemma XorReorders(a: Bits, b: Bits, c: Bits)
    ensures BitXor(BitXor(a, b), c) == BitXor(BitXor(a, c), b)
  {}
}
