/** Machine words as bit sequences, lowest bit first, with the operations the code uses:
    the bitwise ones, adding and subtracting one with wrap-around, and the mask tricks
    built from them. */
module BitWord {

  type Word = seq<bool>

  function And(a: Word, b: Word): (r: Word)
    requires |a| == |b|
    ensures |r| == |a|
  {
    seq(|a|, i requires 0 <= i < |a| => a[i] && b[i])
  }

  function Or(a: Word, b: Word): (r: Word)
    requires |a| == |b|
    ensures |r| == |a|
  {
    seq(|a|, i requires 0 <= i < |a| => a[i] || b[i])
  }

  function Xor(a: Word, b: Word): (r: Word)
    requires |a| == |b|
    ensures |r| == |a|
  {
    seq(|a|, i requires 0 <= i < |a| => a[i] != b[i])
  }

  function Not(a: Word): (r: Word)
    ensures |r| == |a|
  {
    seq(|a|, i requires 0 <= i < |a| => !a[i])
  }

  function Fill(n: nat, bit: bool): (r: Word)
    ensures |r| == n
  {
    seq(n, _ => bit)
  }

  /** `wrapping_add(1)`. */
  function Next(a: Word): (r: Word)
    ensures |r| == |a|
  {
    if a == [] then [] else if a[0] then [false] + Next(a[1..]) else [true] + a[1..]
  }

  /** `wrapping_sub(1)`. */
  function Prev(a: Word): (r: Word)
    ensures |r| == |a|
  {
    if a == [] then [] else if a[0] then [false] + a[1..] else [true] + Prev(a[1..])
  }

  /** `wrapping_neg`: two's complement. */
  function Neg(a: Word): (r: Word)
    ensures |r| == |a|
  {
    Next(Not(a))
  }

  /** Adding 2^k with wrap-around. */
  function AddBit(a: Word, k: nat): (r: Word)
    requires k <= |a|
    ensures |r| == |a|
  {
    a[..k] + Next(a[k..])
  }

  /** The positions of the set bits. */
  function Ones(a: Word): (r: set<nat>)
  {
    set i: nat | i < |a| && a[i]
  }

  /** The word with one bit set. */
  function OneBit(n: nat, i: nat): (r: Word)
    requires i < n
    ensures |r| == n && Ones(r) == {i}
  {
    seq(n, j => i == j)
  }

  // The number a word stands for ------------------------------------------------------------

  function Pow2(n: nat): (r: nat)
    ensures r > 0
  {
    if n == 0 then 1 else 2 * Pow2(n - 1)
  }

  function Number(a: Word): (r: nat)
    ensures r < Pow2(|a|)
  {
    if a == [] then 0 else (if a[0] then 1 else 0) + 2 * Number(a[1..])
  }

  lemma {:induction false} NumberInjective(a: Word, b: Word)
    requires |a| == |b| && Number(a) == Number(b)
    ensures a == b
  {
    if a != [] {
      NumberInjective(a[1..], b[1..]);
      assert a == [a[0]] + a[1..] && b == [b[0]] + b[1..];
    }
  }

  lemma OnesInjective(a: Word, b: Word)
    requires |a| == |b| && Ones(a) == Ones(b)
    ensures a == b
  {
    forall i | 0 <= i < |a| ensures a[i] == b[i] { assert a[i] <==> i in Ones(a); assert b[i] <==> i in Ones(b); }
  }

  lemma {:induction false} NextAddsOne(a: Word)
    ensures Number(Next(a)) == if Number(a) + 1 == Pow2(|a|) then 0 else Number(a) + 1
  {
    if a != [] { NextAddsOne(a[1..]); }
  }

  lemma {:induction false} PrevNext(a: Word)
    ensures Next(Prev(a)) == a
  {
    if a != [] {
      PrevNext(a[1..]);
      assert a == [a[0]] + a[1..];
    }
  }

  lemma {:induction false} PrevSubtractsOne(a: Word)
    ensures Number(Prev(a)) == if Number(a) == 0 then Pow2(|a|) - 1 else Number(a) - 1
  {
    PrevNext(a);
    NextAddsOne(Prev(a));
  }

  /** `AddBit` is addition modulo the width of the word. */
  lemma {:induction false} AddBitAdds(a: Word, k: nat)
    requires k < |a|
    ensures var s := Number(a) + Pow2(k); Number(AddBit(a, k)) == if s >= Pow2(|a|) then s - Pow2(|a|) else s
  {
    if k == 0 {
      assert AddBit(a, 0) == Next(a);
      NextAddsOne(a);
    } else {
      AddBitAdds(a[1..], k - 1);
      assert AddBit(a, k) == [a[0]] + AddBit(a[1..], k - 1);
    }
  }

  // Where the carry goes ----------------------------------------------------------------------

  /** `z` is the lowest bit of `a` that equals `bit`; `|a|` when there is none. */
  predicate LowestIs(a: Word, bit: bool, z: nat) {
    z <= |a| && (z < |a| ==> a[z] == bit) && forall i | 0 <= i < z :: a[i] != bit
  }

  /** Adding one clears the ones below the lowest zero, sets that zero and keeps the rest. */
  lemma {:induction false} NextFlips(a: Word, z: nat)
    requires LowestIs(a, false, z)
    ensures forall i | 0 <= i < |a| :: Next(a)[i] == if i < z then false else if i == z then true else a[i]
  {
    if a != [] && a[0] {
      NextFlips(a[1..], z - 1);
      forall i | 0 <= i < |a|
        ensures Next(a)[i] == if i < z then false else if i == z then true else a[i]
      {
        if i > 0 { assert Next(a)[i] == Next(a[1..])[i - 1]; }
      }
    }
  }

  /** Subtracting one sets the zeros below the lowest one, clears that one and keeps the rest. */
  lemma {:induction false} PrevFlips(a: Word, z: nat)
    requires LowestIs(a, true, z)
    ensures forall i | 0 <= i < |a| :: Prev(a)[i] == if i < z then true else if i == z then false else a[i]
  {
    if a != [] && !a[0] {
      PrevFlips(a[1..], z - 1);
      forall i | 0 <= i < |a|
        ensures Prev(a)[i] == if i < z then true else if i == z then false else a[i]
      {
        if i > 0 { assert Prev(a)[i] == Prev(a[1..])[i - 1]; }
      }
    }
  }

  /** The position of the lowest bit that equals `bit` (`trailing_zeros` for `true`). */
  function Lowest(a: Word, bit: bool): (z: nat)
    ensures LowestIs(a, bit, z)
  {
    if a == [] || a[0] == bit then 0 else 1 + Lowest(a[1..], bit)
  }

  /** Adding one to the low bits of a word does not look at the bits above them. */
  lemma {:induction false} NextPrefix(a: Word, n: nat)
    requires n <= |a|
    ensures Next(a)[..n] == Next(a[..n])
  {
    if n > 0 && a[0] {
      NextPrefix(a[1..], n - 1);
      assert a[..n][1..] == a[1..][..n - 1];
    }
  }

  /** `m & -m` isolates the lowest set bit. */
  lemma IsolatesLowest(m: Word)
    requires Ones(m) != {}
    ensures var z := Lowest(m, true); z < |m| && And(m, Neg(m)) == OneBit(|m|, z)
  {
    var z := Lowest(m, true);
    var i :| i in Ones(m);
    assert m[i];
    NextFlips(Not(m), z);
    assert forall i | 0 <= i < |m| :: And(m, Neg(m))[i] == (i == z);
  }

  /** `m & (m - 1)` removes it. */
  lemma RemovesLowest(m: Word)
    ensures Ones(And(m, Prev(m))) == Ones(m) - {Lowest(m, true)}
  {
    var z := Lowest(m, true);
    PrevFlips(m, z);
    assert forall i | 0 <= i < |m| :: And(m, Prev(m))[i] == (m[i] && i != z);
  }

  /** `c | (c + 1)` sets the lowest clear bit, and changes nothing when there is none. */
  lemma {:induction false} SetsLowestClear(c: Word)
    ensures var z := Lowest(c, false); Or(c, Next(c)) == if z < |c| then c[z := true] else c
  {
    if c != [] {
      var d, n := c[1..], Next(c);
      OrRest(c, n);
      if c[0] {
        assert n[1..] == Next(d);
        SetsLowestClear(d);
        var z := Lowest(d, false);
        if z < |d| { assert [true] + d[z := true] == c[z + 1 := true]; } else { assert [true] + d == c; }
      } else {
        assert n[1..] == d;
        OrSame(d);
        assert [true] + d == c[0 := true];
      }
    }
  }

  lemma OrSame(a: Word)
    ensures Or(a, a) == a
  {
  }

  lemma OrRest(a: Word, b: Word)
    requires |a| == |b| > 0
    ensures Or(a, b) == [a[0] || b[0]] + Or(a[1..], b[1..])
  {
  }

  /** The bit a connecting receiver finds it set: `next ^ curr`. */
  lemma NewBit(c: Word)
    requires Lowest(c, false) < |c|
    ensures Xor(Or(c, Next(c)), c) == OneBit(|c|, Lowest(c, false))
  {
    SetsLowestClear(c);
  }

  // Counting ------------------------------------------------------------------------------

  /** `count_ones`. */
  function CountOnes(a: Word): nat {
    if a == [] then 0 else CountOnes(a[..|a| - 1]) + if a[|a| - 1] then 1 else 0
  }

  lemma {:induction false} CountIsSize(a: Word)
    ensures CountOnes(a) == |Ones(a)|
  {
    if a != [] {
      var n := |a| - 1;
      CountIsSize(a[..n]);
      assert Ones(a) == Ones(a[..n]) + if a[n] then {n} else {};
    }
  }
}
