/** The bit-peeling loops over the 32 receiver marks: `live_marks`, and the loop of
    `commit_multi` that drops what `live_marks` leaves out. */
module ReceiverMarks {
  import opened BitWord
  import opened RingWords

  type Mask = w: Word | |w| == 32 witness Fill(32, false)
  type Cursor = c: nat | c < U32

  /** The liveness table of a ring: where the current owner of each bit started. */
  type Table = t: seq<Cursor> | |t| == 32 witness seq(32, _ => 0)

  /** The marks whose owner started at or before `pos`; all of them if there is no table. */
  method LiveMarks(table: Table, present: bool, bits: Mask, pos: Cursor) returns (live: Mask)
    ensures !present ==> live == bits
    ensures present ==> Ones(live) == set i | i in Ones(bits) && AtOrAfter(pos, table[i])
  {
    if !present { return bits; }
    live := Fill(32, false);
    var m: Mask := bits;
    ghost var done := {};
    while m != Fill(32, false)
      invariant done !! Ones(m) && done + Ones(m) == Ones(bits)
      invariant Ones(live) == set i | i in done && AtOrAfter(pos, table[i])
      decreases Ones(m)
    {
      NonZero(m);
      IsolatesLowest(m);
      RemovesLowest(m);
      var z := Lowest(m, true);
      var bit := And(m, Neg(m));
      m := And(m, Prev(m));
      done := done + {z};
      var slot := Lowest(bit, true);
      assert slot == z by { assert bit[z] && Ones(bit) == {z}; if slot < 32 { assert slot in Ones(bit); } }
      var since := table[slot];
      if AtOrAfter(pos, since) {
        OrAdds(live, bit);
        live := Or(live, bit);
      }
    }
    ZeroIsEmpty();
  }

  lemma NonZero(m: Mask)
    requires m != Fill(32, false)
    ensures Ones(m) != {}
  {
    assert (forall i | 0 <= i < 32 :: !m[i]) <==> m == Fill(32, false);
    var i :| 0 <= i < 32 && m[i];
    assert i in Ones(m);
  }

  lemma ZeroIsEmpty()
    ensures Ones(Fill(32, false)) == {}
  {
  }

  lemma OrAdds(a: Mask, b: Mask)
    ensures Ones(Or(a, b)) == Ones(a) + Ones(b)
  {
  }

  /** The marks `commit_multi` drops from a slot it commits for `pos`, in the order it
      drops them: the lowest bit first, each once, exactly those that are not live. */
  method StaleMarks(table: Table, marks: Mask, pos: Cursor) returns (drops: seq<nat>)
    ensures forall i :: i in drops <==> i in Ones(marks) && !AtOrAfter(pos, table[i])
    ensures forall i, j | 0 <= i < j < |drops| :: drops[i] < drops[j]
  {
    var live := LiveMarks(table, true, marks, pos);
    var stale: Mask := And(marks, Not(live));
    ghost var all := Ones(stale);
    assert all == Ones(marks) - Ones(live);
    drops := [];
    while stale != Fill(32, false)
      invariant forall i :: i in all <==> i in drops || i in Ones(stale)
      invariant forall i, j | 0 <= i < |drops| && j in Ones(stale) :: drops[i] < j
      invariant forall i, j | 0 <= i < j < |drops| :: drops[i] < drops[j]
      decreases Ones(stale)
    {
      NonZero(stale);
      IsolatesLowest(stale);
      RemovesLowest(stale);
      var z := Lowest(stale, true);
      assert z in Ones(stale) by { assert stale[z]; }
      stale := And(stale, Prev(stale));
      drops := drops + [z];
    }
    ZeroIsEmpty();
  }
}
