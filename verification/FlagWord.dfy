/** The 64-bit commit flag `f_ct_` of a channel slot, against the 32-bit cursors.

    Initially 0, `!pos` once `pos` is committed, and the next lap's index once its last
    reader is done. The free flag is computed in 64 bits and compared with a cursor that
    wraps at 32, so the last lap before the wrap is where the encoding gives out. */
module FlagWord {
  import opened RingWords

  type Cursor = c: nat | c < U32

  /** The flag the last reader stores: `cur.wrapping_add(1) as u64 + 255`. */
  function ReaderFree(c: Cursor): nat {
    (c + 1) % U32 + (RING - 1)
  }

  /** The flag dropping the last mark stores: `u64::from(pos) + 256`. */
  function DropFree(c: Cursor): nat {
    Released(c)
  }

  /** The cursor at which a writer next comes to the slot. */
  function NextLap(c: Cursor): Cursor {
    (c + RING) % U32
  }

  /** A writer's test on an unmarked slot. */
  predicate Claimable(flag: nat, ct: Cursor) {
    flag == ct || flag == 0
  }

  /** The test in `release_stale`: the upper half is all ones. */
  predicate IsCommitted(flag: nat) {
    flag / U32 == U32 - 1
  }

  /** `!cur_fl as u32`. */
  function CommittedAt(flag: nat): Cursor
    requires flag < U64
  {
    (U64 - 1 - flag) % U32
  }

  /** `release_stale` recognises exactly the committed flags and recovers the position. */
  lemma CommitDecodes(flag: nat)
    requires flag < U64
    ensures IsCommitted(flag) <==> flag == Committed(CommittedAt(flag))
    ensures forall c: Cursor :: IsCommitted(Committed(c)) && CommittedAt(Committed(c)) == c
  {
    assert flag == U32 * (flag / U32) + flag % U32;
  }

  /** The three kinds of flag are never confused, and each tells its position. */
  lemma FlagsDistinct(p: Cursor, q: Cursor)
    ensures Committed(p) != 0 && ReaderFree(p) != 0 && DropFree(p) != 0
    ensures !IsCommitted(ReaderFree(p)) && !IsCommitted(DropFree(p)) && !IsCommitted(0)
    ensures Committed(p) != ReaderFree(q) && Committed(p) != DropFree(q)
    ensures Committed(p) == Committed(q) <==> p == q
    ensures ReaderFree(p) == ReaderFree(q) <==> p == q
    ensures DropFree(p) == DropFree(q) <==> p == q
  {
  }

  /** A committed slot is claimable by nobody. */
  lemma CommittedIsHeld(p: Cursor, ct: Cursor)
    ensures !Claimable(Committed(p), ct)
  {
    assert Committed(p) > ct;
  }

  /** A slot freed by its last reader is claimable by exactly its next claimant if and
      only if the position is not in the last lap before the wrap (or is its very last). */
  lemma ReaderFreeExact(p: Cursor)
    ensures (forall ct: Cursor :: Claimable(ReaderFree(p), ct) <==> ct == NextLap(p)) <==>
        p < U32 - RING || p == U32 - 1
  {
    if p < U32 - RING || p == U32 - 1 {
      assert ReaderFree(p) == NextLap(p);
    } else {
      assert !Claimable(ReaderFree(p), NextLap(p));
    }
  }

  /** The same for a slot freed by dropping its last mark, without the exception. */
  lemma DropFreeExact(p: Cursor)
    ensures (forall ct: Cursor :: Claimable(DropFree(p), ct) <==> ct == NextLap(p)) <==> p < U32 - RING
  {
    if p < U32 - RING {
      assert DropFree(p) == NextLap(p);
    } else {
      assert !Claimable(DropFree(p), NextLap(p));
    }
  }

  /** Below the bound both ways of freeing a slot store the same flag. */
  lemma FreeFlagsAgree(p: Cursor)
    ensures ReaderFree(p) == DropFree(p) <==> p != U32 - 1
  {
  }

  /** At the bound: the slot of position 2^32 - 256, once read, can be claimed for no cursor. */
  lemma StuckAtWrap(ct: Cursor)
    ensures !Claimable(ReaderFree(U32 - RING), ct) && !Claimable(DropFree(U32 - RING), ct)
  {
  }
}
