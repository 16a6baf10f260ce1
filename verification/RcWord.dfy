/** The 64-bit `rc_` word of a channel slot: 32 marks, 24-bit read generation, epoch byte.

    The ring's step system keeps the three regions as a record; these lemmas show that
    the bit operations of the code act on them as on that record, and that the
    generation keeps a word from coming back to a value loaded earlier. */
module RcWord {
  import opened BitWord
  import opened RingWords
  import Ring = ChannelRing

  type Rc = w: Word | |w| == 64 witness Fill(64, false)

  const RC_MASK: Rc := Fill(32, true) + Fill(32, false)
  const EP_MASK: Rc := Fill(56, true) + Fill(8, false)
  const IC_MASK: Rc := Fill(32, true) + Fill(24, false) + Fill(8, true)

  /** `wrapping_add(CH_IC_INCR)` adds 2^32. */
  function IncRc(rc: Rc): Rc {
    Or(And(rc, IC_MASK), And(AddBit(rc, 32), Not(IC_MASK)))
  }

  function IncMask(rc: Rc): Rc {
    And(IncRc(rc), Not(RC_MASK))
  }

  /** What a writer's claim stores, having loaded `rc`, the epoch word and the receivers. */
  function ClaimWord(rc: Rc, epoch: Rc, cc: Rc): Rc {
    Or(IncMask(Or(epoch, And(rc, EP_MASK))), cc)
  }

  /** What a reader's release, or dropping a stale mark, stores. */
  function DropWord(rc: Rc, bit: Rc): Rc {
    And(IncRc(rc), Not(bit))
  }

  function Marks(rc: Rc): Word { rc[..32] }

  function Generation(rc: Rc): (g: nat)
    ensures g < GENERATIONS
  {
    GenerationBound();
    Number(rc[32..56])
  }

  function Epoch(rc: Rc): Word { rc[56..] }

  lemma GenerationBound()
    ensures Pow2(24) == GENERATIONS
  {
    assert Pow2(8) == 0x100 && Pow2(16) == 0x1_0000;
  }

  /** A compare-and-swap on the word compares the three regions. */
  lemma RegionsDetermine(a: Rc, b: Rc)
    ensures a == b <==> Epoch(a) == Epoch(b) && Generation(a) == Generation(b) && Marks(a) == Marks(b)
  {
    if Generation(a) == Generation(b) { NumberInjective(a[32..56], b[32..56]); }
    assert a == a[..32] + a[32..56] + a[56..] && b == b[..32] + b[32..56] + b[56..];
  }

  /** `inc_rc` steps the generation field with wrap-around and touches nothing else. */
  lemma IncRegions(rc: Rc)
    ensures Marks(IncRc(rc)) == Marks(rc) && Epoch(IncRc(rc)) == Epoch(rc)
    ensures IncRc(rc)[32..56] == Next(rc[32..56])
  {
    NextPrefix(rc[32..], 24);
    assert rc[32..][..24] == rc[32..56];
    assert AddBit(rc, 32)[32..56] == Next(rc[32..])[..24];
  }

  lemma IncGeneration(rc: Rc)
    ensures Generation(IncRc(rc)) == (Generation(rc) + 1) % GENERATIONS
  {
    IncRegions(rc);
    GenerationBound();
    NextAddsOne(rc[32..56]);
  }

  predicate InRegion(w: Rc, lo: nat, hi: nat) {
    forall i | 0 <= i < 64 && w[i] :: lo <= i < hi
  }

  /** A claim replaces the marks by the connected receivers, sets the epoch and steps the
      generation. */
  lemma ClaimRegions(rc: Rc, epoch: Rc, cc: Rc)
    requires InRegion(epoch, 56, 64) && InRegion(cc, 0, 32)
    ensures Epoch(ClaimWord(rc, epoch, cc)) == Epoch(epoch)
    ensures Generation(ClaimWord(rc, epoch, cc)) == (Generation(rc) + 1) % GENERATIONS
    ensures Marks(ClaimWord(rc, epoch, cc)) == Marks(cc)
  {
    var w := Or(epoch, And(rc, EP_MASK));
    assert w[32..56] == rc[32..56];
    assert w[56..] == epoch[56..];
    IncRegions(w);
    IncGeneration(w);
    var inc, r := IncRc(w), ClaimWord(rc, epoch, cc);
    assert forall i | 32 <= i < 64 :: r[i] == inc[i];
    assert r[32..56] == inc[32..56] && r[56..] == inc[56..];
  }

  /** Dropping marks removes just those, keeps the epoch and steps the generation. */
  lemma DropRegions(rc: Rc, bit: Rc)
    requires InRegion(bit, 0, 32)
    ensures Epoch(DropWord(rc, bit)) == Epoch(rc)
    ensures Generation(DropWord(rc, bit)) == (Generation(rc) + 1) % GENERATIONS
    ensures Ones(Marks(DropWord(rc, bit))) == Ones(Marks(rc)) - Ones(bit)
  {
    IncRegions(rc);
    IncGeneration(rc);
    var inc, r := IncRc(rc), DropWord(rc, bit);
    assert forall i | 32 <= i < 64 :: r[i] == inc[i];
    assert r[32..56] == inc[32..56] && r[56..] == inc[56..];
    assert forall i | 0 <= i < 32 :: r[i] == (Marks(inc)[i] && !bit[i]);
  }

  /** One update of the word, by a claim, a read release or a dropped mark. */
  ghost predicate Updates(a: Rc, b: Rc) {
    || (exists epoch: Rc, cc: Rc :: InRegion(epoch, 56, 64) && InRegion(cc, 0, 32) && b == ClaimWord(a, epoch, cc))
    || (exists bit: Rc :: InRegion(bit, 0, 32) && b == DropWord(a, bit))
  }

  ghost predicate UpdatedAt(ws: seq<Rc>, i: nat)
    requires 0 < i < |ws|
  {
    Updates(ws[i - 1], ws[i])
  }

  lemma UpdateCounts(a: Rc, b: Rc)
    requires Updates(a, b)
    ensures Generation(b) == (Generation(a) + 1) % GENERATIONS
  {
    if epoch: Rc, cc: Rc :| InRegion(epoch, 56, 64) && InRegion(cc, 0, 32) && b == ClaimWord(a, epoch, cc) {
      ClaimRegions(a, epoch, cc);
    } else {
      var bit: Rc :| InRegion(bit, 0, 32) && b == DropWord(a, bit);
      DropRegions(a, bit);
    }
  }

  lemma CountsOn(n: nat)
    ensures (n % GENERATIONS + 1) % GENERATIONS == (n + 1) % GENERATIONS
  {
  }

  /** The generation is the number of updates modulo 2^24, whatever the updates were. */
  lemma {:induction false} GenerationCounts(ws: seq<Rc>, k: nat)
    requires k < |ws| && forall i | 0 < i < |ws| :: UpdatedAt(ws, i)
    ensures Generation(ws[k]) == (Generation(ws[0]) + k) % GENERATIONS
  {
    if k > 0 {
      GenerationCounts(ws, k - 1);
      assert UpdatedAt(ws, k);
      UpdateCounts(ws[k - 1], ws[k]);
      CountsOn(Generation(ws[0]) + k - 1);
    }
  }

  /** `rc_` never comes back to a value within 2^24 updates; at 2^24 its generation does. */
  lemma NeverRepeats(ws: seq<Rc>, j: nat, k: nat)
    requires j < k < |ws| && forall i | 0 < i < |ws| :: UpdatedAt(ws, i)
    ensures Generation(ws[j]) == Generation(ws[k]) <==> (k - j) % GENERATIONS == 0
    ensures k - j < GENERATIONS ==> ws[j] != ws[k]
  {
    GenerationCounts(ws, j);
    GenerationCounts(ws, k);
    SameRemainder(Generation(ws[0]) + j, k - j);
  }

  lemma SameRemainder(n: nat, d: nat)
    ensures n % GENERATIONS == (n + d) % GENERATIONS <==> d % GENERATIONS == 0
  {
  }

  // The word and the record -----------------------------------------------------------------

  /** The word `w` holds what the ring's step system keeps as the record `rc`. */
  predicate Holds(w: Rc, rc: Ring.Rc) {
    rc.epoch == Number(Epoch(w)) && rc.gen % GENERATIONS == Generation(w) && rc.marks == Ones(Marks(w))
  }

  /** A CAS that compares words finds them equal exactly when the step system does. */
  lemma WordsAreRecords(a: Rc, b: Rc, ra: Ring.Rc, rb: Ring.Rc)
    requires Holds(a, ra) && Holds(b, rb)
    ensures a == b <==> Ring.SameRc(ra, rb)
  {
    RegionsDetermine(a, b);
    if Ring.SameRc(ra, rb) {
      NumberInjective(Epoch(a), Epoch(b));
      OnesInjective(Marks(a), Marks(b));
    }
  }

  /** The claim's word holds the claim's record. */
  lemma ClaimHolds(w: Rc, rc: Ring.Rc, epoch: Rc, cc: Rc)
    requires Holds(w, rc) && InRegion(epoch, 56, 64) && InRegion(cc, 0, 32)
    ensures Holds(ClaimWord(w, epoch, cc), Ring.Rc(Number(Epoch(epoch)), rc.gen + 1, Ones(Marks(cc))))
  {
    ClaimRegions(w, epoch, cc);
    CountsOn(rc.gen);
  }

  /** The word of a release or a dropped mark holds its record. */
  lemma DropHolds(w: Rc, rc: Ring.Rc, bit: Rc)
    requires Holds(w, rc) && InRegion(bit, 0, 32)
    ensures Holds(DropWord(w, bit), Ring.Rc(rc.epoch, rc.gen + 1, rc.marks - Ones(bit)))
  {
    DropRegions(w, bit);
    CountsOn(rc.gen);
  }
}
