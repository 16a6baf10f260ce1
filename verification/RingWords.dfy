/** Sizes and machine words shared by the rings of thoth-ipc.

    Cursors, flags and generations are modelled as unbounded naturals; where the code
    truncates them to u8, u32 or a bit field, the steps compare the truncated values. */
module RingWords {

  /** Elements per ring; a cursor addresses its slot modulo this (`index_of`). */
  const RING: nat := 256
  const U32: nat := 0x1_0000_0000
  const U64: nat := 0x1_0000_0000_0000_0000
  /** Bound on positions in a run: the i32 comparisons of the code need it. */
  const POSITIONS: nat := 0x8000_0000
  /** Values of the 24-bit read-generation field of a channel slot's `rc_`. */
  const GENERATIONS: nat := 0x100_0000

  type Byte = n: nat | n < 256
  type Bytes = seq<Byte>

  /** One ring element: the `msg_t` header and its payload, copied in separate accesses. */
  datatype Fragment = Fragment(header: Bytes, payload: Bytes)

  /** `cursor as u8`. */
  function Index(p: int): (i: nat)
    ensures i < RING
  {
    p % RING
  }

  /** Two positions less than a lap apart that share a slot are the same position. */
  lemma SameSlot(p: int, q: int)
    requires Index(p) == Index(q)
    requires p < q + RING && q < p + RING
    ensures p == q
  {
  }

  /** `!(pos as u64)`: the flag of a slot committed for `p`. */
  function Committed(p: nat): (f: nat)
    requires p < U32
    ensures U64 - U32 <= f < U64
  {
    U64 - 1 - p
  }

  /** The flag of a slot whose last reader is done with `p`: the next lap's index. */
  function Released(p: nat): (f: nat)
  {
    p + RING
  }

  /** Two u32 cursors that are less than one wrap apart and agree modulo 2^32 are equal. */
  lemma SameU32(a: nat, b: nat)
    requires b <= a < b + U32
    requires a % U32 == b % U32
    ensures a == b
  {
  }

  /** Fewer than 2^24 updates apart, equal truncated generations are equal. */
  lemma SameGeneration(a: nat, b: nat)
    requires b <= a < b + GENERATIONS
    requires a % GENERATIONS == b % GENERATIONS
    ensures a == b
  {
  }

  /** What the flag of a slot claimed for `q` reads until its commit. */
  function FreeFlag(q: nat): nat {
    if q < RING then 0 else q
  }

  /** `pos.wrapping_sub(since) as i32 >= 0`. */
  predicate AtOrAfter(pos: int, since: nat) {
    (pos - since) % U32 < POSITIONS
  }

  /** Within 2^31 positions that is the order of positions, truncated or not. */
  lemma AtOrAfterIsOrder(p: int, q: nat)
    requires p - q < POSITIONS && q - p <= POSITIONS
    ensures AtOrAfter(p, q) <==> q <= p
    ensures AtOrAfter(p % U32, q % U32) <==> q <= p
  {
    assert (p % U32 - q % U32) % U32 == (p - q) % U32;
  }
}
