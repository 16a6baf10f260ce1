/** Large-message chunk storage: the id pool with its in-place free list, and the addresses
    of chunks in their segment. */
module ChunkPool {

  /** Slots per chunk size. */
  const MAX_COUNT: nat := 32
  const CHUNK_ALIGN: nat := 1024
  /** `sizeof(ChunkInfo)`. */
  const INFO_SIZE: nat := 40

  type U8 = n: nat | n < 256

  type Links = q: seq<U8> | |q| == MAX_COUNT witness seq(MAX_COUNT, _ => 0)

  /** The value of a pool: the links, the head of the free list, the prepared byte. */
  datatype Pool = Pool(next: Links, cursor: U8, prepared: U8)

  /** `id_pool::invalid()`: the whole structure compares equal to a zeroed one. */
  predicate Zeroed(p: Pool) {
    p.prepared == 0 && p.cursor == 0 && forall i | 0 <= i < MAX_COUNT :: p.next[i] == 0
  }

  /** The free list read off the links is `free`: it starts at the cursor, follows the
      links, visits every id at most once, and ends at a value that is no id. */
  ghost predicate IsFreeList(p: Pool, free: seq<nat>) {
    && (forall k | 0 <= k < |free| :: free[k] < MAX_COUNT)
    && (forall j, k | 0 <= j < k < |free| :: free[j] != free[k])
    && (if free == [] then p.cursor >= MAX_COUNT else p.cursor == free[0])
    && (forall k | 0 <= k < |free| :: LinkOk(p, free, k))
  }

  ghost predicate LinkOk(p: Pool, free: seq<nat>, k: nat)
    requires k < |free| && free[k] < MAX_COUNT
  {
    if k + 1 < |free| then p.next[free[k]] == free[k + 1] else p.next[free[k]] >= MAX_COUNT
  }

  /** Ids 0 to 31 in order. */
  function AllIds(): (ids: seq<nat>)
    ensures |ids| == MAX_COUNT && forall k | 0 <= k < MAX_COUNT :: ids[k] == k
  {
    seq(MAX_COUNT, k => k)
  }

  /** What `prepare` makes of a pool. */
  function Prepared(p: Pool): Pool {
    if Zeroed(p) then Pool(seq(MAX_COUNT, i requires 0 <= i < MAX_COUNT => i + 1), 0, 1) else p.(prepared := 1)
  }

  /** What `acquire` makes of a pool, and the id it returns (-1 if there is none). */
  function Acquired(p: Pool): (Pool, int) {
    if p.cursor >= MAX_COUNT then (p, -1) else (p.(cursor := p.next[p.cursor]), p.cursor as int)
  }

  /** What `release` makes of a pool. */
  function Released(p: Pool, id: int): Pool {
    if 0 <= id < MAX_COUNT then p.(next := p.next[id := p.cursor], cursor := id) else p
  }

  /** The pool in shared memory, changed in place. */
  class ChunkInfo {
    const next: array<U8>
    var cursor: U8
    var prepared: U8

    ghost predicate Valid()
    {
      next.Length == MAX_COUNT
    }

    function View(): Pool
      requires Valid()
      reads this, next
    {
      Pool(next[..], cursor, prepared)
    }

    /** A fresh segment is zero-filled. */
    constructor ()
      ensures Valid() && fresh(next) && Zeroed(View())
    {
      next := new U8[MAX_COUNT](_ => 0);
      cursor := 0;
      prepared := 0;
    }

    /** A zeroed pool gets its free list built; any other is left alone. */
    method Prepare()
      requires Valid()
      modifies this, next
      ensures View() == Prepared(old(View()))
    {
      var blank := prepared == 0 && cursor == 0;
      for i := 0 to MAX_COUNT
        invariant blank == (prepared == 0 && cursor == 0 && forall k | 0 <= k < i :: next[k] == 0)
        invariant View() == old(View())
      {
        if next[i] != 0 { blank := false; }
      }
      if blank {
        for i := 0 to MAX_COUNT
          invariant cursor == 0
          invariant forall k | 0 <= k < i :: next[k] == k + 1
        {
          next[i] := i + 1;
        }
      }
      prepared := 1;
      assert View().next == Prepared(old(View())).next;
    }

    method Acquire() returns (id: int)
      requires Valid()
      modifies this
      ensures (View(), id) == Acquired(old(View()))
    {
      if cursor >= MAX_COUNT { return -1; }
      id := cursor;
      cursor := next[cursor];
    }

    method Release(id: int)
      requires Valid()
      modifies this, next
      ensures View() == Released(old(View()), id)
    {
      if id < 0 || id >= MAX_COUNT { return; }
      next[id] := cursor;
      cursor := id;
      assert View().next == old(View()).next[id := old(View()).cursor];
    }
  }

  // The free list under the three operations --------------------------------------------------

  lemma PrepareBuilds(p: Pool)
    requires Zeroed(p)
    ensures IsFreeList(Prepared(p), AllIds())
  {
    forall k | 0 <= k < MAX_COUNT ensures LinkOk(Prepared(p), AllIds(), k) {}
  }

  lemma PrepareAgain(p: Pool, free: seq<nat>)
    requires p.prepared != 0 && IsFreeList(p, free)
    ensures IsFreeList(Prepared(p), free)
  {
    forall k | 0 <= k < |free| ensures LinkOk(Prepared(p), free, k) { assert LinkOk(p, free, k); }
  }

  /** `acquire` takes the head of the list, and fails exactly when the list is empty. */
  lemma AcquirePops(p: Pool, free: seq<nat>)
    requires IsFreeList(p, free)
    ensures Acquired(p).1 == if free == [] then -1 else free[0]
    ensures free != [] ==> IsFreeList(Acquired(p).0, free[1..])
    ensures free == [] ==> Acquired(p).0 == p
  {
    if free != [] {
      var p' := Acquired(p).0;
      assert LinkOk(p, free, 0);
      forall k | 0 <= k < |free[1..]| ensures LinkOk(p', free[1..], k) { assert LinkOk(p, free, k + 1); }
    }
  }

  /** `release` of an id not on the list puts it at the head. */
  lemma ReleasePushes(p: Pool, free: seq<nat>, id: nat)
    requires IsFreeList(p, free) && id < MAX_COUNT && id !in free
    ensures IsFreeList(Released(p, id), [id] + free)
  {
    var p', free' := Released(p, id), [id] + free;
    forall k | 0 <= k < |free'| ensures LinkOk(p', free', k) {
      if k > 0 { assert LinkOk(p, free, k - 1) && free'[k] == free[k - 1]; }
    }
  }

  /** The list is a function of the pool: two readings of the same links agree. */
  lemma {:induction false} OneFreeList(p: Pool, a: seq<nat>, b: seq<nat>, k: nat)
    requires IsFreeList(p, a) && IsFreeList(p, b) && k <= |a|
    ensures k <= |b| && a[..k] == b[..k]
  {
    if k > 0 {
      OneFreeList(p, a, b, k - 1);
      if k > 1 { assert LinkOk(p, a, k - 2) && LinkOk(p, b, k - 2); }
    }
  }

  // Addresses -----------------------------------------------------------------------------------

  /** `calc_chunk_size` for a chunk header of `header` bytes (8 or 16 by target). */
  function ChunkSize(header: nat, size: nat): (c: nat)
    requires header == 8 || header == 16
    ensures c % CHUNK_ALIGN == 0 && header + size <= c < header + size + CHUNK_ALIGN
  {
    (header + size + CHUNK_ALIGN - 1) / CHUNK_ALIGN * CHUNK_ALIGN
  }

  /** Offset of a chunk's payload in the segment. */
  function PayloadAt(header: nat, chunk: nat, id: nat): nat {
    INFO_SIZE + chunk * id + header
  }

  /** Size of the segment. */
  function ShmSize(chunk: nat): nat {
    INFO_SIZE + MAX_COUNT * chunk
  }

  /** Payloads of up to `size` bytes stay inside the segment and clear of the headers and
      payloads of other chunks. */
  lemma PayloadsDisjoint(header: nat, size: nat, i: nat, j: nat)
    requires (header == 8 || header == 16) && i < j < MAX_COUNT
    ensures var c := ChunkSize(header, size);
            && INFO_SIZE + header <= PayloadAt(header, c, i)
            && PayloadAt(header, c, i) + size <= PayloadAt(header, c, j) - header
            && PayloadAt(header, c, j) + size <= ShmSize(c)
  {
    var c := ChunkSize(header, size);
    ChunksApart(c, i, j);
    ChunksApart(c, j, MAX_COUNT);
  }

  lemma {:induction false} ChunksApart(c: nat, i: nat, j: nat)
    requires i < j
    ensures c * i + c <= c * j
  {
    assert c * (j - 1) + c == c * j;
    if i + 1 < j { ChunksApart(c, i, j - 1); }
  }
}
