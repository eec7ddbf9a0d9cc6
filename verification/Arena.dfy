/** The compiler's bump allocator over caller-provided storage (bootstrap/arena.lisp). */
module Arena {
  import opened Bits
  import opened Words

  // ---------- Reference: alignment in unbounded integers ----------

  /** The least multiple of the alignment at or after `used`. */
  function RoundUp(used: nat, alignment: nat): (r: nat)
    requires alignment > 0
    ensures r >= used
  {
    used + (0 - used) % alignment
  }

  lemma MultiplesSpread(a: int, m: int)
    requires m > 0 && a % m == 0 && a > -m
    ensures a >= 0
  {
    Division(a, m);
    if a / m < 0 {
      Distribute(m, 0, a / m + 1);
      ProductNonNegative(m, -(a / m + 1));
    } else {
      ProductNonNegative(m, a / m);
    }
  }

  lemma ProductNonNegative(m: int, d: int)
    requires m > 0 && d >= 0
    ensures m * d >= 0
  {
  }

  lemma AddMultiple(a: int, b: int, m: int)
    requires m > 0 && b % m == 0
    ensures (a + b) % m == a % m
  {
    Division(a, m);
    Division(b, m);
    var q := a / m + b / m;
    assert m * q == m * (a / m) + m * (b / m);
    ModUnique(a + b, m, q, a % m);
  }

  lemma RoundUpIsAligned(used: nat, alignment: nat)
    requires alignment > 0
    ensures RoundUp(used, alignment) % alignment == 0
  {
    var r, q := (0 - used) % alignment, (0 - used) / alignment;
    Division(0 - used, alignment);
    Distribute(alignment, 0, q);
    ModUnique(used + r, alignment, -q, 0);
  }

  lemma RoundUpIsLeast(used: nat, alignment: nat, q: nat)
    requires alignment > 0 && q >= used && q % alignment == 0
    ensures used <= RoundUp(used, alignment) <= q
  {
    var r := RoundUp(used, alignment);
    RoundUpIsAligned(used, alignment);
    Division(q, alignment);
    Division(r, alignment);
    Distribute(alignment, q / alignment, r / alignment);
    ModUnique(q - r, alignment, q / alignment - r / alignment, 0);
    MultiplesSpread(q - r, alignment);
  }

  ghost predicate Fits(used: nat, capacity: nat, size: nat, alignment: nat) {
    alignment > 0 && IsPow2(alignment) && RoundUp(used, alignment) + size <= capacity
  }

  /** A request fits exactly when its alignment is a power of two and some aligned block of its
      size lies in the unused part. */
  lemma FitsIffServable(used: nat, capacity: nat, size: nat, alignment: nat)
    ensures Fits(used, capacity, size, alignment) <==>
      alignment > 0 && IsPow2(alignment) &&
      exists start: nat :: used <= start && start % alignment == 0 && start + size <= capacity
  {
    if alignment > 0 && IsPow2(alignment) {
      RoundUpIsAligned(used, alignment);
      if start: nat :| used <= start && start % alignment == 0 && start + size <= capacity {
        RoundUpIsLeast(used, alignment, start);
      }
    }
  }

  // ---------- The bit tricks ----------

  predicate ValidAlignment(alignment: Word) {
    alignment != 0 && And(alignment, alignment - 1) == 0
  }

  function Padding(used: Word, alignment: Word): nat
    requires alignment > 0
  {
    And((0 - used) % WORD_SPAN, alignment - 1)
  }

  predicate Fit(used: Word, capacity: Word, padding: nat, size: Word) {
    used <= capacity && padding <= capacity - used && size <= capacity - used - padding
  }

  lemma ModOfMod(x: int, m: int, n: int)
    requires m > 0 && n > 0 && m * n > 0
    ensures (x % (m * n)) % m == x % m
  {
    var r, q := x % (m * n), x / (m * n);
    Division(x, m * n);
    assert (m * n) * q == m * (n * q);
    ModUnique(m * (n * q), m, n * q, 0);
    AddMultiple(r, m * (n * q), m);
  }

  /** Masking the negated offset gives the distance to the next aligned one. */
  lemma PaddingIsDistance(used: Word, alignment: Word)
    requires alignment > 0 && IsPow2(alignment)
    ensures Padding(used, alignment) == (0 - used) % alignment
    ensures used + Padding(used, alignment) == RoundUp(used, alignment)
  {
    hide And;
    var k: nat :| alignment == Pow2(k);
    Pow2Values();
    if k >= 64 {
      Pow2Monotone(64, k);
      assert false;
    }
    Pow2Add(k, 64 - k);
    AndLowMask((0 - used) % WORD_SPAN, k);
    ModOfMod(0 - used, alignment, Pow2(64 - k));
  }

  /** The word-sized test is the unbounded one. */
  lemma FitDecides(used: Word, capacity: Word, size: Word, alignment: Word)
    requires alignment > 0 && IsPow2(alignment)
    ensures Fit(used, capacity, Padding(used, alignment), size) <==> Fits(used, capacity, size, alignment)
    ensures Fits(used, capacity, size, alignment) ==>
      var start := (used + Padding(used, alignment)) % WORD_SPAN;
      start == RoundUp(used, alignment) && (start + size) % WORD_SPAN == start + size
  {
    PaddingIsDistance(used, alignment);
  }

  // ---------- The arena ----------

  class Arena {
    const data: Word
    const capacity: Word
    var used: Word

    constructor (data: Word, capacity: Word, used: Word)
      ensures this.data == data && this.capacity == capacity && this.used == used
    {
      this.data, this.capacity, this.used := data, capacity, used;
    }

    /** Succeeds exactly when, in unbounded integers, the rounded-up offset and the size fit;
        then the block starts at the least aligned offset. Failure returns null and changes
        nothing. */
    method Alloc(size: Word, alignment: Word) returns (address: Word)
      modifies this
      ensures Fits(old(used), capacity, size, alignment) ==>
        && used == RoundUp(old(used), alignment) + size
        && address == (data + RoundUp(old(used), alignment)) % WORD_SPAN
      ensures !Fits(old(used), capacity, size, alignment) ==> used == old(used) && address == 0
    {
      if alignment != 0 {
        PowerOfTwoTest(alignment);
      }
      if !ValidAlignment(alignment) {
        return 0;
      }
      FitDecides(used, capacity, size, alignment);
      var padding := Padding(used, alignment);
      if !Fit(used, capacity, padding, size) {
        return 0;
      }
      var start := (used + padding) % WORD_SPAN;
      used := (start + size) % WORD_SPAN;
      return (data + start) % WORD_SPAN;
    }
  }

  /** With the storage inside the address space, null is the failure answer and no other,
      and blocks have the alignment that was asked for when the base address has it. */
  lemma AddressesAreSound(data: Word, used: Word, capacity: Word, size: Word, alignment: Word)
    requires Fits(used, capacity, size, alignment) && 0 < data && data + capacity < WORD_SPAN
    ensures var address := (data + RoundUp(used, alignment)) % WORD_SPAN;
      && address == data + RoundUp(used, alignment) != 0
      && data <= address && address + size <= data + capacity
      && (data % alignment == 0 ==> address % alignment == 0)
  {
    RoundUpIsAligned(used, alignment);
    if data % alignment == 0 {
      AddMultiple(data, RoundUp(used, alignment), alignment);
    }
  }

  // ---------- Runs ----------

  datatype Request = Request(size: Word, alignment: Word)
  datatype Block = Block(start: nat, size: nat)

  /** What a run of requests is granted, request by request. */
  ghost function Granted(used: nat, capacity: nat, requests: seq<Request>): (bs: seq<Option<Block>>)
    ensures |bs| == |requests|
    decreases requests
  {
    if requests == [] then []
    else
      var r := requests[0];
      if Fits(used, capacity, r.size, r.alignment) then
        var start := RoundUp(used, r.alignment);
        [Some(Block(start, r.size))] + Granted(start + r.size, capacity, requests[1..])
      else [None] + Granted(used, capacity, requests[1..])
  }

  /** A block for this request, aligned and inside [used, capacity). */
  predicate Serves(b: Block, used: nat, capacity: nat, r: Request) {
    && b.size == r.size && used <= b.start && b.start + b.size <= capacity
    && r.alignment > 0 && b.start % r.alignment == 0
  }

  /** Every block serves its request, and lies behind the blocks before it. */
  ghost predicate Packed(used: nat, capacity: nat, requests: seq<Request>, bs: seq<Option<Block>>)
    requires |bs| == |requests|
  {
    && (forall i :: 0 <= i < |bs| && bs[i].Some? ==> Serves(bs[i].value, used, capacity, requests[i]))
    && (forall i, j :: 0 <= i < j < |bs| && bs[i].Some? && bs[j].Some? ==>
          bs[i].value.start + bs[i].value.size <= bs[j].value.start)
  }

  lemma BlockInFront(used: nat, capacity: nat, requests: seq<Request>, b: Option<Block>, bs: seq<Option<Block>>)
    requires requests != [] && |bs| == |requests| - 1
    requires b.Some? ==> Serves(b.value, used, capacity, requests[0])
    requires Packed(if b.Some? then b.value.start + b.value.size else used, capacity, requests[1..], bs)
    ensures Packed(used, capacity, requests, [b] + bs)
  {
    var all := [b] + bs;
    forall i | 0 <= i < |all| && all[i].Some?
      ensures Serves(all[i].value, used, capacity, requests[i])
    {
      if i > 0 {
        assert all[i] == bs[i - 1] && requests[i] == requests[1..][i - 1];
      }
    }
  }

  /** All blocks of a run lie inside the arena, after what was used, each behind the last. */
  lemma {:induction false} BlocksAreDisjoint(used: nat, capacity: nat, requests: seq<Request>)
    ensures Packed(used, capacity, requests, Granted(used, capacity, requests))
    decreases requests
  {
    if requests != [] {
      var r, rest := requests[0], requests[1..];
      if Fits(used, capacity, r.size, r.alignment) {
        var start := RoundUp(used, r.alignment);
        RoundUpIsAligned(used, r.alignment);
        BlocksAreDisjoint(start + r.size, capacity, rest);
        BlockInFront(used, capacity, requests, Some(Block(start, r.size)), Granted(start + r.size, capacity, rest));
      } else {
        BlocksAreDisjoint(used, capacity, rest);
        BlockInFront(used, capacity, requests, None, Granted(used, capacity, rest));
      }
    }
  }

  /** The answer for a block: its address, or null. */
  function Address(data: Word, b: Option<Block>): Word {
    match b
    case None => 0
    case Some(block) => (data + block.start) % WORD_SPAN
  }

  /** The memory handed out: answers other than null are aligned and inside the storage,
      and no two of them overlap. */
  ghost predicate Separate(data: Word, used: nat, capacity: nat, requests: seq<Request>, addresses: seq<Word>)
    requires |addresses| == |requests|
  {
    && (forall i :: 0 <= i < |addresses| && addresses[i] != 0 ==>
          data + used <= addresses[i] && addresses[i] + requests[i].size <= data + capacity)
    && (forall i :: 0 <= i < |addresses| && addresses[i] != 0 ==>
          && requests[i].alignment > 0
          && (data % requests[i].alignment == 0 ==> addresses[i] % requests[i].alignment == 0))
    && (forall i, j :: 0 <= i < j < |addresses| && addresses[i] != 0 && addresses[j] != 0 ==>
          addresses[i] + requests[i].size <= addresses[j])
  }

  lemma AddressOfBlock(data: Word, used: nat, capacity: nat, r: Request, b: Block)
    requires 0 < data && data + capacity < WORD_SPAN && Serves(b, used, capacity, r)
    ensures Address(data, Some(b)) == data + b.start != 0
    ensures data % r.alignment == 0 ==> (data + b.start) % r.alignment == 0
  {
    if data % r.alignment == 0 {
      AddMultiple(data, b.start, r.alignment);
    }
  }

  lemma BlocksAreSeparate(data: Word, used: nat, capacity: nat, requests: seq<Request>, bs: seq<Option<Block>>,
                          addresses: seq<Word>)
    requires 0 < data && data + capacity < WORD_SPAN
    requires |bs| == |requests| == |addresses| && Packed(used, capacity, requests, bs)
    requires forall i :: 0 <= i < |bs| ==> addresses[i] == Address(data, bs[i])
    ensures Separate(data, used, capacity, requests, addresses)
    ensures forall i :: 0 <= i < |bs| ==> (addresses[i] == 0 <==> bs[i].None?)
  {
    forall i | 0 <= i < |bs| && bs[i].Some?
      ensures addresses[i] == data + bs[i].value.start != 0 && requests[i].alignment > 0
      ensures data % requests[i].alignment == 0 ==> addresses[i] % requests[i].alignment == 0
    {
      AddressOfBlock(data, used, capacity, requests[i], bs[i].value);
    }
  }

  /** A run of requests on one arena: the answers are exactly the blocks granted, and null for
      the requests that do not fit. With the storage inside the address space, no two answers
      overlap. */
  method Serve(arena: Arena, requests: seq<Request>) returns (addresses: seq<Word>)
    modifies arena
    ensures |addresses| == |requests|
    ensures var bs := Granted(old(arena.used), arena.capacity, requests);
      forall i :: 0 <= i < |bs| ==> addresses[i] == Address(arena.data, bs[i])
    ensures 0 < arena.data && arena.data + arena.capacity < WORD_SPAN ==>
      Separate(arena.data, old(arena.used), arena.capacity, requests, addresses)
  {
    addresses := [];
    ghost var bs := Granted(arena.used, arena.capacity, requests);
    while |addresses| < |requests|
      invariant |addresses| <= |requests|
      invariant bs[|addresses|..] == Granted(arena.used, arena.capacity, requests[|addresses|..])
      invariant forall i :: 0 <= i < |addresses| ==> addresses[i] == Address(arena.data, bs[i])
    {
      var n := |addresses|;
      assert requests[n..][0] == requests[n] && requests[n..][1..] == requests[n + 1..];
      assert bs[n..][0] == bs[n] && bs[n..][1..] == bs[n + 1..];
      var address := arena.Alloc(requests[n].size, requests[n].alignment);
      addresses := addresses + [address];
    }
    BlocksAreDisjoint(old(arena.used), arena.capacity, requests);
    if 0 < arena.data && arena.data + arena.capacity < WORD_SPAN {
      BlocksAreSeparate(arena.data, old(arena.used), arena.capacity, requests, bs, addresses);
    }
  }
}
