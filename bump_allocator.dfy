/** The transient-storage arena: one `malloc`ed block handed out front to
    back in 16-byte-aligned pieces and never freed piecewise. The arena is a
    class over its three header fields plus the block's bytes; each request
    is specified by the pure `AllocOffset` / `UsedAfter` pair, about which the
    run lemmas below prove that pieces are aligned, inside the block,
    pairwise disjoint, and each at the sum of the earlier granted sizes. */
module BumpArena {
  import opened Common

  /** The distance `BumpAlloc` rounds a request up to. */
  const ALIGNMENT: nat := 16

  /** `MB(x)` of `utils.hpp`: `1024 * 1024 * x` as `unsigned long long`. */
  function MB(x: nat): (r: nat)
    ensures r == 1048576 * x
  {
    1024 * (1024 * x)
  }

  /** The least multiple of 16 that is at least `size`, with no wrap-around. */
  function AlignUp(size: nat): (r: nat)
    ensures r % ALIGNMENT == 0
    ensures size <= r < size + ALIGNMENT
  {
    (size + 15) / 16 * 16
  }

  /** The arena can hand out `aligned` more bytes without passing its end. */
  predicate Fits(used: nat, aligned: nat, capacity: nat)
  {
    aligned <= capacity - used
  }

  /** Offset from the block's base that a request for `size` bytes gets, if any. */
  function AllocOffset(used: nat, capacity: nat, size: nat): (r: Option<nat>)
    ensures r.Some? <==> used + AlignUp(size) <= capacity
    ensures r.Some? ==> r.value == used
  {
    if Fits(used, AlignUp(size), capacity) then Some(used) else None
  }

  /** The `used` counter after a request. */
  function UsedAfter(used: nat, capacity: nat, size: nat): (r: nat)
    ensures used <= capacity ==> used <= r <= capacity
    ensures r == used <==> AllocOffset(used, capacity, size).None? || AlignUp(size) == 0
  {
    if Fits(used, AlignUp(size), capacity) then used + AlignUp(size) else used
  }

  class BumpAllocator {
    var capacity: nat
    var used: nat
    /** Base address of the block; `NULL` when `malloc` failed. */
    var memory: Handle
    /** The block's bytes. */
    var contents: seq<bv8>

    ghost predicate Valid()
      reads this
    {
      && used <= capacity < U64_LIMIT
      && |contents| == capacity
      && used % ALIGNMENT == 0
      && (memory == NULL ==> capacity == 0)
    }

    /** `MakeBumpAllocator(size)`; `block` is what `malloc(size)` returned.
        On success the block is zeroed; on failure the arena stays empty. */
    constructor Make(size: nat, block: Handle)
      requires size < U64_LIMIT
      ensures Valid()
      ensures used == 0 && memory == block
      ensures block != NULL ==> capacity == size && contents == seq(size, _ => 0 as bv8)
      ensures block == NULL ==> capacity == 0 && contents == []
    {
      used := 0;
      memory := block;
      if block != NULL {
        capacity := size;
        contents := seq(size, _ => 0 as bv8);
      } else {
        capacity := 0;
        contents := [];
      }
    }

    /** `BumpAlloc(ba, size)`: the next aligned piece, or null when it does not fit. */
    method BumpAlloc(size: nat) returns (ptr: Handle)
      requires Valid()
      requires size < U64_LIMIT
      modifies this`used
      ensures Valid()
      ensures used == UsedAfter(old(used), capacity, size)
      ensures AllocOffset(old(used), capacity, size).Some? ==> ptr == memory + old(used)
      ensures AllocOffset(old(used), capacity, size).None? ==> ptr == NULL
    {
      ptr := NULL;
      var aligned := AlignUp(size);
      if aligned <= capacity - used {
        ptr := memory + used;
        used := used + aligned;
      }
    }
  }

  /** Offsets handed out for a sequence of requests, starting at `used`. */
  function RunOffsets(used: nat, capacity: nat, sizes: seq<nat>): seq<Option<nat>>
    decreases |sizes|
  {
    if |sizes| == 0 then []
    else
      var next := UsedAfter(used, capacity, sizes[0]);
      [AllocOffset(used, capacity, sizes[0])] + RunOffsets(next, capacity, sizes[1..])
  }

  function RunUsed(used: nat, capacity: nat, sizes: seq<nat>): nat
    decreases |sizes|
  {
    if |sizes| == 0 then used
    else RunUsed(UsedAfter(used, capacity, sizes[0]), capacity, sizes[1..])
  }

  /** `used` only grows, and never past the capacity. */
  lemma {:induction false} RunBounds(used: nat, capacity: nat, sizes: seq<nat>)
    requires used <= capacity
    ensures |RunOffsets(used, capacity, sizes)| == |sizes|
    ensures used <= RunUsed(used, capacity, sizes) <= capacity
    decreases |sizes|
  {
    if |sizes| > 0 {
      RunBounds(UsedAfter(used, capacity, sizes[0]), capacity, sizes[1..]);
    }
  }

  /** Every piece handed out lies between the start `used` and the final
      `used`, and starts on a 16-byte boundary when the start does. */
  lemma {:induction false} RunWithin(used: nat, capacity: nat, sizes: seq<nat>, i: nat)
    requires used <= capacity
    requires i < |sizes|
    ensures |RunOffsets(used, capacity, sizes)| == |sizes|
    ensures RunOffsets(used, capacity, sizes)[i].Some? ==>
      var o := RunOffsets(used, capacity, sizes)[i].value;
      used <= o && o + AlignUp(sizes[i]) <= RunUsed(used, capacity, sizes)
      && (used % ALIGNMENT == 0 ==> o % ALIGNMENT == 0)
    decreases i
  {
    RunBounds(used, capacity, sizes);
    var next := UsedAfter(used, capacity, sizes[0]);
    RunBounds(next, capacity, sizes[1..]);
    if i > 0 {
      RunWithin(next, capacity, sizes[1..], i - 1);
      assert RunOffsets(used, capacity, sizes)[i] == RunOffsets(next, capacity, sizes[1..])[i - 1];
    }
  }

  /** Two pieces handed out by one run never overlap: an earlier piece ends
      before a later one starts. */
  lemma {:induction false} RunDisjoint(used: nat, capacity: nat, sizes: seq<nat>, i: nat, j: nat)
    requires used <= capacity
    requires i < j < |sizes|
    ensures |RunOffsets(used, capacity, sizes)| == |sizes|
    ensures RunOffsets(used, capacity, sizes)[i].Some? && RunOffsets(used, capacity, sizes)[j].Some? ==>
      RunOffsets(used, capacity, sizes)[i].value + AlignUp(sizes[i]) <= RunOffsets(used, capacity, sizes)[j].value
    decreases i
  {
    RunBounds(used, capacity, sizes);
    var next := UsedAfter(used, capacity, sizes[0]);
    RunBounds(next, capacity, sizes[1..]);
    assert RunOffsets(used, capacity, sizes)[j] == RunOffsets(next, capacity, sizes[1..])[j - 1];
    if i == 0 {
      RunWithin(next, capacity, sizes[1..], j - 1);
    } else {
      RunDisjoint(next, capacity, sizes[1..], i - 1, j - 1);
      assert RunOffsets(used, capacity, sizes)[i] == RunOffsets(next, capacity, sizes[1..])[i - 1];
    }
  }

  /** The aligned sizes of the requests among the first `i` that `offs`
      records as granted. */
  function GrantedSum(offs: seq<Option<nat>>, sizes: seq<nat>, i: nat): nat
    requires i <= |offs| && i <= |sizes|
    decreases i
  {
    if i == 0 then 0
    else (if offs[0].Some? then AlignUp(sizes[0]) else 0) + GrantedSum(offs[1..], sizes[1..], i - 1)
  }

  /** The piece a request gets starts at the start `used` plus the aligned
      sizes of the earlier requests that were granted, and the final `used`
      is the start plus the aligned sizes of all granted requests. */
  lemma {:induction false} OffsetIsSum(used: nat, capacity: nat, sizes: seq<nat>, i: nat)
    requires used <= capacity
    requires i < |sizes|
    ensures |RunOffsets(used, capacity, sizes)| == |sizes|
    ensures RunOffsets(used, capacity, sizes)[i].Some? ==>
      RunOffsets(used, capacity, sizes)[i].value == used + GrantedSum(RunOffsets(used, capacity, sizes), sizes, i)
    ensures RunUsed(used, capacity, sizes) == used + GrantedSum(RunOffsets(used, capacity, sizes), sizes, |sizes|)
    decreases |sizes|
  {
    RunBounds(used, capacity, sizes);
    var offs := RunOffsets(used, capacity, sizes);
    var next := UsedAfter(used, capacity, sizes[0]);
    RunBounds(next, capacity, sizes[1..]);
    assert offs[1..] == RunOffsets(next, capacity, sizes[1..]);
    assert next == used + (if offs[0].Some? then AlignUp(sizes[0]) else 0);
    if |sizes| == 1 {
      assert RunUsed(next, capacity, sizes[1..]) == next;
      assert GrantedSum(offs[1..], sizes[1..], 0) == 0;
    } else {
      OffsetIsSum(next, capacity, sizes[1..], if i == 0 then 0 else i - 1);
    }
    if i > 0 {
      assert offs[i] == offs[1..][i - 1];
    }
  }

  /** A refused request changes nothing, so a too-large request between two
      others does not shift where the second one lands. */
  lemma RefusedIsNoOp(used: nat, capacity: nat, size: nat, rest: seq<nat>)
    requires AllocOffset(used, capacity, size).None?
    ensures RunOffsets(used, capacity, [size] + rest) == [None] + RunOffsets(used, capacity, rest)
    ensures RunUsed(used, capacity, [size] + rest) == RunUsed(used, capacity, rest)
  {
    assert ([size] + rest)[1..] == rest;
  }

  /** Three requests against a fresh 1 KiB arena: 10 bytes take the first
      16-byte piece, 20 bytes the next 32, and 2000 bytes are refused. */
  method ArenaScenario(block: Handle) returns (a: Handle, b: Handle, c: Handle, used: nat)
    requires block != NULL
    ensures a == block && b == block + 16 && c == NULL && used == 48
  {
    var ba := new BumpAllocator.Make(1024, block);
    a := ba.BumpAlloc(10);
    b := ba.BumpAlloc(20);
    c := ba.BumpAlloc(2000);
    used := ba.used;
  }

  /** An arena whose `malloc` failed refuses every non-empty request, and a
      zero-byte request yields `null + 0`, which is null as well. */
  lemma FailedArenaRefuses(size: nat)
    ensures size > 0 ==> AllocOffset(0, 0, size).None?
    ensures size == 0 ==> AllocOffset(0, 0, size) == Some(0)
  {
  }

  // The request arithmetic as the C++ writes it, on 64-bit `Size` values.

  /** `(size + 15) & ~15` on `u64`: the sum wraps before the low bits are cleared. */
  function AlignedSizeAsWritten(size: nat): (r: nat)
    requires size < U64_LIMIT
    ensures r < U64_LIMIT && r % ALIGNMENT == 0
  {
    ((size + 15) % U64_LIMIT) / 16 * 16
  }

  /** `ba->used + allignedSize <= ba->capacity` on `u64`. */
  predicate FitsAsWritten(used: nat, aligned: nat, capacity: nat)
  {
    (used + aligned) % U64_LIMIT <= capacity
  }

  /** `ba->used += allignedSize` on `u64`. */
  function UsedAfterAsWritten(used: nat, aligned: nat): nat
  {
    (used + aligned) % U64_LIMIT
  }

  /** When neither sum passes 2^64 the C++ arithmetic is the exact one. */
  lemma AsWrittenAgreesWithoutWrap(used: nat, capacity: nat, size: nat)
    requires size + 15 < U64_LIMIT
    requires used + AlignUp(size) < U64_LIMIT
    ensures AlignedSizeAsWritten(size) == AlignUp(size)
    ensures FitsAsWritten(used, AlignedSizeAsWritten(size), capacity) <==> Fits(used, AlignUp(size), capacity)
    ensures UsedAfterAsWritten(used, AlignedSizeAsWritten(size)) == used + AlignUp(size)
  {
  }

  /** A request of 2^64 - 1 bytes rounds to 0 and is granted a zero-length piece. */
  lemma AlignWrapsToZero()
    ensures AlignedSizeAsWritten(U64_LIMIT - 1) == 0
    ensures FitsAsWritten(0, AlignedSizeAsWritten(U64_LIMIT - 1), 1024)
    ensures AllocOffset(0, 1024, U64_LIMIT - 1).None?
  {
  }

  /** With capacity 100 and 32 bytes used, a request of 2^64 - 32 bytes
      passes the wrapped check and resets `used` to 0, so the next request is
      handed memory that is already in use. */
  lemma FitWrapsPastCapacity()
    ensures AlignedSizeAsWritten(U64_LIMIT - 32) == U64_LIMIT - 32
    ensures FitsAsWritten(32, U64_LIMIT - 32, 100)
    ensures UsedAfterAsWritten(32, U64_LIMIT - 32) == 0
    ensures !Fits(32, AlignUp(U64_LIMIT - 32), 100)
  {
  }
}
