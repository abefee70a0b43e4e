/**
 * Tagged memory statistics (core/pmemory.c): a running total of allocated
 * bytes and one counter per allocation tag, all u64. The counters wrap
 * modulo 2^64 as the C unsigned arithmetic does; the block itself comes
 * from the platform allocator and is zero-filled.
 */
module Memory {
  const U64_LIMIT: nat := 0x1_0000_0000_0000_0000

  // Allocation tags, in the order of the tag names in pmemory.c.
  const TAG_UNKNOWN: nat := 0
  const TAG_ARRAY: nat := 1
  const TAG_DARRAY: nat := 2
  const TAG_STRING: nat := 6
  const TAG_APPLICATION: nat := 7
  const TAG_RENDERER: nat := 11
  // Number of tags (MEMORY_TAG_MAX_TAGS): one per name in the table.
  const MAX_TAGS: nat := 17

  const KIB: nat := 1024
  const MIB: nat := 1024 * 1024
  const GIB: nat := 1024 * 1024 * 1024

  /** A u64 counter after `size` is added to it. */
  function Charge(counter: nat, size: nat): (r: nat)
    ensures r < U64_LIMIT
    ensures counter + size < U64_LIMIT ==> r == counter + size
  {
    (counter + size) % U64_LIMIT
  }

  /** A u64 counter after `size` is subtracted from it. */
  function Release(counter: nat, size: nat): (r: nat)
    ensures r < U64_LIMIT
    ensures size <= counter < U64_LIMIT ==> r == counter - size
  {
    (counter - size) % U64_LIMIT
  }

  /** Adding a multiple of 2^64 does not change a value modulo 2^64. */
  lemma ModShift(x: int, q: int)
    ensures (x + q * U64_LIMIT) % U64_LIMIT == x % U64_LIMIT
  {
  }

  /** (a + b mod 2^64) mod 2^64 == (a + b) mod 2^64. */
  lemma ModAddRight(a: int, b: int)
    ensures (a + b % U64_LIMIT) % U64_LIMIT == (a + b) % U64_LIMIT
  {
    var q := b / U64_LIMIT;
    assert b == q * U64_LIMIT + b % U64_LIMIT;
    ModShift(a + b % U64_LIMIT, q);
  }

  /** Freeing what was just allocated under a tag restores that counter exactly. */
  lemma {:induction false} ReleaseUndoesCharge(counter: nat, size: nat)
    requires counter < U64_LIMIT
    ensures Release(Charge(counter, size), size) == counter
  {
    ModAddRight(-(size as int), counter + size);
    assert counter % U64_LIMIT == counter;
  }

  /** Allocating again what was just freed restores the counter exactly, wrapped or not. */
  lemma {:induction false} ChargeUndoesRelease(counter: nat, size: nat)
    requires counter < U64_LIMIT
    ensures Charge(Release(counter, size), size) == counter
  {
    ModAddRight(size, counter - size);
    assert counter % U64_LIMIT == counter;
  }

  /** Sum of the tag counters. */
  function Sum(s: seq<nat>): nat
  {
    if s == [] then 0 else s[0] + Sum(s[1..])
  }

  /** Replacing one counter changes the sum by the difference. */
  lemma {:induction false} SumUpdate(s: seq<nat>, i: nat, v: nat)
    requires i < |s|
    ensures Sum(s[i := v]) + s[i] == Sum(s) + v
  {
    if i == 0 {
      assert s[i := v][1..] == s[1..];
    } else {
      assert s[i := v][1..] == s[1..][i - 1 := v];
      SumUpdate(s[1..], i - 1, v);
    }
  }

  /**
   * Charging one counter and the total by the same amount keeps the total
   * equal to the sum of the counters modulo 2^64.
   */
  lemma {:induction false} ChargeKeepsConservation(s: seq<nat>, total: nat, tag: nat, size: nat)
    requires tag < |s|
    requires total == Sum(s) % U64_LIMIT
    ensures Charge(total, size) == Sum(s[tag := Charge(s[tag], size)]) % U64_LIMIT
  {
    var c := Charge(s[tag], size);
    SumUpdate(s, tag, c);
    var rest := Sum(s) - s[tag];
    assert Sum(s[tag := c]) == rest + c;
    ModAddRight(rest, s[tag] + size);
    ModAddRight(size, Sum(s));
  }

  /** The same for releasing. */
  lemma {:induction false} ReleaseKeepsConservation(s: seq<nat>, total: nat, tag: nat, size: nat)
    requires tag < |s|
    requires total == Sum(s) % U64_LIMIT
    ensures Release(total, size) == Sum(s[tag := Release(s[tag], size)]) % U64_LIMIT
  {
    var c := Release(s[tag], size);
    SumUpdate(s, tag, c);
    var rest := Sum(s) - s[tag];
    assert Sum(s[tag := c]) == rest + c;
    ModAddRight(rest, s[tag] - size);
    ModAddRight(-(size as int), Sum(s));
  }

  /**
   * The unit `get_memory_usage_str` prints a byte count in: the largest of
   * GiB, MiB and KiB that the count reaches, otherwise plain bytes.
   */
  function UnitFor(bytes: nat): (u: string)
    ensures u == "GiB" <==> bytes >= GIB
    ensures u == "MiB" <==> MIB <= bytes < GIB
    ensures u == "KiB" <==> KIB <= bytes < MIB
    ensures u == "B" <==> bytes < KIB
  {
    if bytes >= GIB then "GiB"
    else if bytes >= MIB then "MiB"
    else if bytes >= KIB then "KiB"
    else "B"
  }

  /** Bytes in one of the units above. */
  function UnitBytes(u: string): nat
  {
    if u == "GiB" then GIB else if u == "MiB" then MIB else if u == "KiB" then KIB else 1
  }

  /**
   * In the chosen unit the whole part of the printed amount is at least 1
   * (for a nonzero count) and, below GiB, less than 1024.
   */
  lemma UnitKeepsAmountInRange(bytes: nat)
    ensures bytes > 0 ==> bytes / UnitBytes(UnitFor(bytes)) >= 1
    ensures UnitFor(bytes) != "GiB" ==> bytes / UnitBytes(UnitFor(bytes)) < 1024
  {
    var d := UnitBytes(UnitFor(bytes));
    if bytes >= GIB {
      assert d == GIB;
    } else if bytes >= MIB {
      assert d == MIB;
      assert bytes < 1024 * MIB;
    } else if bytes >= KIB {
      assert d == KIB;
      assert bytes < 1024 * KIB;
    }
  }

  class MemoryStats {
    var totalAllocated: nat
    // One u64 counter per tag (the static `tagged_allocations` array).
    var taggedAllocations: array<nat>

    ghost predicate Valid()
      reads this, taggedAllocations
    {
      && taggedAllocations.Length == MAX_TAGS
      && totalAllocated < U64_LIMIT
      && (forall i :: 0 <= i < MAX_TAGS ==> taggedAllocations[i] < U64_LIMIT)
      && totalAllocated == Sum(taggedAllocations[..]) % U64_LIMIT
    }

    /** `initialize_memory`: the total and every tag counter are zero. */
    constructor Initialize()
      ensures Valid() && fresh(taggedAllocations)
      ensures totalAllocated == 0
      ensures forall i :: 0 <= i < MAX_TAGS ==> taggedAllocations[i] == 0
    {
      totalAllocated := 0;
      taggedAllocations := new nat[MAX_TAGS](_ => 0);
      new;
      ZeroSum(taggedAllocations[..]);
    }

    /**
     * `pallocate`: charges `size` to the total and to the counter of `tag`
     * only (MEMORY_TAG_UNKNOWN only draws a warning and is counted like any
     * other tag), and returns a zero-filled block of `size` bytes.
     */
    method Allocate(size: nat, tag: nat) returns (block: array<bv8>)
      requires Valid() && tag < MAX_TAGS
      modifies this, taggedAllocations
      ensures Valid() && taggedAllocations == old(taggedAllocations)
      ensures totalAllocated == Charge(old(totalAllocated), size)
      ensures taggedAllocations[..] == old(taggedAllocations[..])[tag := Charge(old(taggedAllocations[tag]), size)]
      ensures fresh(block) && block.Length == size
      ensures forall i :: 0 <= i < size ==> block[i] == 0
    {
      ChargeKeepsConservation(taggedAllocations[..], totalAllocated, tag, size);
      totalAllocated := Charge(totalAllocated, size);
      taggedAllocations[tag] := Charge(taggedAllocations[tag], size);
      block := new bv8[size](_ => 0);
    }

    /** `pfree`: takes `size` off the total and off the counter of `tag` only. */
    method Free(size: nat, tag: nat)
      requires Valid() && tag < MAX_TAGS
      modifies this, taggedAllocations
      ensures Valid() && taggedAllocations == old(taggedAllocations)
      ensures totalAllocated == Release(old(totalAllocated), size)
      ensures taggedAllocations[..] == old(taggedAllocations[..])[tag := Release(old(taggedAllocations[tag]), size)]
    {
      ReleaseKeepsConservation(taggedAllocations[..], totalAllocated, tag, size);
      totalAllocated := Release(totalAllocated, size);
      taggedAllocations[tag] := Release(taggedAllocations[tag], size);
    }

    /** The unit chosen for every tag's line of the usage report, in tag order. */
    method UsageUnits() returns (units: seq<string>)
      requires Valid()
      ensures |units| == MAX_TAGS
      ensures forall i :: 0 <= i < MAX_TAGS ==> units[i] == UnitFor(taggedAllocations[i])
    {
      units := [];
      var i := 0;
      while i < MAX_TAGS
        invariant 0 <= i <= MAX_TAGS
        invariant |units| == i
        invariant forall k :: 0 <= k < i ==> units[k] == UnitFor(taggedAllocations[k])
      {
        var unit: string;
        var bytes := taggedAllocations[i];
        if bytes >= GIB {
          unit := "GiB";
        } else if bytes >= MIB {
          unit := "MiB";
        } else if bytes >= KIB {
          unit := "KiB";
        } else {
          unit := "B";
        }
        units := units + [unit];
        i := i + 1;
      }
    }
  }

  /** A run of zero counters sums to zero. */
  lemma {:induction false} ZeroSum(s: seq<nat>)
    requires forall i :: 0 <= i < |s| ==> s[i] == 0
    ensures Sum(s) == 0
  {
    if s != [] {
      ZeroSum(s[1..]);
    }
  }
}
