/**
 * The dynamic-array routines as the C text literally behaves, kept apart from
 * module Containers (the intended behaviour the rest of the model uses) so
 * that each divergence can be exhibited on a concrete input.
 *
 * `_darray_create` records a stride of 0 (CreateLosesStride), and nothing
 * else ever writes the stride word, so in the program as written every
 * element copy moves 0 bytes and only the length word of an array changes.
 * The pop_at, insert_at and reserve-0 push defects below are therefore
 * latent in their effect on memory: they are stated for an array whose
 * stride word holds the real element size, that is once the stride defect is
 * repaired (and, for the pop_at copy length, with the array at slot 0, where
 * the absolute address of pop_at coincides with the intended one).
 *
 * Memory is a flat sequence of element-sized slots, slot k standing at byte
 * address k * stride; the array's element slots start at slot `base`. Every
 * `pcopy_memory` of n elements is modelled as a slot-by-slot move whose
 * sources are all read before any is written (a `memmove`); ForwardCopy
 * shows what a front-to-back `memcpy` does instead.
 */
module DArrayAsWritten {
  import opened Common
  import opened Containers

  /** `_darray_create` as written: the stride word is set to 0, not to `stride`. */
  function CreateHeaderAsWritten(length: nat, stride: nat): (h: seq<nat>)
    ensures |h| == FIELD_LENGTH
    ensures h[CAPACITY] == length && h[LENGTH] == 0
    ensures h[STRIDE] == 0
  {
    [length, 0, 0]
  }

  /**
   * With a nonzero element size the recorded stride is wrong, so every later
   * push copies 0 bytes of the value, and destroy hands back fewer bytes than
   * create allocated.
   */
  lemma CreateLosesStride(length: nat, stride: nat)
    requires stride > 0 && length > 0
    ensures CreateHeaderAsWritten(length, stride)[STRIDE] != stride
    ensures CreateHeaderAsWritten(length, stride)[STRIDE] == 0
    ensures var h := CreateHeaderAsWritten(length, stride);
      AllocationSize(h[CAPACITY], h[STRIDE]) < AllocationSize(length, stride)
  {
    assert length * stride > 0;
  }

  /** `_darray_resize` as written: the capacity is doubled, so 0 stays 0. */
  function GrownCapacityAsWritten(capacity: nat): (r: nat)
    ensures r == 0 <==> capacity == 0
    ensures capacity > 0 ==> r == GrownCapacity(capacity)
  {
    RESIZE_FACTOR * capacity
  }

  /**
   * The header of an array after `_darray_push` as written, with the number
   * of bytes the push copies. A full array is first resized: the new header
   * comes from CreateHeaderAsWritten with the doubled capacity, and only the
   * length word is carried over. The copy size is the stride word read before
   * the resize; the value lands in element slot `length`.
   */
  function PushHeaderAsWritten(h: seq<nat>): (r: (seq<nat>, nat))
    requires |h| == FIELD_LENGTH
    ensures |r.0| == FIELD_LENGTH && r.0[LENGTH] == h[LENGTH] + 1
    ensures r.0[CAPACITY] >= h[CAPACITY]
    ensures r.0[CAPACITY] > h[CAPACITY] <==> h[CAPACITY] <= h[LENGTH] && h[CAPACITY] > 0
    ensures r.0[STRIDE] == 0 || r.0[STRIDE] == h[STRIDE]
    ensures r.1 == h[STRIDE]
  {
    var resized := if h[LENGTH] >= h[CAPACITY]
      then CreateHeaderAsWritten(GrownCapacityAsWritten(h[CAPACITY]), h[STRIDE])[LENGTH := h[LENGTH]]
      else h;
    (resized[LENGTH := h[LENGTH] + 1], h[STRIDE])
  }

  /**
   * Pushing onto `darray_reserve(T, 0)` as written: the resize keeps the
   * capacity at 0 and the stride word is 0, so nothing is copied and only the
   * length word moves, to 1, above the capacity; the next push resizes again
   * and leaves length 2 over capacity 0. Once the stride is recorded (the
   * defect is latent behind the one in `_darray_create`), the same push copies
   * `stride` bytes into element slot 0 of an array that has no element slots.
   * The corrected growth gives capacity DEFAULT_CAPACITY instead.
   */
  lemma ReserveZeroNeverGrows(stride: nat)
    requires stride > 0
    ensures var first := PushHeaderAsWritten(CreateHeaderAsWritten(0, stride));
      first.1 == 0 && first.0[CAPACITY] == 0 && first.0[LENGTH] == 1
    ensures var second := PushHeaderAsWritten(PushHeaderAsWritten(CreateHeaderAsWritten(0, stride)).0);
      second.1 == 0 && second.0[CAPACITY] == 0 && second.0[LENGTH] == 2
    ensures var latent := PushHeaderAsWritten([0, 0, stride]);
      latent.1 == stride && latent.0[CAPACITY] == 0 && latent.0[LENGTH] == 1
    ensures 0 < GrownCapacity(0) == DEFAULT_CAPACITY
  {
  }

  /** Copies `n` slots starting at `src` to the slots starting at `dst`. */
  function Move<T>(mem: seq<T>, dst: nat, src: nat, n: nat): (r: seq<T>)
    requires dst + n <= |mem| && src + n <= |mem|
    ensures |r| == |mem|
    ensures forall k :: 0 <= k < |mem| ==>
      r[k] == if dst <= k < dst + n then mem[src + k - dst] else mem[k]
  {
    seq(|mem|, k requires 0 <= k < |mem| => if dst <= k < dst + n then mem[src + k - dst] else mem[k])
  }

  /**
   * `_darray_pop_at` as written. The statement `addr = (index * stride)`
   * replaces the array's address by an absolute one, so the popped value is
   * read from slot `index` of memory and the shift runs over slots
   * `2 * index ..`; only the length word of the array itself changes.
   * Returns the popped value, the new memory and the new length.
   */
  function PopAtAsWritten<T>(mem: seq<T>, base: nat, length: nat, index: nat): (r: (Option<T>, seq<T>, nat))
    requires base + length <= |mem|
    requires 2 * index + 1 + (length - index) <= |mem|
    ensures index >= length ==> r == (None, mem, length)
    ensures index < length ==> r.0 == Some(mem[index]) && r.2 == length - 1 && |r.1| == |mem|
  {
    if index >= length then (None, mem, length)
    else
      var popped := mem[index];
      var moved := if index != length - 1 then Move(mem, 2 * index, 2 * index + 1, length - index) else mem;
      (Some(popped), moved, length - 1)
  }

  /**
   * Popping index 0 of the array [10, 20] stored at slot 4 returns the value
   * at absolute slot 0 and leaves [10], where [20] and 10 were intended.
   */
  lemma PopAtReadsAbsoluteSlot()
    ensures var r := PopAtAsWritten([0, 0, 0, 0, 10, 20], 4, 2, 0);
      && r.0 == Some(0)
      && r.1[4..4 + r.2] == [10]
    ensures RemovedAt([10, 20], 0) == [20]
  {
    var mem := [0, 0, 0, 0, 10, 20];
    var r := PopAtAsWritten(mem, 4, 2, 0);
    assert r.1 == Move(mem, 0, 1, 2);
    assert r.1[4] == 10;
    assert r.1[4..5] == [r.1[4]];
  }

  /**
   * The number of elements the shift in `_darray_pop_at` copies: one per
   * element from `index` to the end, although the element at `index` is the
   * one being removed.
   */
  function PopAtCopiedAsWritten(length: nat, index: nat): (r: nat)
    requires index < length
    ensures r == |RemovedAt(seq(length, k => k), index)[index..]| + 1
  {
    length - index
  }

  /**
   * The copy reads from slot index + 1 onward, so its last source slot is
   * slot `length` of the array: past the last element, and past the end of
   * the allocation when the array is full. The intended copy reads one
   * element fewer and stays inside the elements.
   */
  lemma PopAtCopyReadsPastEnd(capacity: nat, length: nat, index: nat)
    requires index < length <= capacity
    ensures (index + 1) + PopAtCopiedAsWritten(length, index) - 1 == length
    ensures length == capacity ==> (index + 1) + PopAtCopiedAsWritten(length, index) > capacity
    ensures (index + 1) + (length - index - 1) <= length
  {
  }

  /**
   * A full array of two elements at slot 0, popped at index 0: the popped
   * value is right (at base 0 the absolute address coincides with the
   * element's), but the shift copies two slots, so it reads slot 2, the first
   * slot past the allocation, and leaves its contents (99) in slot 1.
   */
  lemma PopAtCopyPullsInSlotPastEnd()
    ensures var r := PopAtAsWritten([10, 20, 99], 0, 2, 0);
      && r.0 == Some(10)
      && r.1[..r.2] == [20]
      && r.1[1] == 99
    ensures PopAtCopiedAsWritten(2, 0) == 2 > |RemovedAt([10, 20], 0)[0..]|
  {
    var mem := [10, 20, 99];
    var r := PopAtAsWritten(mem, 0, 2, 0);
    assert r.1 == Move(mem, 0, 1, 2);
    assert r.1[0] == 20 && r.1[1] == 99;
    assert r.1[..1] == [r.1[0]];
  }

  /**
   * `_darray_insert_at` for an array with a free slot, as written. The shift
   * is skipped when `index == length - 1`, and the value is written through
   * `addr = (index * stride)`, that is to absolute slot `index`.
   * Returns whether the index was accepted, the new memory and the new length.
   */
  function InsertAtAsWritten<T>(mem: seq<T>, base: nat, capacity: nat, length: nat, index: nat, value: T): (r: (bool, seq<T>, nat))
    requires length < capacity && base + capacity <= |mem|
    requires index < |mem|
    ensures r.0 <==> index < length
    ensures !r.0 ==> r == (false, mem, length)
    ensures r.0 ==> r.2 == length + 1 && |r.1| == |mem| && r.1[index] == value
  {
    if index >= length then (false, mem, length)
    else
      var shifted := if index != length - 1 then Move(mem, base + index + 1, base + index, length - index) else mem;
      (true, shifted[index := value], length + 1)
  }

  /**
   * Inserting 30 at index 0 of [10, 20] (stored at slot 4, capacity 4) loses
   * the value and duplicates 10: the result is [10, 10, 20], not [30, 10, 20].
   */
  lemma InsertAtWritesAbsoluteSlot()
    ensures var r := InsertAtAsWritten([0, 0, 0, 0, 10, 20, 0, 0], 4, 4, 2, 0, 30);
      && r.0
      && r.1[4..4 + r.2] == [10, 10, 20]
    ensures InsertedAt([10, 20], 0, 30) == [30, 10, 20]
  {
    var mem := [0, 0, 0, 0, 10, 20, 0, 0];
    var r := InsertAtAsWritten(mem, 4, 4, 2, 0, 30);
    var moved := Move(mem, 5, 4, 2);
    assert r.1 == moved[0 := 30];
    assert moved[4] == 10 && moved[5] == 10 && moved[6] == 20;
    assert r.1[4..7] == [r.1[4], r.1[5], r.1[6]];
  }

  /**
   * Inserting at the last index skips the shift, so the old last element is
   * not moved up. With the array at slot 0 the absolute write of the value
   * lands in the right slot, which isolates this defect: inserting 30 at
   * index 1 of [10, 20] leaves [10, 30, 0] (the stale slot) where
   * [10, 30, 20] was intended.
   */
  lemma InsertAtLastIndexSkipsShift()
    ensures var r := InsertAtAsWritten([10, 20, 0, 0], 0, 4, 2, 1, 30);
      && r.0
      && r.1[..r.2] == [10, 30, 0]
    ensures InsertedAt([10, 20], 1, 30) == [10, 30, 20]
  {
    var mem := [10, 20, 0, 0];
    var r := InsertAtAsWritten(mem, 0, 4, 2, 1, 30);
    assert r.1 == mem[1 := 30];
    assert r.1[..3] == [r.1[0], r.1[1], r.1[2]];
  }

  /**
   * A `memcpy` that copies slot by slot from the front, one of the ways the
   * C library may behave when the regions overlap (which memcpy leaves
   * undefined).
   */
  function ForwardCopy<T>(mem: seq<T>, dst: nat, src: nat, n: nat): (r: seq<T>)
    requires dst + n <= |mem| && src + n <= |mem|
    ensures |r| == |mem|
    decreases n
  {
    if n == 0 then mem else ForwardCopy(mem[dst := mem[src]], dst + 1, src + 1, n - 1)
  }

  /** Whatever the overlap, a front-to-back copy writes only its destination slots. */
  lemma {:induction false} ForwardCopyFrame<T>(mem: seq<T>, dst: nat, src: nat, n: nat, k: nat)
    requires dst + n <= |mem| && src + n <= |mem|
    requires k < |mem| && !(dst <= k < dst + n)
    ensures ForwardCopy(mem, dst, src, n)[k] == mem[k]
    decreases n
  {
    if n > 0 {
      ForwardCopyFrame(mem[dst := mem[src]], dst + 1, src + 1, n - 1, k);
    }
  }

  /** Whether two regions of n slots share a slot; memcpy requires that they do not. */
  predicate RegionsOverlap(dst: nat, src: nat, n: nat)
  {
    n > 0 && dst < src + n && src < dst + n
  }

  /**
   * A front-to-back copy towards lower slots (the shift of pop_at) reads
   * every source slot before overwriting it, so it agrees with the memmove
   * reading.
   */
  lemma {:induction false} ForwardCopyDownIsMove<T>(mem: seq<T>, dst: nat, src: nat, n: nat)
    requires dst <= src && dst + n <= |mem| && src + n <= |mem|
    ensures ForwardCopy(mem, dst, src, n) == Move(mem, dst, src, n)
    decreases n
  {
    if n > 0 {
      var m := mem[dst := mem[src]];
      ForwardCopyDownIsMove(m, dst + 1, src + 1, n - 1);
      MoveFirstSlotThenRest(mem, dst, src, n);
    }
  }

  /**
   * Moving n slots downward is moving the first slot and then the other
   * n - 1: no source slot after the first is the destination of the first.
   */
  lemma MoveFirstSlotThenRest<T>(mem: seq<T>, dst: nat, src: nat, n: nat)
    requires dst <= src && 0 < n && dst + n <= |mem| && src + n <= |mem|
    ensures Move(mem[dst := mem[src]], dst + 1, src + 1, n - 1) == Move(mem, dst, src, n)
  {
    var m := mem[dst := mem[src]];
    var a := Move(m, dst + 1, src + 1, n - 1);
    var b := Move(mem, dst, src, n);
    forall k | 0 <= k < |mem| ensures a[k] == b[k] {
      if dst + 1 <= k < dst + n {
        assert a[k] == m[src + 1 + k - (dst + 1)];
      } else {
        assert a[k] == m[k];
      }
    }
  }

  /**
   * The shift of insert_at copies towards higher slots over an overlapping
   * region: moving [10, 20] up one slot front to back gives [10, 10, 10],
   * where the memmove the code needs gives [10, 10, 20].
   */
  lemma ForwardShiftUpDuplicates()
    ensures RegionsOverlap(1, 0, 2)
    ensures ForwardCopy([10, 20, 0], 1, 0, 2) == [10, 10, 10]
    ensures Move([10, 20, 0], 1, 0, 2) == [10, 10, 20]
  {
    assert ForwardCopy([10, 20, 0], 1, 0, 2) == ForwardCopy([10, 10, 0], 2, 1, 1);
    assert ForwardCopy([10, 10, 0], 2, 1, 1) == ForwardCopy([10, 10, 10], 3, 2, 0);
    var m := Move([10, 20, 0], 1, 0, 2);
    assert m[0] == 10 && m[1] == 10 && m[2] == 20;
  }
}
