/**
 * The engine's dynamic array (containers/darray.c, containers/darray.h).
 *
 * In C the array is one allocation: three u64 header words (capacity, length,
 * stride) followed by `capacity` element slots, and the caller holds the address
 * to the first slot. Here the header words are an `array<nat>` and the slots an
 * `array<T>`; a resize replaces both arrays, which stands for the C routines
 * returning a new address that the `darray_push` / `darray_insert_at` macros
 * store back into the caller's variable.
 *
 * The model follows the evidently intended behaviour; where the C text differs
 * (stride stored as 0, absolute addresses in pop_at/insert_at, a copy one
 * element too long, a skipped shift, no growth from capacity 0) the literal
 * behaviour is modelled in module DArrayAsWritten.
 */
module Containers {
  import opened Common

  // Indices of the header words, in memory order.
  const CAPACITY: nat := 0
  const LENGTH: nat := 1
  const STRIDE: nat := 2
  // Number of header words.
  const FIELD_LENGTH: nat := 3
  // Bytes in one header word (u64).
  const WORD_BYTES: nat := 8
  const HEADER_BYTES: nat := FIELD_LENGTH * WORD_BYTES

  const DEFAULT_CAPACITY: nat := 1
  const RESIZE_FACTOR: nat := 2

  /**
   * Capacity after a resize: RESIZE_FACTOR times the old one. An array
   * reserved with capacity 0 grows to DEFAULT_CAPACITY, so a push always finds
   * a free slot (see the Findings in README.md for the C behaviour).
   */
  function GrownCapacity(capacity: nat): (r: nat)
    ensures r > capacity
    ensures capacity > 0 ==> r == RESIZE_FACTOR * capacity
    ensures capacity == 0 ==> r == DEFAULT_CAPACITY
  {
    if capacity == 0 then DEFAULT_CAPACITY else RESIZE_FACTOR * capacity
  }

  /** Number of bytes one array occupies: the header plus its element slots. */
  function AllocationSize(capacity: nat, stride: nat): (r: nat)
    ensures r >= HEADER_BYTES
    ensures r == HEADER_BYTES <==> capacity == 0 || stride == 0
  {
    HEADER_BYTES + capacity * stride
  }

  /** The sequence `s` with the element at `i` taken out. */
  function RemovedAt<T>(s: seq<T>, i: nat): (r: seq<T>)
    requires i < |s|
    ensures |r| == |s| - 1
    ensures forall k :: 0 <= k < i ==> r[k] == s[k]
    ensures forall k :: i <= k < |r| ==> r[k] == s[k + 1]
  {
    s[..i] + s[i + 1..]
  }

  /** The sequence `s` with `v` placed at `i` and the rest moved one place up. */
  function InsertedAt<T>(s: seq<T>, i: nat, v: T): (r: seq<T>)
    requires i <= |s|
    ensures |r| == |s| + 1
    ensures r[i] == v
    ensures forall k :: 0 <= k < i ==> r[k] == s[k]
    ensures forall k :: i < k < |r| ==> r[k] == s[k - 1]
  {
    s[..i] + [v] + s[i..]
  }

  /** Removing what was just inserted at the same index gives the original back. */
  lemma InsertThenRemove<T>(s: seq<T>, i: nat, v: T)
    requires i <= |s|
    ensures RemovedAt(InsertedAt(s, i, v), i) == s
  {
    var r := RemovedAt(InsertedAt(s, i, v), i);
    assert |r| == |s|;
    forall k | 0 <= k < |s| ensures r[k] == s[k] {
      if k >= i {
        assert r[k] == InsertedAt(s, i, v)[k + 1];
      }
    }
  }

  /** Inserting back the element just removed gives the original back. */
  lemma RemoveThenInsert<T>(s: seq<T>, i: nat)
    requires i < |s|
    ensures InsertedAt(RemovedAt(s, i), i, s[i]) == s
  {
    var r := InsertedAt(RemovedAt(s, i), i, s[i]);
    assert |r| == |s|;
    forall k | 0 <= k < |s| ensures r[k] == s[k] {
      if k > i {
        assert r[k] == RemovedAt(s, i)[k - 1];
      }
    }
  }

  class DArray<T> {
    // The three header words, indexed by CAPACITY, LENGTH and STRIDE.
    var header: array<nat>
    // The element slots; there are exactly `capacity` of them.
    var data: array<T>
    // The element whose bytes are all zero: the value of every fresh slot.
    const zero: T
    // The bytes the allocator handed out for this array at its last create or resize.
    ghost var allocatedBytes: nat

    ghost predicate Valid()
      reads this, header
    {
      && header as object != data as object
      && header.Length == FIELD_LENGTH
      && data.Length == header[CAPACITY]
      && header[LENGTH] <= header[CAPACITY]
      && allocatedBytes == AllocationSize(header[CAPACITY], header[STRIDE])
    }

    /** `_darray_field_get`: one header word. */
    function Field(field: nat): (r: nat)
      reads this, header
      requires field < header.Length
      ensures Valid() && field == CAPACITY ==> r == data.Length
      ensures Valid() && field == LENGTH ==> r <= data.Length
    {
      header[field]
    }

    /** `darray_capacity`: the number of element slots. */
    function Capacity(): (r: nat)
      reads this, header
      requires Valid()
      ensures r == data.Length
    {
      Field(CAPACITY)
    }

    /** `darray_length`: the number of elements in use, never more than the capacity. */
    function Length(): (r: nat)
      reads this, header
      requires Valid()
      ensures r <= Capacity()
    {
      Field(LENGTH)
    }

    /** `darray_stride`: the element size, which with the capacity gives the bytes allocated. */
    function Stride(): (r: nat)
      reads this, header
      requires Valid()
      ensures AllocationSize(Capacity(), r) == allocatedBytes
    {
      Field(STRIDE)
    }

    /** The elements in use, in order. */
    function Contents(): (s: seq<T>)
      reads this, header, data
      requires Valid()
      ensures |s| == Length()
    {
      data[..header[LENGTH]]
    }

    /**
     * `_darray_create(length, stride)`: `length` zeroed slots, length 0, and
     * the stride recorded in the header.
     */
    constructor Create(length: nat, stride: nat, zero: T)
      ensures Valid() && fresh(header) && fresh(data)
      ensures Capacity() == length && Length() == 0 && Stride() == stride
      ensures allocatedBytes == AllocationSize(length, stride)
      ensures Contents() == []
      ensures this.zero == zero
      ensures forall i :: 0 <= i < data.Length ==> data[i] == zero
    {
      this.zero := zero;
      var h := new nat[FIELD_LENGTH];
      h[CAPACITY], h[LENGTH], h[STRIDE] := length, 0, stride;
      header := h;
      data := new T[length](_ => zero);
      allocatedBytes := AllocationSize(length, stride);
    }

    /**
     * `_darray_destroy`: the number of bytes handed back to the allocator,
     * which is what the last create or resize of this array allocated.
     */
    method Destroy() returns (freed: nat)
      requires Valid()
      ensures freed == allocatedBytes
      ensures freed >= HEADER_BYTES
    {
      freed := HEADER_BYTES + Field(CAPACITY) * Field(STRIDE);
    }

    /** `_darray_field_set`: rewrites one header word and nothing else. */
    method FieldSet(field: nat, value: nat)
      requires field < header.Length
      modifies header
      ensures header[..] == old(header[..])[field := value]
    {
      header[field] := value;
    }

    /** `darray_clear`: length becomes 0, capacity, stride and slots stay. */
    method Clear()
      requires Valid()
      modifies header
      ensures Valid()
      ensures Contents() == []
      ensures Capacity() == old(Capacity()) && Stride() == old(Stride())
      ensures allocatedBytes == old(allocatedBytes)
    {
      FieldSet(LENGTH, 0);
    }

    /** `darray_length_set`: writes exactly the LENGTH word. */
    method LengthSet(value: nat)
      requires Valid() && value <= Capacity()
      modifies header
      ensures Valid()
      ensures Length() == value
      ensures Capacity() == old(Capacity()) && Stride() == old(Stride())
      ensures allocatedBytes == old(allocatedBytes)
      ensures Contents() == data[..value]
    {
      FieldSet(LENGTH, value);
    }

    /**
     * `_darray_resize`: a fresh array of the grown capacity holding the same
     * elements, length and stride; the slots past the length are zeroed.
     */
    method Resize()
      requires Valid()
      modifies this
      ensures Valid() && fresh(header) && fresh(data)
      ensures Capacity() == GrownCapacity(old(Capacity()))
      ensures Length() == old(Length()) && Stride() == old(Stride())
      ensures allocatedBytes == AllocationSize(GrownCapacity(old(Capacity())), old(Stride()))
      ensures Contents() == old(Contents())
      ensures forall i :: Length() <= i < data.Length ==> data[i] == zero
    {
      var length := Length();
      var stride := Stride();
      var temp := new DArray.Create(GrownCapacity(Capacity()), stride, zero);
      CopyPrefix(data, temp.data, length);
      temp.FieldSet(LENGTH, length);
      var _ := Destroy();
      header, data := temp.header, temp.data;
      allocatedBytes := temp.allocatedBytes;
    }

    /**
     * `_darray_push`: appends `value`, resizing first when the array is
     * full, so the length never exceeds the capacity.
     */
    method Push(value: T)
      requires Valid()
      modifies this, header, data
      ensures Valid()
      ensures Contents() == old(Contents()) + [value]
      ensures Stride() == old(Stride())
      ensures Capacity() == if old(Length()) < old(Capacity()) then old(Capacity())
                            else GrownCapacity(old(Capacity()))
      ensures old(Length()) < old(Capacity()) ==> header == old(header) && data == old(data)
      ensures allocatedBytes == if old(Length()) < old(Capacity()) then old(allocatedBytes)
                           else AllocationSize(GrownCapacity(old(Capacity())), old(Stride()))
      ensures header != old(header) ==> fresh(header)
      ensures data != old(data) ==> fresh(data)
    {
      var length := Length();
      if length >= Capacity() {
        Resize();
      }
      data[length] := value;
      FieldSet(LENGTH, length + 1);
    }

    /** `_darray_pop`: takes the last element off; the caller ensures it exists. */
    method Pop() returns (value: T)
      requires Valid() && Length() > 0
      modifies header
      ensures Valid()
      ensures value == old(Contents())[old(Length()) - 1]
      ensures Contents() == old(Contents())[..old(Length()) - 1]
      ensures Capacity() == old(Capacity()) && Stride() == old(Stride())
      ensures allocatedBytes == old(allocatedBytes)
    {
      var length := Length();
      value := data[length - 1];
      FieldSet(LENGTH, length - 1);
    }

    /**
     * `_darray_pop_at`: an index outside the array is reported and changes
     * nothing; otherwise the element is returned and the later ones move one
     * slot down.
     */
    method PopAt(index: nat) returns (popped: Option<T>)
      requires Valid()
      modifies header, data
      ensures Valid()
      ensures Capacity() == old(Capacity()) && Stride() == old(Stride())
      ensures allocatedBytes == old(allocatedBytes)
      ensures index >= old(Length()) ==> popped == None && Contents() == old(Contents())
      ensures index < old(Length()) ==>
        popped == Some(old(Contents())[index]) && Contents() == RemovedAt(old(Contents()), index)
    {
      var length := Length();
      if index >= length {
        return None;
      }
      popped := Some(data[index]);
      ghost var s := data[..length];
      var i := index;
      while i + 1 < length
        invariant index <= i < length
        invariant forall k :: 0 <= k < index ==> data[k] == s[k]
        invariant forall k :: index <= k < i ==> data[k] == s[k + 1]
        invariant forall k :: i <= k < length ==> data[k] == s[k]
        modifies data
      {
        data[i] := data[i + 1];
        i := i + 1;
      }
      FieldSet(LENGTH, length - 1);
      assert Contents() == RemovedAt(s, index);
    }

    /**
     * `_darray_insert_at`: an index at or past the length is reported and
     * changes nothing; otherwise the array grows if full, the elements from
     * `index` on move one slot up and `value` takes slot `index`.
     */
    method InsertAt(index: nat, value: T) returns (ok: bool)
      requires Valid()
      modifies this, header, data
      ensures Valid()
      ensures Stride() == old(Stride())
      ensures ok == (index < old(Length()))
      ensures !ok ==> Contents() == old(Contents()) && Capacity() == old(Capacity())
      ensures allocatedBytes == if !ok || old(Length()) < old(Capacity()) then old(allocatedBytes)
                           else AllocationSize(GrownCapacity(old(Capacity())), old(Stride()))
      ensures ok ==> Contents() == InsertedAt(old(Contents()), index, value)
      ensures ok ==> Capacity() == if old(Length()) < old(Capacity()) then old(Capacity())
                                   else GrownCapacity(old(Capacity()))
      ensures header != old(header) ==> fresh(header)
      ensures data != old(data) ==> fresh(data)
    {
      var length := Length();
      if index >= length {
        return false;
      }
      if length >= Capacity() {
        Resize();
      }
      MakeRoom(index, length, value);
      FieldSet(LENGTH, length + 1);
      ok := true;
    }

    /**
     * The memmove of insert_at followed by the store of `value`: slots
     * `index` .. `length - 1` move one place up and `value` takes slot `index`.
     */
    method MakeRoom(index: nat, length: nat, value: T)
      requires index <= length < data.Length
      modifies data
      ensures data[..length + 1] == InsertedAt(old(data[..length]), index, value)
    {
      ghost var s := data[..length];
      var j := length;
      while j > index
        invariant index <= j <= length
        invariant forall k :: 0 <= k < j ==> data[k] == s[k]
        invariant forall k :: j < k <= length ==> data[k] == s[k - 1]
        modifies data
      {
        data[j] := data[j - 1];
        j := j - 1;
      }
      data[index] := value;
      assert data[..length + 1] == InsertedAt(s, index, value);
    }
  }

  /** The memcpy of resize: the first `n` slots of `src` into `dst`, the rest of `dst` untouched. */
  method CopyPrefix<T>(src: array<T>, dst: array<T>, n: nat)
    requires src != dst && n <= src.Length && n <= dst.Length
    modifies dst
    ensures dst[..n] == src[..n]
    ensures dst[n..] == old(dst[n..])
  {
    var i := 0;
    while i < n
      invariant 0 <= i <= n
      invariant forall k :: 0 <= k < i ==> dst[k] == src[k]
      invariant forall k :: i <= k < dst.Length ==> dst[k] == old(dst[k])
    {
      dst[i] := src[i];
      i := i + 1;
    }
  }

  /** `darray_create(type)`: an empty array with DEFAULT_CAPACITY slots. */
  method NewDefault<T>(stride: nat, zero: T) returns (a: DArray<T>)
    ensures fresh(a) && fresh(a.header) && fresh(a.data)
    ensures a.Valid() && a.Contents() == []
    ensures a.Capacity() == DEFAULT_CAPACITY && a.Stride() == stride
  {
    a := new DArray.Create(DEFAULT_CAPACITY, stride, zero);
  }

  /** `darray_reserve(type, capacity)`: an empty array with the given capacity. */
  method Reserve<T>(capacity: nat, stride: nat, zero: T) returns (a: DArray<T>)
    ensures fresh(a) && fresh(a.header) && fresh(a.data)
    ensures a.Valid() && a.Contents() == []
    ensures a.Capacity() == capacity && a.Stride() == stride
  {
    a := new DArray.Create(capacity, stride, zero);
  }
}
