/** Buffer: a device buffer holding `instanceCount` instances of `instanceSize` bytes, each
    instance padded to a multiple of the device's minimum offset alignment. The host-visible
    memory is a byte array that can be mapped, written (whole, at an offset, or per instance),
    flushed, invalidated and unmapped. */
module Buffers {
  import opened Vulkan

  // ---------------------------------------------------------------------------------------
  // 64-bit unsigned arithmetic (VkDeviceSize)

  const U64Modulus: nat := 0x1_0000_0000_0000_0000
  type u64 = x: nat | x < U64Modulus

  /** Arithmetic modulo 2^64, as C++ does it on uint64_t. */
  function Wrap64(x: int): (r: u64)
    ensures 0 <= x < U64Modulus ==> r == x
  {
    x % U64Modulus
  }

  /** VK_WHOLE_SIZE, (~0ULL). */
  const WholeSize: u64 := U64Modulus - 1

  function Pow2(k: nat): (p: nat)
    ensures p > 0
  {
    if k == 0 then 1 else 2 * Pow2(k - 1)
  }

  /** Bitwise and of two naturals, bit by bit from the least significant. */
  function And(x: nat, y: nat): (r: nat)
    ensures r <= x
    decreases x
  {
    if x == 0 || y == 0 then 0
    else 2 * And(x / 2, y / 2) + (if x % 2 == 1 && y % 2 == 1 then 1 else 0)
  }

  /** Bitwise complement of a 64-bit value. */
  function Not64(x: u64): u64 {
    U64Modulus - 1 - x
  }

  predicate IsPowerOfTwo(a: nat) {
    exists k: nat :: k < 64 && a == Pow2(k)
  }

  predicate IsMultipleOf(m: nat, a: nat) {
    a > 0 && m % a == 0
  }

  lemma {:induction false} Pow2Add(j: nat, k: nat)
    ensures Pow2(j + k) == Pow2(j) * Pow2(k)
    decreases j
  {
    if j > 0 {
      Pow2Add(j - 1, k);
    }
  }

  lemma Pow2_64()
    ensures Pow2(64) == U64Modulus
  {
    assert Pow2(2) == 4;
    Pow2Add(2, 2);
    assert Pow2(4) == 0x10;
    Pow2Add(4, 4);
    assert Pow2(8) == 0x100;
    Pow2Add(8, 8);
    assert Pow2(16) == 0x1_0000;
    Pow2Add(16, 16);
    assert Pow2(32) == 0x1_0000_0000;
    Pow2Add(32, 32);
  }

  lemma {:induction false} Pow2Monotone(j: nat, k: nat)
    requires j <= k
    ensures Pow2(j) <= Pow2(k)
    decreases k
  {
    if j < k {
      Pow2Monotone(j, k - 1);
    }
  }

  lemma MulMonotone(c: nat, m: nat)
    requires c >= 1
    ensures c * m >= m
  {
  }

  /** Division with remainder has one answer. */
  lemma DivModUnique(x: nat, m: nat, q: nat, r: nat)
    requires 0 <= r < m && x == q * m + r
    ensures x / m == q && x % m == r
  {
    var q', r' := x / m, x % m;
    assert x == q' * m + r';
    if q' < q {
      assert q * m == q' * m + (q - q') * m;
      MulMonotone(q - q', m);
    } else if q' > q {
      assert q' * m == q * m + (q' - q) * m;
      MulMonotone(q' - q, m);
    }
  }

  /** The low k bits of x are its lowest bit and the low k-1 bits of x / 2. */
  lemma ModPow2Split(x: nat, k: nat)
    requires k > 0
    ensures x % Pow2(k) == 2 * ((x / 2) % Pow2(k - 1)) + x % 2
  {
    var p := Pow2(k - 1);
    var h := x / 2;
    var q, r := h / p, h % p;
    assert h == q * p + r;
    assert Pow2(k) == 2 * p;
    assert x == 2 * h + x % 2;
    assert 2 * (q * p) == q * (2 * p);
    assert x == q * Pow2(k) + (2 * r + x % 2);
    DivModUnique(x, Pow2(k), q, 2 * r + x % 2);
  }

  /** And with w one-bits keeps any w-bit value. */
  lemma {:induction false} AndOnes(x: nat, w: nat)
    requires x < Pow2(w)
    ensures And(x, Pow2(w) - 1) == x
    decreases w
  {
    if x != 0 {
      assert w > 0;
      assert (Pow2(w) - 1) / 2 == Pow2(w - 1) - 1 && (Pow2(w) - 1) % 2 == 1;
      AndOnes(x / 2, w - 1);
    }
  }

  /** Clearing the low k bits of a w-bit value rounds it down to a multiple of 2^k. */
  lemma {:induction false} AndClearsLowBits(x: nat, w: nat, k: nat)
    requires k <= w && x < Pow2(w) && Pow2(k) <= Pow2(w)
    ensures And(x, Pow2(w) - Pow2(k)) == x - x % Pow2(k)
    decreases k
  {
    if k == 0 {
      AndOnes(x, w);
    } else if x == 0 {
    } else if w == k {
      DivModUnique(x, Pow2(k), 0, x);
    } else {
      var y := Pow2(w) - Pow2(k);
      assert y / 2 == Pow2(w - 1) - Pow2(k - 1) && y % 2 == 0;
      Pow2Monotone(k - 1, w - 1);
      AndClearsLowBits(x / 2, w - 1, k - 1);
      ModPow2Split(x, k);
    }
  }

  // ---------------------------------------------------------------------------------------
  // Instance alignment

  /** GetAlignment: round `instanceSize` up with `(size + a - 1) & ~(a - 1)` when an alignment
      is given; all arithmetic is on 64 bits. */
  function GetAlignment(instanceSize: u64, minOffsetAlignment: u64): u64 {
    if minOffsetAlignment > 0
    then And(Wrap64(instanceSize + minOffsetAlignment - 1), Not64(minOffsetAlignment - 1))
    else instanceSize
  }

  /** Without an alignment requirement the instance size is kept. */
  lemma GetAlignmentWithoutAlignment(instanceSize: u64)
    ensures GetAlignment(instanceSize, 0) == instanceSize
  {
  }

  /** Rounding down to a multiple: x - x % a is the multiple of a within a of x. */
  lemma RoundDown(x: nat, a: nat)
    requires a > 0
    ensures IsMultipleOf(x - x % a, a) && x - x % a <= x < x - x % a + a
  {
    assert x - x % a == (x / a) * a;
    DivModUnique(x - x % a, a, x / a, 0);
  }

  /** Two different multiples of a are at least a apart. */
  lemma MultiplesApart(m: nat, r: nat, a: nat)
    requires IsMultipleOf(m, a) && IsMultipleOf(r, a) && m < r
    ensures m + a <= r
  {
    assert m == (m / a) * a && r == (r / a) * a;
    assert r - m == (r / a - m / a) * a;
    MulMonotone(r / a - m / a, a);
  }

  /** For a power-of-two alignment the mask rounds the 64-bit sum down to a multiple. */
  lemma MaskRoundsDown(n: u64, a: u64)
    requires IsPowerOfTwo(a) && n + a - 1 < U64Modulus
    ensures GetAlignment(n, a) == (n + a - 1) - (n + a - 1) % a
  {
    var k: nat :| k < 64 && a == Pow2(k);
    var x := n + a - 1;
    Pow2_64();
    Pow2Monotone(k, 64);
    assert Wrap64(x) == x;
    assert Not64(a - 1) == Pow2(64) - Pow2(k);
    AndClearsLowBits(x, 64, k);
  }

  /** Rounding n + a - 1 down gives the least multiple of a that is at least n. */
  lemma LeastMultipleAbove(n: nat, a: nat, r: nat)
    requires a > 0 && r == (n + a - 1) - (n + a - 1) % a
    ensures IsMultipleOf(r, a) && n <= r < n + a
    ensures forall m: nat :: IsMultipleOf(m, a) && n <= m ==> r <= m
  {
    RoundDown(n + a - 1, a);
    forall m: nat | IsMultipleOf(m, a) && n <= m
      ensures r <= m
    {
      if m < r {
        MultiplesApart(m, r, a);
      }
    }
  }

  /** For a power-of-two alignment, barring 64-bit overflow, GetAlignment gives the least
      multiple of the alignment that is at least the instance size. */
  lemma GetAlignmentRoundsUp(n: u64, a: u64)
    requires IsPowerOfTwo(a) && n + a - 1 < U64Modulus
    ensures var r := GetAlignment(n, a);
      IsMultipleOf(r, a) && n <= r < n + a
      && forall m: nat :: IsMultipleOf(m, a) && n <= m ==> r <= m
  {
    MaskRoundsDown(n, a);
    assert a > 0;
    LeastMultipleAbove(n, a, GetAlignment(n, a));
  }

  /** The trick needs a power of two: with alignment 3 a one-byte instance stays one byte. */
  lemma GetAlignmentNeedsPowerOfTwo()
    ensures GetAlignment(1, 3) == 1 && !IsMultipleOf(GetAlignment(1, 3), 3)
  {
    assert Not64(2) == Pow2(64) - 3 by { Pow2_64(); }
    calc {
      And(3, Pow2(64) - 3);
      2 * And(1, (Pow2(64) - 3) / 2) + 1;
      { assert (Pow2(64) - 3) / 2 == 2 * Pow2(62) - 2; }
      2 * And(1, 2 * Pow2(62) - 2) + 1;
      1;
    }
  }

  /** Near the top of the range the sum wraps: the largest size rounds to 0. */
  lemma GetAlignmentOverflows()
    ensures GetAlignment(WholeSize, 2) == 0
  {
    assert Wrap64(WholeSize + 2 - 1) == 0;
  }

  // ---------------------------------------------------------------------------------------
  // Instance slots

  /** `index * m_AlignmentSize` for an int index: the index is converted to 64 bits and the
      product taken modulo 2^64. */
  function IndexOffset(index: i32, alignment: u64): (r: u64)
    ensures 0 <= index && index * alignment < U64Modulus ==> r == index * alignment
  {
    var product := index * alignment;
    Wrap64(product)
  }

  /** With a power-of-two alignment and no overflow, the instance written at index i ends
      before the slot of any later index begins, so different indices touch disjoint bytes;
      and every slot below the instance count lies inside the buffer. */
  lemma InstanceSlotsDisjoint(n: u64, a: u64, count: u32, i: i32, j: i32)
    requires IsPowerOfTwo(a) && n + a - 1 < U64Modulus
    requires 0 <= i < j < count && GetAlignment(n, a) * count < U64Modulus
    ensures var size := GetAlignment(n, a);
      && IndexOffset(i, size) + n <= IndexOffset(j, size)
      && IndexOffset(i, size) + size <= Wrap64(size * count)
      && IndexOffset(j, size) + size <= Wrap64(size * count)
  {
    var size := GetAlignment(n, a);
    GetAlignmentRoundsUp(n, a);
    assert i * size <= j * size <= count * size by {
      MulLeq(i, j, size);
      MulLeq(j, count, size);
    }
    assert (i + 1) * size <= j * size by { MulLeq(i + 1, j, size); }
    assert (j + 1) * size <= count * size by { MulLeq(j + 1, count, size); }
  }

  lemma MulLeq(x: nat, y: nat, m: nat)
    requires x <= y
    ensures x * m <= y * m
  {
    assert y * m == x * m + (y - x) * m;
  }

  // ---------------------------------------------------------------------------------------
  // Bytes

  /** `d` copied over `m` starting at byte `start`. */
  function Overwrite(m: seq<bv8>, start: nat, d: seq<bv8>): (r: seq<bv8>)
    requires start + |d| <= |m|
  {
    seq(|m|, k requires 0 <= k < |m| => if start <= k < start + |d| then d[k - start] else m[k])
  }

  /** An overwrite puts exactly `d` at `start` and leaves every other byte as it was. */
  lemma OverwritePlacesData(m: seq<bv8>, start: nat, d: seq<bv8>)
    requires start + |d| <= |m|
    ensures var r := Overwrite(m, start, d);
      |r| == |m| && r[start..start + |d|] == d && r[..start] == m[..start] && r[start + |d|..] == m[start + |d|..]
  {
    var r := Overwrite(m, start, d);
    assert r[start..start + |d|] == d by {
      forall k | 0 <= k < |d| ensures r[start..start + |d|][k] == d[k] {
        assert r[start + k] == d[k];
      }
    }
  }

  /** Writes to disjoint ranges commute and do not see each other. */
  lemma OverwritesCommute(m: seq<bv8>, s1: nat, d1: seq<bv8>, s2: nat, d2: seq<bv8>)
    requires s1 + |d1| <= |m| && s2 + |d2| <= |m|
    requires s1 + |d1| <= s2 || s2 + |d2| <= s1
    ensures Overwrite(Overwrite(m, s1, d1), s2, d2) == Overwrite(Overwrite(m, s2, d2), s1, d1)
    ensures Overwrite(Overwrite(m, s1, d1), s2, d2)[s1..s1 + |d1|] == d1
  {
    var r := Overwrite(Overwrite(m, s1, d1), s2, d2);
    assert r[s1..s1 + |d1|] == d1 by {
      forall k | 0 <= k < |d1| ensures r[s1..s1 + |d1|][k] == d1[k] {
        assert r[s1 + k] == d1[k];
      }
    }
  }

  /** Where the mapped pointer points: nowhere, or `size` bytes at `offset` in memory. */
  datatype Mapping = Unmapped | Mapped(offset: nat, size: nat)

  /** Whether a WriteToBuffer with these arguments stays inside the mapping and the data. */
  predicate WriteFits(m: Mapping, bufferSize: u64, data: seq<bv8>, size: u64, offset: u64) {
    m.Mapped? &&
    if size == WholeSize then bufferSize <= m.size && bufferSize <= |data|
    else offset + size <= m.size && size <= |data|
  }

  /** The first byte a WriteToBuffer writes, and how many it writes: with VK_WHOLE_SIZE the
      whole buffer from the start of the mapping, otherwise `size` bytes at `offset`. */
  function WriteStart(m: Mapping, size: u64, offset: u64): nat
    requires m.Mapped?
  {
    m.offset + if size == WholeSize then 0 else offset
  }

  function WriteLength(bufferSize: u64, size: u64): nat {
    if size == WholeSize then bufferSize else size
  }

  /** The memory after WriteToBuffer. */
  function Written(mem: seq<bv8>, m: Mapping, bufferSize: u64, data: seq<bv8>, size: u64, offset: u64): seq<bv8>
    requires WriteFits(m, bufferSize, data, size, offset) && m.offset + m.size <= |mem|
  {
    Overwrite(mem, WriteStart(m, size, offset), data[..WriteLength(bufferSize, size)])
  }

  /** With VK_WHOLE_SIZE the first bufferSize bytes of the data land at the start of the
      mapping whatever the offset; otherwise exactly `size` bytes land at `offset` within the
      mapping. Nothing else changes either way. */
  lemma WriteToBufferPlaces(mem: seq<bv8>, m: Mapping, bufferSize: u64, data: seq<bv8>, size: u64, offset: u64)
    requires WriteFits(m, bufferSize, data, size, offset) && m.offset + m.size <= |mem|
    ensures size == WholeSize ==>
      forall other: u64 :: Written(mem, m, bufferSize, data, size, offset) == Written(mem, m, bufferSize, data, size, other)
    ensures var r := Written(mem, m, bufferSize, data, size, offset);
      var start := m.offset + (if size == WholeSize then 0 else offset);
      var n := if size == WholeSize then bufferSize else size;
      |r| == |mem| && r[start..start + n] == data[..n]
      && r[..start] == mem[..start] && r[start + n..] == mem[start + n..]
  {
    OverwritePlacesData(mem, WriteStart(m, size, offset), data[..WriteLength(bufferSize, size)]);
  }

  // ---------------------------------------------------------------------------------------
  // Mapping and the driver calls

  datatype BufferCall =
    | CreateBuffer(size: u64, usage: nat, properties: nat)
    | MapMemory(offset: u64, size: u64)
    | UnmapMemory
    | FlushMappedRange(offset: u64, size: u64)
    | InvalidateMappedRange(offset: u64, size: u64)
    | DestroyBuffer
    | FreeMemory

  /** VkDescriptorBufferInfo. */
  datatype DescriptorBufferInfo = DescriptorBufferInfo(buffer: nat, offset: u64, range: u64)

  /** The mapping and the driver calls of a Buffer. */
  datatype MapState = MapState(mapping: Mapping, calls: seq<BufferCall>)

  /** Map: vkMapMemory maps `size` bytes at `offset` (the rest of the memory for VK_WHOLE_SIZE)
      when the driver succeeds. */
  function AfterMap(s: MapState, length: nat, size: u64, offset: u64, result: VkResult): MapState
    requires offset <= length
  {
    var mapping := if result == Success then Mapped(offset, if size == WholeSize then length - offset else size) else s.mapping;
    MapState(mapping, s.calls + [MapMemory(offset, size)])
  }

  /** Unmap: unmap only when mapped. */
  function AfterUnmap(s: MapState): MapState {
    if s.mapping.Mapped? then MapState(Unmapped, s.calls + [UnmapMemory]) else s
  }

  /** The destructor: Unmap, then destroy the buffer and free its memory. */
  function AfterDestroy(s: MapState): MapState {
    var u := AfterUnmap(s);
    u.(calls := u.calls + [DestroyBuffer, FreeMemory])
  }

  /** Unmap is idempotent, always leaves the buffer unmapped, and calls vkUnmapMemory exactly
      when there was a mapping. */
  lemma UnmapIdempotent(s: MapState)
    ensures AfterUnmap(AfterUnmap(s)) == AfterUnmap(s)
    ensures AfterUnmap(s).mapping == Unmapped
    ensures AfterUnmap(s).calls == s.calls + (if s.mapping.Mapped? then [UnmapMemory] else [])
  {
  }

  /** The destructor never frees mapped memory: a live mapping is unmapped before the buffer
      is destroyed and its memory freed. */
  lemma DestroyUnmapsFirst(s: MapState)
    ensures var d := AfterDestroy(s);
      && d.mapping == Unmapped
      && d.calls == s.calls + (if s.mapping.Mapped? then [UnmapMemory, DestroyBuffer, FreeMemory] else [DestroyBuffer, FreeMemory])
  {
  }

  /** A successful Map followed by Unmap restores the mapping state. */
  lemma MapThenUnmap(s: MapState, length: nat, size: u64, offset: u64)
    requires s.mapping == Unmapped && offset <= length
    ensures AfterMap(s, length, size, offset, Success).mapping.Mapped?
    ensures AfterUnmap(AfterMap(s, length, size, offset, Success)) == MapState(Unmapped, s.calls + [MapMemory(offset, size), UnmapMemory])
  {
  }

  class Buffer {
    const handle: nat                   // m_Buffer
    const instanceSize: u64
    const instanceCount: u32
    const usageFlags: nat
    const memoryPropertyFlags: nat
    const alignmentSize: u64
    const bufferSize: u64
    const memory: array<bv8>            // the bytes of m_Memory
    var live: bool                      // m_Buffer and m_Memory not yet released
    var mapping: Mapping                // m_Mapped
    var calls: seq<BufferCall>

    predicate Valid()
      reads this
    {
      memory.Length == bufferSize && (mapping.Mapped? ==> mapping.offset + mapping.size <= memory.Length)
    }

    function State(): MapState
      reads this
    {
      MapState(mapping, calls)
    }

    /** Buffer(device, instanceSize, instanceCount, usage, properties, minOffsetAlignment): the
        aligned instance size, the total size, and one device buffer of that size. */
    constructor (handle: nat, instanceSize: u64, instanceCount: u32, usageFlags: nat, memoryPropertyFlags: nat, minOffsetAlignment: u64)
      ensures Valid() && live && fresh(memory)
      ensures this.handle == handle && this.instanceSize == instanceSize && this.instanceCount == instanceCount
      ensures alignmentSize == GetAlignment(instanceSize, minOffsetAlignment)
      ensures bufferSize == Wrap64(alignmentSize * instanceCount)
      ensures State() == MapState(Unmapped, [CreateBuffer(bufferSize, usageFlags, memoryPropertyFlags)])
    {
      this.handle := handle;
      this.instanceSize, this.instanceCount := instanceSize, instanceCount;
      this.usageFlags, this.memoryPropertyFlags := usageFlags, memoryPropertyFlags;
      var alignment := GetAlignment(instanceSize, minOffsetAlignment);
      var size := Wrap64(alignment * instanceCount);
      alignmentSize, bufferSize := alignment, size;
      memory := new bv8[size];
      live := true;
      mapping := Unmapped;
      calls := [CreateBuffer(size, usageFlags, memoryPropertyFlags)];
    }

    method Map(size: u64, offset: u64, result: VkResult) returns (r: VkResult)
      requires live
      requires Valid() && mapping == Unmapped
      requires offset <= memory.Length && (size != WholeSize ==> offset + size <= memory.Length)
      modifies this
      ensures Valid() && live && r == result
      ensures State() == AfterMap(old(State()), memory.Length, size, offset, result)
    {
      calls := calls + [MapMemory(offset, size)];
      if result == Success {
        mapping := Mapped(offset, if size == WholeSize then memory.Length - offset else size);
      }
      r := result;
    }

    method Unmap()
      modifies this
      ensures State() == AfterUnmap(old(State())) && live == old(live)
      ensures old(Valid()) ==> Valid()
    {
      if mapping.Mapped? {
        calls := calls + [UnmapMemory];
        mapping := Unmapped;
      }
    }

    /** The memcpy into the mapped range. */
    method WriteToBuffer(data: seq<bv8>, size: u64, offset: u64)
      requires Valid() && WriteFits(mapping, bufferSize, data, size, offset)
      modifies memory
      ensures memory[..] == Written(old(memory[..]), mapping, bufferSize, data, size, offset)
    {
      var start := WriteStart(mapping, size, offset);
      var n := WriteLength(bufferSize, size);
      for i := 0 to n
        invariant forall k :: 0 <= k < memory.Length ==>
          memory[k] == if start <= k < start + i then data[k - start] else old(memory[k])
      {
        memory[start + i] := data[i];
      }
      assert memory[..] == Overwrite(old(memory[..]), start, data[..n]);
    }

    /** Write one instance at its slot. */
    method WriteToIndex(data: seq<bv8>, index: i32)
      requires Valid() && WriteFits(mapping, bufferSize, data, instanceSize, IndexOffset(index, alignmentSize))
      modifies memory
      ensures memory[..] == Written(old(memory[..]), mapping, bufferSize, data, instanceSize, IndexOffset(index, alignmentSize))
    {
      WriteToBuffer(data, instanceSize, IndexOffset(index, alignmentSize));
    }

    method Flush(size: u64, offset: u64, result: VkResult) returns (r: VkResult)
      modifies this
      ensures live == old(live) && (old(Valid()) ==> Valid())
      ensures State() == old(State()).(calls := old(calls) + [FlushMappedRange(offset, size)]) && r == result
    {
      calls := calls + [FlushMappedRange(offset, size)];
      r := result;
    }

    method Invalidate(size: u64, offset: u64, result: VkResult) returns (r: VkResult)
      modifies this
      ensures live == old(live) && (old(Valid()) ==> Valid())
      ensures State() == old(State()).(calls := old(calls) + [InvalidateMappedRange(offset, size)]) && r == result
    {
      calls := calls + [InvalidateMappedRange(offset, size)];
      r := result;
    }

    /** Flush the slot of instance `index`: alignmentSize bytes at its offset. */
    method FlushIndex(index: i32, result: VkResult) returns (r: VkResult)
      modifies this
      ensures live == old(live) && (old(Valid()) ==> Valid())
      ensures State() == old(State()).(calls := old(calls) + [FlushMappedRange(IndexOffset(index, alignmentSize), alignmentSize)])
      ensures r == result
    {
      r := Flush(alignmentSize, IndexOffset(index, alignmentSize), result);
    }

    method InvalidateIndex(index: i32, result: VkResult) returns (r: VkResult)
      modifies this
      ensures live == old(live) && (old(Valid()) ==> Valid())
      ensures State() == old(State()).(calls := old(calls) + [InvalidateMappedRange(IndexOffset(index, alignmentSize), alignmentSize)])
      ensures r == result
    {
      r := Invalidate(alignmentSize, IndexOffset(index, alignmentSize), result);
    }

    function DescriptorInfo(size: u64, offset: u64): (d: DescriptorBufferInfo)
      ensures d.buffer == handle && d.offset == offset && d.range == size
    {
      DescriptorBufferInfo(handle, offset, size)
    }

    /** The descriptor of instance `index`: its slot, alignmentSize bytes at index times the
        alignment. */
    function DescriptorInfoForIndex(index: i32): (d: DescriptorBufferInfo)
      ensures d.buffer == handle && d.range == alignmentSize
      ensures 0 <= index && index * alignmentSize < U64Modulus ==> d.offset == index * alignmentSize
    {
      DescriptorInfo(alignmentSize, IndexOffset(index, alignmentSize))
    }

    /** The destructor. */
    method Destroy()
      requires live
      modifies this
      ensures State() == AfterDestroy(old(State())) && !live
    {
      Unmap();
      calls := calls + [DestroyBuffer, FreeMemory];
      live := false;
    }
  }
}
