// Where create_mpmc_queue puts the slots inside one allocation.
module SlotLayout {
  import opened Arith
  import opened Words

  const CACHE_LINE_SIZE: Word := 64
  const SIZE_OF_SEQUENCE: Word := 8
  const SIZE_OF_POINTER: Word := 8
  const ALIGN_OF_MAX: Word := 16

  // Size 0 selects pointer mode.
  function CellSize(dataSize: Word): Word {
    if dataSize == 0 then SIZE_OF_POINTER else dataSize
  }

  function DataOffset(): Word {
    AlignUp(SIZE_OF_SEQUENCE, ALIGN_OF_MAX)
  }

  function SlotStride(dataSize: Word): Word {
    AlignUp(Wrap(DataOffset() + CellSize(dataSize)), CACHE_LINE_SIZE)
  }

  // None of the size computations wraps.
  predicate Fits(cap: nat, dataSize: Word) {
    && DataOffset() + CellSize(dataSize) + CACHE_LINE_SIZE - 1 < WORD
    && cap * SlotStride(dataSize) < WORD
  }

  lemma PowersOfTwo()
    ensures IsPow2(CACHE_LINE_SIZE) && IsPow2(ALIGN_OF_MAX)
  {
    assert Pow2(4) == 16;
    assert Pow2(6) == 4 * Pow2(4);
  }

  lemma Offset()
    ensures DataOffset() == 16
  {
    PowersOfTwo();
    AlignUpRounds(SIZE_OF_SEQUENCE, ALIGN_OF_MAX);
  }

  lemma Stride(dataSize: Word)
    requires DataOffset() + CellSize(dataSize) + CACHE_LINE_SIZE - 1 < WORD
    ensures SlotStride(dataSize) % CACHE_LINE_SIZE == 0
    ensures SlotStride(dataSize) >= DataOffset() + CellSize(dataSize)
    ensures SlotStride(dataSize) >= CACHE_LINE_SIZE
  {
    PowersOfTwo();
    Offset();
    hide IsPow2, AlignUp, DataOffset, CellSize;
    var size := DataOffset() + CellSize(dataSize);
    SmallMod(size, WORD);
    AlignUpRounds(size, CACHE_LINE_SIZE);
  }

  // The stride is the fewest cache lines that hold the sequence word, padded to 16
  // bytes, and the data; and this is what must not overflow.
  lemma StrideExact(cap: nat, dataSize: Word)
    ensures var data := if dataSize == 0 then 8 else dataSize;
            && (Fits(cap, dataSize) <==> data + 79 < WORD && cap * ((data + 79) / 64 * 64) < WORD)
            && (data + 79 < WORD ==> SlotStride(dataSize) == (data + 79) / 64 * 64)
  {
    Offset();
    var data := CellSize(dataSize);
    if data + 79 < WORD {
      var size := DataOffset() + data;
      PowersOfTwo();
      SmallMod(size, WORD);
      AlignUpRounds(size, CACHE_LINE_SIZE);
      hide IsPow2, AlignUp, DataOffset;
      DivMod(SlotStride(dataSize), CACHE_LINE_SIZE);
      OnlyMultiple(size, SlotStride(dataSize));
    }
  }

  lemma OnlyMultiple(size: nat, stride: nat)
    requires stride % 64 == 0 && size <= stride < size + 64
    ensures stride == (size + 63) / 64 * 64
  {
  }

  // Slot i's sequence word and data area are aligned, lie inside the allocation,
  // and end before slot j.
  predicate Apart(base: nat, cap: nat, i: nat, j: nat, stride: nat, offset: nat, cell: nat) {
    && (base + i * stride) % SIZE_OF_SEQUENCE == 0
    && (base + i * stride + offset) % ALIGN_OF_MAX == 0
    && SIZE_OF_SEQUENCE <= offset
    && i * stride + offset + cell <= j * stride <= cap * stride
  }

  // For a cache-line aligned base address, every capacity and every data size: room
  // for that many bytes, or for a pointer.
  lemma SlotsAreDisjoint(base: nat, cap: nat, dataSize: Word, i: nat, j: nat)
    requires Fits(cap, dataSize) && base % CACHE_LINE_SIZE == 0 && i < j <= cap
    ensures Apart(base, cap, i, j, SlotStride(dataSize), DataOffset(), if dataSize == 0 then 8 else dataSize)
  {
    assert CellSize(dataSize) == if dataSize == 0 then 8 else dataSize;
    Stride(dataSize);
    Offset();
    hide *;
    Placed(base, cap, i, j, SlotStride(dataSize), DataOffset(), CellSize(dataSize));
  }

  lemma Placed(base: nat, cap: nat, i: nat, j: nat, stride: nat, offset: nat, cell: nat)
    requires base % CACHE_LINE_SIZE == 0 && i < j <= cap
    requires stride % CACHE_LINE_SIZE == 0 && offset == 16 && offset + cell <= stride
    ensures Apart(base, cap, i, j, stride, offset, cell)
  {
    SlotAligned(base, i, stride);
    Spaced(i, j, cap, stride, offset + cell);
  }

  lemma SlotAligned(base: nat, i: nat, stride: nat)
    requires base % CACHE_LINE_SIZE == 0 && stride % CACHE_LINE_SIZE == 0
    ensures (base + i * stride) % SIZE_OF_SEQUENCE == 0 && (base + i * stride + 16) % ALIGN_OF_MAX == 0
  {
    MultipleOfLine(base, i, stride);
    AlignedParts(base + i * stride);
  }

  lemma Spaced(i: nat, j: nat, cap: nat, stride: nat, used: nat)
    requires i < j <= cap && used <= stride
    ensures i * stride + used <= j * stride <= cap * stride
  {
    MulMono(i + 1, j, stride);
    MulMono(j, cap, stride);
    Distribute(i, 1, stride);
  }

  lemma MultipleOfLine(base: nat, i: nat, stride: nat)
    requires base % CACHE_LINE_SIZE == 0 && stride % CACHE_LINE_SIZE == 0
    ensures (base + i * stride) % CACHE_LINE_SIZE == 0
  {
    DivMod(stride, CACHE_LINE_SIZE);
    var lines := stride / CACHE_LINE_SIZE;
    assert i * stride == (i * lines) * CACHE_LINE_SIZE;
    ModShift(base, i * lines, CACHE_LINE_SIZE);
  }

  lemma AlignedParts(address: nat)
    requires address % CACHE_LINE_SIZE == 0
    ensures address % SIZE_OF_SEQUENCE == 0 && (address + 16) % ALIGN_OF_MAX == 0
  {
  }

  // An allocation that does not overflow bounds the capacity far below the range
  // of the signed difference.
  lemma CapacityBound(cap: nat, dataSize: Word)
    requires Fits(cap, dataSize)
    ensures cap < WORD / CACHE_LINE_SIZE
  {
    Stride(dataSize);
    MulMono(CACHE_LINE_SIZE, SlotStride(dataSize), cap);
  }
}
