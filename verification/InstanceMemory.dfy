/** The memory limit option and the heap enlargement inside start, in `uint32_t` arithmetic. */
module InstanceMemory {
  import opened Prelude

  const PAGE: nat := 65536
  const DEFAULT_MAX_MEMORY: nat := 4194304

  /** What every option sequence leaves in `maxMemory`: whole pages, at least one. */
  predicate ValidLimit(limit: nat) {
    0 < limit < U32 && limit % PAGE == 0
  }

  /** The limit after a sequence of WAMR_EXT_INST_OPT_MAX_MEMORY values: the last one worth at
      least a page, rounded down to pages. */
  function LimitAfter(values: seq<nat>): nat {
    if values == [] then DEFAULT_MAX_MEMORY
    else
      var last := values[|values| - 1];
      if last >= PAGE then last - last % PAGE else LimitAfter(values[..|values| - 1])
  }

  ghost predicate Words(values: seq<nat>) {
    forall k :: 0 <= k < |values| ==> values[k] < U32
  }

  lemma {:induction false} LimitsAreWholePages(values: seq<nat>)
    requires Words(values)
    ensures ValidLimit(LimitAfter(values))
  {
    if values != [] {
      var last := values[|values| - 1];
      LimitsAreWholePages(values[..|values| - 1]);
    }
  }

  class InstanceConfig {
    var maxMemory: nat
    ghost var given: seq<nat>

    ghost predicate Valid() reads this {
      && Words(given)
      && maxMemory == LimitAfter(given)
    }

    constructor ()
      ensures Valid() && given == []
    {
      maxMemory := DEFAULT_MAX_MEMORY / PAGE * PAGE;
      given := [];
    }

    /** The MAX_MEMORY case of `WamrExtSetInstanceOpt`: too small a value is refused and
        changes nothing. */
    method SetMaxMemory(value: nat) returns (ok: bool)
      requires Valid() && value < U32
      modifies this
      ensures Valid() && given == old(given) + [value] && ValidLimit(maxMemory)
      ensures ok <==> value >= PAGE
      ensures ok ==> maxMemory <= value < maxMemory + PAGE
      ensures !ok ==> maxMemory == old(maxMemory)
    {
      var maxMem := value / PAGE * PAGE;
      assert maxMem == value - value % PAGE;
      ok := maxMem != 0;
      if ok {
        maxMemory := maxMem;
      }
      given := given + [value];
      assert given[..|given| - 1] == old(given);
      LimitsAreWholePages(given);
    }
  }

  /** `heapSize` as computed before the reallocation. */
  function EnlargedHeapSize(heapData: nat, heapDataEnd: nat, limit: nat, maxPages: nat, perPage: nat): nat
    requires heapData <= heapDataEnd
  {
    Wrap32((heapDataEnd - heapData) + Wrap32(limit - Wrap32(maxPages * perPage)))
  }

  /** With one page as large as the memory and the heap inside it, nothing wraps: the heap grows
      by exactly what the memory grows. */
  lemma HeapGrowsWithMemory(base: nat, size: nat, heapData: nat, heapDataEnd: nat, limit: nat)
    requires size < limit < U32 && base <= heapData <= heapDataEnd <= base + size
    ensures var heapSize := EnlargedHeapSize(heapData, heapDataEnd, limit, 1, size);
      && heapSize == (heapDataEnd - heapData) + (limit - size)
      && (heapData - base) + heapSize <= limit
      && limit - ((heapData - base) + heapSize) == size - (heapDataEnd - base)
  {
    assert Wrap32(1 * size) == size;
  }

  /** `assert(max == cur == 1)` compares the truth value of `max == cur` with 1. */
  predicate AssertAsWritten(maxPages: nat, curPages: nat) {
    (if maxPages == curPages then 1 else 0) == 1
  }

  /** So it accepts any equal page counts, while the enlarged memory, whose page size is set to
      the whole limit, has as many bytes as its pages only when the count is one. */
  lemma AssertIsTooWeak(pages: nat, limit: nat)
    requires ValidLimit(limit)
    ensures AssertAsWritten(pages, pages)
    ensures pages * limit == limit <==> pages == 1
  {
    assert pages * limit - limit == (pages - 1) * limit;
  }

  /** A default linear memory with its app heap. Pointers are addresses, 0 is null; `block` is
      how many bytes are allocated at `data`. */
  datatype Memory = Memory(
    data: nat,
    block: nat,
    size: nat,
    end: nat,
    heapData: nat,
    heapEnd: nat,
    heapHandle: nat,
    curPages: nat,
    maxPages: nat,
    perPage: nat,
    bounds: map<nat, nat>)      // access width -> largest offset admitted

  /** The sizes agree, the heap lies inside, and the counts are one page each, as instantiation
      leaves them. */
  predicate Consistent(m: Memory) {
    && 0 < m.data && 0 < m.size < U32 && m.block == m.size && m.end == m.data + m.size
    && m.data <= m.heapData < m.heapEnd <= m.end
    && m.heapHandle != 0
    && m.curPages == 1 && m.maxPages == 1 && m.perPage == m.size
  }

  /** The heap keeps its offset and its distance from the end. */
  predicate SameHeapPlace(m: Memory, m': Memory) {
    m'.heapData - m'.data == m.heapData - m.data && m'.end - m'.heapEnd == m.end - m.heapEnd
  }

  /** An access of `n` bytes at `offset` passes its bound check. */
  predicate Admits(m: Memory, n: nat, offset: nat) {
    n in m.bounds && offset <= m.bounds[n]
  }

  /** What start reads from `config.maxMemory`, statement by statement. It does not hold the lock
      under which the option is set, so each read may see another value. */
  datatype Reads = Reads(
    guard: nat,      // compared with the present size
    heap: nat,       // in the new heap size
    page: nat,       // the new page size
    block: nat,      // passed to realloc
    size: nat)       // the new memory size

  predicate ValidReads(r: Reads) {
    ValidLimit(r.guard) && ValidLimit(r.heap) && ValidLimit(r.page) && ValidLimit(r.block) && ValidLimit(r.size)
  }

  /** The memory after the enlargement; `newMem` is what realloc returns. */
  function Enlarged(m: Memory, r: Reads, newMem: nat): Memory
    requires m.data <= m.heapData <= m.heapEnd && ValidReads(r)
  {
    if r.guard <= Wrap32(m.maxPages * m.perPage) then m
    else if newMem == 0 then m.(heapHandle := 0, perPage := r.page)
    else
      var heapData := newMem + (m.heapData - m.data);
      var heapSize := EnlargedHeapSize(m.heapData, m.heapEnd, r.heap, m.maxPages, m.perPage);
      m.(data := newMem, block := r.block, size := r.size, end := newMem + r.size,
         heapData := heapData, heapEnd := heapData + heapSize, perPage := r.page,
         bounds := map[1 := r.size - 1, 2 := r.size - 2, 4 := r.size - 4, 8 := r.size - 8, 16 := r.size - 16])
  }

  /** Memory above and including the heap's end, which the new limit must leave room for. */
  function BesidesHeap(m: Memory): int {
    m.size - (m.heapEnd - m.heapData)
  }

  /** The heap size in `uint32_t` is the exact one unless the limit read for it has fallen so low
      that it wraps. */
  lemma HeapSizeIsExactIff(m: Memory, limit: nat)
    requires Consistent(m) && ValidLimit(limit)
    ensures var exact := (m.heapEnd - m.heapData) + (limit - m.size);
      EnlargedHeapSize(m.heapData, m.heapEnd, limit, m.maxPages, m.perPage)
        == if BesidesHeap(m) <= limit then exact else exact + U32
  {
    assert Wrap32(m.maxPages * m.perPage) == m.size;
    var length := m.heapEnd - m.heapData;
    if limit >= m.size {
      assert Wrap32(limit - m.size) == limit - m.size;
    } else {
      assert Wrap32(limit - m.size) == limit - m.size + U32;
    }
  }

  /** The enlarged memory is consistent, with the heap at its place, if and only if the four reads
      after the guard agree on a limit that has room for a heap. */
  lemma LayoutHoldsIff(m: Memory, r: Reads, newMem: nat)
    requires Consistent(m) && ValidReads(r) && newMem != 0 && r.guard > m.size
    ensures var m' := Enlarged(m, r, newMem);
      Consistent(m') && SameHeapPlace(m, m')
      <==> r.heap == r.page == r.block == r.size && BesidesHeap(m) < r.heap
  {
    assert Wrap32(m.maxPages * m.perPage) == m.size;
    HeapSizeIsExactIff(m, r.heap);
  }

  /** When nobody sets the option during start, all reads agree and nothing else is needed. */
  lemma SteadyLimitKeepsLayout(m: Memory, limit: nat, newMem: nat)
    requires Consistent(m) && ValidLimit(limit) && newMem != 0
    ensures var m' := Enlarged(m, Reads(limit, limit, limit, limit, limit), newMem);
      Consistent(m') && SameHeapPlace(m, m') && m'.size == if limit > m.size then limit else m.size
  {
    assert Wrap32(m.maxPages * m.perPage) == m.size;
    if limit > m.size {
      HeapGrowsWithMemory(m.data, m.size, m.heapData, m.heapEnd, limit);
      LayoutHoldsIff(m, Reads(limit, limit, limit, limit, limit), newMem);
    }
  }

  /** The heap stays inside the allocated block if and only if the limit read for it, less what
      lies behind the heap and with the wrap-around if it was too low, is no larger than the block. */
  lemma HeapInsideBlockIff(m: Memory, r: Reads, newMem: nat)
    requires Consistent(m) && ValidReads(r) && newMem != 0 && r.guard > m.size
    ensures var m' := Enlarged(m, r, newMem);
      m'.heapEnd <= m'.data + m'.block
      <==> r.heap - (m.end - m.heapEnd) + (if BesidesHeap(m) <= r.heap then 0 else U32) <= r.block
  {
    assert Wrap32(m.maxPages * m.perPage) == m.size;
    HeapSizeIsExactIff(m, r.heap);
  }

  /** After an enlargement each width's check admits exactly the accesses inside `size`, and these
      lie inside the allocated block if and only if the limit did not fall between the reads. */
  lemma ChecksAreExact(m: Memory, r: Reads, newMem: nat)
    requires Consistent(m) && ValidReads(r) && newMem != 0 && r.guard > m.size
    ensures var m' := Enlarged(m, r, newMem);
      && (forall n, offset: nat :: n in {1, 2, 4, 8, 16} ==> (Admits(m', n, offset) <==> offset + n <= m'.size))
      && ((forall offset: nat :: Admits(m', 1, offset) ==> offset < m'.block) <==> r.size <= r.block)
  {
    var m' := Enlarged(m, r, newMem);
    assert Wrap32(m.maxPages * m.perPage) == m.size;
    if r.size > r.block {
      assert Admits(m', 1, r.block);
    }
  }

  /** Lowering the option from its default in the middle of start leaves a heap that ends far
      behind the block. */
  lemma ReadsCanDisagree() returns (m: Memory, r: Reads)
    ensures Consistent(m) && ValidReads(r)
    ensures r.guard == LimitAfter([]) && r.block == r.size == LimitAfter([131072])
    ensures forall newMem | newMem != 0 :: var m' := Enlarged(m, r, newMem);
      m'.heapEnd - m'.data == 4194304 && m'.block == 131072
  {
    m := Memory(1, 131072, 131072, 131073, 65537, 131073, 1, 1, 1, 131072, map[]);
    r := Reads(4194304, 4194304, 4194304, 131072, 131072);
    assert [131072][..0] == [];
    HeapSizeIsExactIff(m, 4194304);
  }

  /** The memory instance as start updates it, field by field. */
  class MemoryInstance {
    var memoryData: nat
    ghost var block: nat
    var memoryDataSize: nat
    var memoryDataEnd: nat
    var heapData: nat
    var heapDataEnd: nat
    var heapHandle: nat
    var curPages: nat
    var maxPages: nat
    var perPage: nat
    var bounds: map<nat, nat>

    ghost function Contents(): Memory reads this {
      Memory(memoryData, block, memoryDataSize, memoryDataEnd, heapData, heapDataEnd, heapHandle,
             curPages, maxPages, perPage, bounds)
    }

    /** The enlargement in `wamr_ext_instance_start`. A failed realloc leaves the old block, no
        heap, and a page size that is already new. */
    method Enlarge(r: Reads, newMem: nat) returns (ok: bool)
      requires Consistent(Contents()) && ValidReads(r)
      modifies this
      ensures Contents() == Enlarged(old(Contents()), r, newMem)
      ensures ok <==> (r.guard <= old(memoryDataSize) || newMem != 0)
      ensures !ok ==> Contents() == old(Contents()).(heapHandle := 0, perPage := r.page)
      ensures r.guard <= old(memoryDataSize) ==> unchanged(this)
      ensures ok && r.guard > old(memoryDataSize) ==>
        && memoryData == newMem && block == r.block && memoryDataSize == r.size && perPage == r.page
        && heapHandle == old(heapHandle) && heapData - newMem == old(heapData - memoryData)
        && (Consistent(Contents()) && SameHeapPlace(old(Contents()), Contents())
            <==> r.heap == r.page == r.block == r.size && BesidesHeap(old(Contents())) < r.heap)
    {
      ok := true;
      ghost var before := Contents();
      if newMem != 0 && r.guard > memoryDataSize {
        LayoutHoldsIff(before, r, newMem);
      }
      assert Wrap32(maxPages * perPage) == memoryDataSize;
      if r.guard > Wrap32(maxPages * perPage) {
        var heapSize := EnlargedHeapSize(heapData, heapDataEnd, r.heap, maxPages, perPage);
        perPage := r.page;
        var handle := heapHandle;
        heapHandle := 0;
        if newMem == 0 {
          return false;
        }
        Move(r, newMem, heapSize, handle);
      }
    }

    /** The statements after the reallocation. */
    method Move(r: Reads, newMem: nat, heapSize: nat, handle: nat)
      requires memoryData <= heapData && ValidReads(r)
      modifies this
      ensures Contents() ==
        Memory(newMem, r.block, r.size, newMem + r.size, newMem + old(heapData - memoryData),
               newMem + old(heapData - memoryData) + heapSize, handle, old(curPages), old(maxPages), old(perPage),
               map[1 := r.size - 1, 2 := r.size - 2, 4 := r.size - 4, 8 := r.size - 8, 16 := r.size - 16])
    {
      var heapOffset := heapData - memoryData;
      memoryData, block := newMem, r.block;
      memoryDataSize := r.size;
      memoryDataEnd := memoryData + memoryDataSize;
      heapData := memoryData + heapOffset;
      heapDataEnd := heapData + heapSize;
      heapHandle := handle;
      bounds := map[1 := memoryDataSize - 1, 2 := memoryDataSize - 2, 4 := memoryDataSize - 4,
                    8 := memoryDataSize - 8, 16 := memoryDataSize - 16];
    }
  }
}
