/** The memory pool as a whole: preallocated hugepages that are registered for address translation and split into chunks,
 *  the caches of all threads in front of the central list, and what a user may rely on for an allocated buffer.
 */
module Allocation {
  import opened Common
  import opened BlockLayout
  import opened ChunkMemory
  import opened CacheView
  import opened ChunkPools
  import opened AddressTranslation
  import opened Preallocation

  // A batch of hugepages of one size, one after the other, with their physical addresses.
  datatype Region = Region(start: Addr, typ: AlignType, phys: seq<nat>)

  function Length(r: Region): nat { |r.phys| * PageSize(r.typ) }

  predicate InPlace(r: Region) { r.start > 0 && r.typ != Page4Kb && r.start % PageSize(r.typ) == 0 }

  function Page(r: Region, i: nat): PhysChunk
    requires i < |r.phys|
  {
    PhysChunk(r.start + i * PageSize(r.typ), r.phys[i], r.typ)
  }

  predicate Within(p: PhysChunk, r: Region) { r.start <= p.start && End(p) <= r.start + Length(r) }

  predicate RegionsApart(r: Region, s: Region) { r.start + Length(r) <= s.start || s.start + Length(s) <= r.start }

  // No page of the table overlaps the region.
  ghost predicate Unused(tb: Table, r: Region) {
    forall k :: k in tb ==> End(tb[k]) <= r.start || r.start + Length(r) <= tb[k].start
  }

  ghost predicate Registered(tb: Table, r: Region) { forall i :: 0 <= i < |r.phys| ==> Has(tb, Page(r, i)) }

  // A chunk at its own alignment inside a registered hugepage.
  ghost predicate InHugepage(tb: Table, c: Addr) {
    c % CHUNK_SIZE == 0 && exists p :: Has(tb, p) && p.typ != Page4Kb && Covers(p, c)
  }

  ghost predicate Backed(hdr: Chunks, tb: Table) { forall c :: c in hdr ==> InHugepage(tb, c) }

  lemma PageFacts(r: Region, i: nat)
    requires InPlace(r) && i < |r.phys|
    ensures Page(r, i).start % PageSize(r.typ) == 0 && Within(Page(r, i), r)
    ensures End(Page(r, i)) == r.start + (i + 1) * PageSize(r.typ)
  {
    PagePositive(r.typ);
    hide PageSize;
    MultipleAgain(r.start, PageSize(r.typ), i);
    Times(i + 1, |r.phys|, PageSize(r.typ));
    OneMore(i, PageSize(r.typ));
  }

  lemma StartPositive(r: Region)
    requires InPlace(r)
    ensures r.start > 0
  {
  }

  lemma OneMore(i: nat, n: nat)
    ensures (i + 1) * n == i * n + n
  {
  }

  lemma PagePositive(t: AlignType)
    ensures PageSize(t) > 0
  {
  }

  // How many chunks make up a hugepage.
  function ChunksPer(t: AlignType): nat {
    match t
    case Page4Kb => 0
    case Page2Mb => 1
    case Page512Mb => 256
    case Page1Gb => 512
  }

  lemma PageIsChunks(t: AlignType)
    requires t != Page4Kb
    ensures PageSize(t) == ChunksPer(t) * CHUNK_SIZE
  {
  }

  // A region is a whole number of chunks.
  lemma RegionIsChunks(r: Region)
    requires r.typ != Page4Kb
    ensures Length(r) == |r.phys| * ChunksPer(r.typ) * CHUNK_SIZE && Length(r) / CHUNK_SIZE == |r.phys| * ChunksPer(r.typ)
  {
    PageIsChunks(r.typ);
    WholeQuotient(|r.phys| * ChunksPer(r.typ));
  }

  lemma WholeQuotient(n: nat)
    ensures (n * CHUNK_SIZE) / CHUNK_SIZE == n
  {
  }

  lemma StartAligned(r: Region)
    requires InPlace(r)
    ensures r.start % CHUNK_SIZE == 0
  {
    PagePositive(r.typ);
    PageIsChunks(r.typ);
    hide PageSize;
    var q, k := r.start / PageSize(r.typ), ChunksPer(r.typ);
    assert r.start == q * PageSize(r.typ);
    assert q * (k * CHUNK_SIZE) == (q * k) * CHUNK_SIZE;
    ModIs(r.start, CHUNK_SIZE, q * k, 0);
  }

  lemma ChunkAligned(r: Region, c: Addr)
    requires InPlace(r) && InRegion(r.start, Length(r) / CHUNK_SIZE, c)
    ensures c % CHUNK_SIZE == 0 && c < r.start + Length(r)
    ensures c + CHUNK_SIZE <= r.start + Length(r)
  {
    StartAligned(r);
    RegionIsChunks(r);
    hide Length;
    var n := Length(r) / CHUNK_SIZE;
    var q := (c - r.start) / CHUNK_SIZE;
    assert c == r.start + q * CHUNK_SIZE && q < n;
    MultipleAgain(r.start, CHUNK_SIZE, q);
    Times(q + 1, n, CHUNK_SIZE);
  }

  // The chunks that the first n regions are split into.
  function ChunkCount(regions: seq<Region>, n: nat): nat
    requires n <= |regions|
  {
    if n == 0 then 0 else ChunkCount(regions, n - 1) + Length(regions[n - 1]) / CHUNK_SIZE
  }

  // Each call of the page allocator has returned one region.
  predicate Serves(regions: seq<Region>, calls: seq<Call>, typ: AlignType) {
    |regions| == |calls| && forall k :: 0 <= k < |calls| ==> regions[k].typ == typ && |regions[k].phys| == calls[k].pages
  }

  lemma {:induction false} CallsMakeChunks(regions: seq<Region>, calls: seq<Call>, typ: AlignType, n: nat)
    requires Serves(regions, calls, typ) && typ != Page4Kb && n <= |calls|
    ensures ChunkCount(regions, n) == AllPages(calls[..n]) * ChunksPer(typ)
  {
    if n > 0 {
      var c := calls[n - 1];
      CallsMakeChunks(regions, calls, typ, n - 1);
      RegionIsChunks(regions[n - 1]);
      assert calls[..n] == calls[..n - 1] + [c];
      OneMoreCall(calls[..n - 1], c, ANY_NODE);
      Distributes(AllPages(calls[..n - 1]), c.pages, ChunksPer(typ));
    }
  }

  lemma Distributes(a: nat, b: nat, d: nat)
    ensures (a + b) * d == a * d + b * d
  {
  }

  /** When the pages are distributed over the nodes and each batch is split, the central list holds exactly the distributed
   *  bytes: as many 2MB chunks as they make up, and no less than the total and the sum of the shares asked for. */
  lemma ChunksAsDistributed(regions: seq<Region>, calls: seq<Call>, typ: AlignType, mb: seq<nat>, totalMb: nat)
    requires Serves(regions, calls, typ) && typ != Page4Kb
    requires AllPages(calls) == Max(Ceil(totalMb * MB, PageSize(typ)), Sum(Shares(mb, PageSize(typ))))
    ensures ChunkCount(regions, |regions|) * CHUNK_SIZE == AllPages(calls) * PageSize(typ)
    ensures AllPages(calls) * PageSize(typ) >= totalMb * MB && AllPages(calls) * PageSize(typ) >= Sum(mb) * MB
  {
    hide PageSize;
    hide ChunksPer;
    hide Ceil;
    hide AllPages;
    hide ChunkCount;
    hide Shares;
    hide Sum;
    PagePositive(typ);
    var n, page := AllPages(calls), PageSize(typ);
    CallsMakeChunks(regions, calls, typ, |calls|);
    assert calls[..|calls|] == calls;
    PagesAreChunks(n, typ);
    AtLeast(totalMb * MB, page, n);
    SharesSuffice(mb, page);
    AtLeast(Sum(mb) * MB, page, n);
  }

  lemma PagesAreChunks(n: nat, typ: AlignType)
    requires typ != Page4Kb
    ensures n * PageSize(typ) == n * ChunksPer(typ) * CHUNK_SIZE
  {
    PageIsChunks(typ);
  }

  lemma AtLeast(bytes: nat, page: nat, n: nat)
    requires page > 0 && n >= Ceil(bytes, page)
    ensures n * page >= bytes
  {
    hide Ceil;
    CeilBound(bytes, page);
    Times(Ceil(bytes, page), n, page);
  }

  /** Every chunk that a registered region is split into is aligned to its size and lies in one of its hugepages. */
  lemma ChunkInRegion(tb: Table, r: Region, c: Addr)
    requires InPlace(r) && Registered(tb, r) && InRegion(r.start, Length(r) / CHUNK_SIZE, c)
    ensures InHugepage(tb, c)
  {
    ChunkAligned(r, c);
    PagePositive(r.typ);
    var size := PageSize(r.typ);
    hide PageSize;
    var i := (c - r.start) / size;
    assert i * size <= c - r.start < (i + 1) * size;
    assert i < |r.phys| by { Times(|r.phys|, i, size); }
    var p := Page(r, i);
    assert Has(tb, p) && Covers(p, c);
  }

  // For each cache, the chunks that it owns, and how many it counts.
  ghost function Owned(cs: seq<TlsCache>): (s: seq<set<Addr>>)
    reads cs
    ensures |s| == |cs| && forall i :: 0 <= i < |s| ==> s[i] == cs[i].g.owned.Keys
  {
    seq(|cs|, i requires 0 <= i < |cs| reads cs => cs[i].g.owned.Keys)
  }

  ghost function Counts(cs: seq<TlsCache>): (s: seq<nat>)
    reads cs
    ensures |s| == |cs| && forall i :: 0 <= i < |s| ==> s[i] == cs[i].totalChunkNum
  {
    seq(|cs|, i requires 0 <= i < |cs| reads cs => cs[i].totalChunkNum)
  }

  ghost predicate Somewhere(c: Addr, central: seq<Addr>, owned: seq<set<Addr>>) {
    c in central || exists j :: 0 <= j < |owned| && c in owned[j]
  }

  // Chunks are neither lost nor duplicated: those in the central list and those the caches count make up all.
  ghost predicate Conserved(all: set<Addr>, central: seq<Addr>, owned: seq<set<Addr>>, counts: seq<nat>) {
    (forall c :: c in all ==> Somewhere(c, central, owned)) && |central| + Sum(counts) == |all|
  }

  /** Chunks that leave the central list are with the cache that took them, and the other way round. */
  lemma ConservedKeeps(all: set<Addr>, central: seq<Addr>, owned: seq<set<Addr>>, counts: seq<nat>,
                       central': seq<Addr>, owned': seq<set<Addr>>, counts': seq<nat>, j: nat)
    requires Conserved(all, central, owned, counts) && j < |owned| == |counts| == |owned'| == |counts'|
    requires owned' == owned[j := owned'[j]] && counts' == counts[j := counts'[j]]
    requires owned'[j] + Elements(central') == owned[j] + Elements(central)
    requires |central'| + counts'[j] == |central| + counts[j]
    ensures Conserved(all, central', owned', counts')
  {
    SumUpdate(counts, j, counts'[j]);
    forall c | c in all ensures Somewhere(c, central', owned') {
      assert Somewhere(c, central, owned);
      if c in owned[j] + Elements(central) {
        assert c in owned'[j] + Elements(central');
      } else {
        var k :| 0 <= k < |owned| && c in owned[k];
        assert k != j && c in owned'[k];
      }
    }
  }

  // What one operation of cache j did keeps the whole: no chunk lost, every chunk in a registered hugepage.
  lemma WholeKeeps(h: Chunks, g: Chunks, m: BlockMap, n: BlockMap, tb: Table, central: seq<Addr>, owned: seq<set<Addr>>,
                   counts: seq<nat>, central': seq<Addr>, owned': seq<set<Addr>>, counts': seq<nat>, j: nat)
    requires Conserved(h.Keys, central, owned, counts) && j < |owned| == |counts| == |owned'| == |counts'|
    requires Elsewhere(h, g, m, n, owned[j] + Elements(central)) && Backed(h, tb)
    requires owned' == owned[j := owned'[j]] && counts' == counts[j := counts'[j]]
    requires owned'[j] + Elements(central') == owned[j] + Elements(central)
    requires |central'| + counts'[j] == |central| + counts[j]
    ensures Conserved(g.Keys, central', owned', counts') && Backed(g, tb)
  {
    hide Conserved;
    hide Backed;
    hide Elements;
    SameChunks(h, g, m, n, owned[j] + Elements(central));
    hide Elsewhere;
    ConservedKeeps(h.Keys, central, owned, counts, central', owned', counts', j);
    SameBacked(h, g, tb);
  }

  // A cache that owns nothing can go.
  lemma ConservedWithout(all: set<Addr>, central: seq<Addr>, owned: seq<set<Addr>>, counts: seq<nat>, j: nat)
    requires Conserved(all, central, owned, counts) && j < |owned| == |counts| && owned[j] == {} && counts[j] == 0
    ensures Conserved(all, central, Without(owned, j), Without(counts, j))
  {
    SumWithout(counts, j);
    var w := Without(owned, j);
    forall c | c in all ensures Somewhere(c, central, w) {
      assert Somewhere(c, central, owned);
      if k :| 0 <= k < |owned| && c in owned[k] { assert c in w[if k < j then k else k - 1]; }
    }
  }

  lemma InReach(owned: map<Addr, nat>, central: seq<Addr>, owned': map<Addr, nat>, central': seq<Addr>)
    requires owned'.Keys + Elements(central') == owned.Keys + Elements(central) && owned' == map[]
    ensures forall c :: c in owned ==> c in central'
  {
    forall c | c in owned ensures c in central' { assert c in owned.Keys + Elements(central); }
  }

  lemma ConservedSnoc(all: set<Addr>, central: seq<Addr>, owned: seq<set<Addr>>, counts: seq<nat>)
    requires Conserved(all, central, owned, counts)
    ensures Conserved(all, central, owned + [{}], counts + [0])
  {
    SumSnoc(counts, 0);
    forall c | c in all ensures Somewhere(c, central, owned + [{}]) {
      assert Somewhere(c, central, owned);
      if k :| 0 <= k < |owned| && c in owned[k] { assert c in (owned + [{}])[k]; }
    }
  }

  class MemoryPool {
    const pool: Pool
    const manager: AddressManager
    var caches: seq<TlsCache>

    constructor (fetch: nat, thresholdMb: nat, recycle: nat)
      requires fetch >= 1
      ensures Valid() && caches == [] && pool.hdr == map[] && manager.global == map[]
      ensures fresh(pool) && fresh(manager)
    {
      pool := new Pool(fetch, thresholdMb, recycle);
      manager := new AddressManager();
      caches := [];
    }

    ghost predicate CachesOk()
      reads this, pool, caches
    {
      && (forall j :: 0 <= j < |caches| ==> caches[j].pool == pool && caches[j].Valid())
      && (forall i, j :: 0 <= i < j < |caches| ==> caches[i] != caches[j])
      && (forall i, j :: 0 <= i < j < |caches| && caches[i].threadId != 0 ==> caches[i].threadId != caches[j].threadId)
    }

    ghost predicate Valid()
      reads this, pool, manager, caches
    {
      && pool.Valid() && manager.Valid() && Backed(pool.hdr, manager.global) && CachesOk()
      && Conserved(pool.hdr.Keys, pool.central, Owned(caches), Counts(caches))
    }

    // The pages of one region are registered.
    method RegisterRegion(r: Region)
      requires manager.Valid() && InPlace(r) && 0 !in r.phys && Unused(manager.global, r)
      modifies manager`global
      ensures manager.Valid() && SubTable(old(manager.global), manager.global) && Registered(manager.global, r)
      ensures forall k :: k in manager.global ==> k in old(manager.global) || Within(manager.global[k], r)
    {
      var i := 0;
      while i < |r.phys|
        invariant 0 <= i <= |r.phys| && manager.Valid() && SubTable(old(manager.global), manager.global)
        invariant forall j :: 0 <= j < i ==> Has(manager.global, Page(r, j))
        invariant forall k :: k in manager.global && k !in old(manager.global) ==>
          Within(manager.global[k], r) && End(manager.global[k]) <= r.start + i * PageSize(r.typ)
      {
        PageFacts(r, i);
        assert r.phys[i] in r.phys;
        hide PageSize;
        forall k | k in manager.global ensures Disjoint(Page(r, i), manager.global[k]) { }
        forall j | 0 <= j < i ensures Page(r, j).start != Page(r, i).start { Times(j + 1, i, PageSize(r.typ)); }
        manager.AddInternalEntry(Page(r, i));
        i := i + 1;
      }
    }

    /** `Preallocate`, once the pages are there: all regions are registered, then all are split into chunks.  A page without a
     *  physical address makes it fail before any chunk is made; the regions before it stay registered. */
    method Preallocate(regions: seq<Region>) returns (ok: bool)
      requires Valid() && caches == [] && pool.hdr == map[]
      requires forall j :: 0 <= j < |regions| ==> InPlace(regions[j]) && Unused(manager.global, regions[j])
      requires forall i, j :: 0 <= i < j < |regions| ==> RegionsApart(regions[i], regions[j])
      modifies pool, manager`global
      ensures Valid() && SubTable(old(manager.global), manager.global)
      ensures ok <==> forall j :: 0 <= j < |regions| ==> 0 !in regions[j].phys
      ensures !ok ==> pool.hdr == map[]
      ensures ok ==> forall c :: c in pool.hdr <==> c in pool.central
      ensures ok ==> forall c :: c in pool.hdr <==> FromRegions(regions, |regions|, c)
      ensures ok ==> pool.chunkNum == |pool.central| == ChunkCount(regions, |regions|)
    {
      hide InPlace;
      hide Length;
      hide Pool.Valid;
      hide AddressManager.Valid;
      hide Unused;
      hide Registered;
      hide InRegion;
      hide RegionsApart;
      SubTableRefl(manager.global);
      for k := 0 to |regions|
        invariant manager.Valid() && SubTable(old(manager.global), manager.global)
        invariant forall j :: 0 <= j < k ==> 0 !in regions[j].phys && Registered(manager.global, regions[j])
        invariant forall j :: k <= j < |regions| ==> Unused(manager.global, regions[j])
        modifies manager`global
      {
        if 0 in regions[k].phys {
          assert Valid();
          return false;
        }
        ghost var tb := manager.global;
        RegisterRegion(regions[k]);
        SubTableThen(old(manager.global), tb, manager.global);
        forall j | 0 <= j < k ensures Registered(manager.global, regions[j]) {
          StaysRegistered(tb, manager.global, regions[j]);
        }
        forall j | k < j < |regions| ensures Unused(manager.global, regions[j]) {
          assert RegionsApart(regions[k], regions[j]);
          StaysUnused(tb, manager.global, regions[k], regions[j]);
        }
      }
      SplitRegions(regions);
      return true;
    }

    method SplitRegions(regions: seq<Region>)
      requires Valid() && caches == [] && pool.hdr == map[]
      requires forall j :: 0 <= j < |regions| ==> InPlace(regions[j]) && Registered(manager.global, regions[j])
      requires forall i, j :: 0 <= i < j < |regions| ==> RegionsApart(regions[i], regions[j])
      modifies pool
      ensures Valid() && pool.chunkNum == |pool.central| == ChunkCount(regions, |regions|)
      ensures forall c :: c in pool.hdr <==> c in pool.central
      ensures forall c :: c in pool.hdr <==> FromRegions(regions, |regions|, c)
    {
      hide Registered;
      hide InRegion;
      hide Length;
      hide InPlace;
      hide RegionsApart;
      hide Chain;
      hide Spaced;
      NoChunks(pool.hdr, pool.central, pool.chunks);
      for k := 0 to |regions|
        invariant pool.Valid() && (forall c :: c in pool.hdr <==> c in pool.central)
        invariant forall c :: c in pool.hdr <==> FromRegions(regions, k, c)
        invariant |pool.central| == ChunkCount(regions, k)
      {
        forall c | c in pool.hdr ensures c + CHUNK_SIZE <= regions[k].start || regions[k].start + Length(regions[k]) <= c {
          ApartFromEarlier(regions, k, c);
        }
        StartPositive(regions[k]);
        pool.SplitRegion(regions[k].start, Length(regions[k]));
        forall c ensures FromRegions(regions, k + 1, c) <==>
          FromRegions(regions, k, c) || InRegion(regions[k].start, Length(regions[k]) / CHUNK_SIZE, c)
        {
          NextRegion(regions, k, c);
        }
      }
      AllBacked(regions, pool.hdr, manager.global);
      hide Backed;
      hide FromRegions;
      AllCentral(pool.hdr, pool.central, pool.chunks);
      assert Counts(caches) == [] && Owned(caches) == [];
    }

    // A thread without a cache gets a new one.
    method NewCache() returns (j: nat)
      requires Valid()
      modifies this`caches
      ensures Valid() && j == |old(caches)| && |caches| == j + 1 && caches[..j] == old(caches)
      ensures fresh(caches[j]) && caches[j].threadId == 0 && caches[j].g.owned == map[]
    {
      hide Pool.Valid;
      hide AddressManager.Valid;
      hide Backed;
      hide Conserved;
      hide TlsCache.Valid;
      var c := new TlsCache(pool);
      j := |caches|;
      ghost var owned, counts := Owned(caches), Counts(caches);
      caches := caches + [c];
      assert c.g.owned.Keys == {};
      assert Counts(caches) == counts + [0];
      assert Owned(caches) == owned + [{}];
      ConservedSnoc(pool.hdr.Keys, pool.central, owned, counts);
    }

    // A cache, new or left by a thread that is gone, becomes the cache of thread id.
    method Attach(j: nat, id: nat)
      requires Valid() && j < |caches| && caches[j].threadId == 0 && id != 0
      requires forall k :: 0 <= k < |caches| ==> caches[k].threadId != id
      modifies caches[j]
      ensures Valid() && caches[j].threadId == id && caches[j].tasks == old(caches[j].tasks) && caches[j].g == old(caches[j].g)
    {
      hide Pool.Valid;
      hide AddressManager.Valid;
      hide Backed;
      hide TlsCache.Valid;
      caches[j].AttachThread(id);
      assert Counts(caches) == old(Counts(caches)) && Owned(caches) == old(Owned(caches));
    }

    method Detach(j: nat)
      requires Valid() && j < |caches|
      modifies caches[j]
      ensures Valid() && caches[j].threadId == 0 && caches[j].tasks == old(caches[j].tasks) && caches[j].g == old(caches[j].g)
    {
      hide Pool.Valid;
      hide AddressManager.Valid;
      hide Backed;
      hide TlsCache.Valid;
      caches[j].DetachThread();
      assert Counts(caches) == old(Counts(caches)) && Owned(caches) == old(Owned(caches));
    }

    // Header and payload of block b of class i overlap no other block of any cache, no chunk header, no central chunk.
    ghost predicate Alone(b: Addr, i: nat)
      reads this, pool, caches
    {
      && (forall k, d, x :: 0 <= k < |caches| && d in caches[k].g.owned && x in Blocks(d, caches[k].g.owned[d]) && x != b ==>
           BlockEnd(b, i) <= x || BlockEnd(x, caches[k].g.owned[d]) <= b)
      && (forall d :: d in pool.hdr ==> BlockEnd(b, i) <= d || d + CHUNK_HEADER_SIZE <= b)
      && (forall d :: d in pool.central ==> BlockEnd(b, i) <= d || d + CHUNK_SIZE <= b)
    }

    lemma BlockIsAlone(j: nat, c: Addr, b: Addr, i: nat)
      requires Valid() && j < |caches| && c in caches[j].g.owned && caches[j].g.owned[c] == i && b in Blocks(c, i)
      ensures Alone(b, i)
    {
      hide Blocks;
      hide Inv;
      hide BlockSize;
      hide Backed;
      hide Conserved;
      hide AddressManager.Valid;
      BlocksInside(c, i, b);
      OwnerInHeader(caches[j].V(), caches[j], c);
      ChainInMap(pool.hdr, pool.central, pool.chunks);
      hide Chain;
      forall k, d, x | 0 <= k < |caches| && d in caches[k].g.owned && x in Blocks(d, caches[k].g.owned[d]) && x != b
        ensures BlockEnd(b, i) <= x || BlockEnd(x, caches[k].g.owned[d]) <= b
      {
        OwnerInHeader(caches[k].V(), caches[k], d);
        BlocksMiss(c, i, b, d, caches[k].g.owned[d], x);
      }
    }

    lemma BlockIsOnePiece(j: nat, c: Addr, b: Addr, i: nat, a: Addr, len: nat)
      requires Valid() && j < |caches| && c in caches[j].g.owned && b in Blocks(c, i)
      requires 0 < len && Payload(b) <= a && a + len <= Payload(b) + BlockSize(i)
      ensures OnePiece(manager.global, a, len)
    {
      hide Inv;
      hide Blocks;
      OwnerInHeader(caches[j].V(), caches[j], c);
      assert InHugepage(manager.global, c);
      var p :| Has(manager.global, p) && p.typ != Page4Kb && Covers(p, c);
      BlockIsOneSegment(manager.global, p, c, i, b, a, len);
    }

    /** `Allocate` for the thread of cache j.  The payload is one that no user had; its bytes and its header overlap those of
     *  no other block of any cache, nor any chunk header; and it lies in one registered hugepage. */
    method Allocate(j: nat, size: nat) returns (r: Addr)
      requires Valid() && j < |caches|
      modifies caches[j], pool
      ensures Valid() && caches == old(caches)
      ensures forall k :: 0 <= k < |caches| && k != j ==> Kept(caches[k]) && caches[k].tasks == old(caches[k].tasks)
      ensures size == 0 || size > 0x8_0000 ==> r == 0
      ensures 0 < size <= 0x8_0000 && r == 0 ==>
        NothingFree(caches[j].V(), BlockIndex(size)) && pool.chunkNum < pool.fetchChunkNum
      ensures r != 0 ==>
        && 0 < size <= 0x8_0000 && r > BLOCK_HEADER_SIZE && var i, b := BlockIndex(size), r - BLOCK_HEADER_SIZE;
        && size <= BlockSize(i)
        && HandsGain(old(caches[j].g.held), old(caches[j].tasks), caches[j].g.held, caches[j].tasks, i, b)
        && Alone(b, i) && OnePiece(manager.global, r, BlockSize(i))
    {
      hide TlsCache.Valid;
      hide Pool.Valid;
      hide AddressManager.Valid;
      hide CachesOk;
      hide Conserved;
      hide Backed;
      hide HandsGain;
      hide NothingFree;
      hide BlockIndex;
      hide BlockSize;
      hide Blocks;
      hide OnePiece;
      hide Alone;
      r := AllocateFrom(j, size);
      if r != 0 {
        BlockIndexIsBestFit(size);
        var b := r - BLOCK_HEADER_SIZE;
        BlockIsAlone(j, pool.blk[b].chunk, b, BlockIndex(size));
        BlockIsOnePiece(j, pool.blk[b].chunk, b, BlockIndex(size), r, BlockSize(BlockIndex(size)));
      }
    }

    // The cache allocates, and the whole stays in order.
    method AllocateFrom(j: nat, size: nat) returns (r: Addr)
      requires Valid() && j < |caches|
      modifies caches[j], pool
      ensures Valid() && caches == old(caches)
      ensures forall k :: 0 <= k < |caches| && k != j ==> Kept(caches[k]) && caches[k].tasks == old(caches[k].tasks)
      ensures size == 0 || size > 0x8_0000 ==> r == 0
      ensures 0 < size <= 0x8_0000 && r == 0 ==>
        NothingFree(caches[j].V(), BlockIndex(size)) && pool.chunkNum < pool.fetchChunkNum
      ensures r != 0 ==>
        && 0 < size <= 0x8_0000 && r > BLOCK_HEADER_SIZE && var i, b := BlockIndex(size), r - BLOCK_HEADER_SIZE;
        && HandsGain(old(caches[j].g.held), old(caches[j].tasks), caches[j].g.held, caches[j].tasks, i, b)
        && b in pool.blk && pool.blk[b].chunk in caches[j].g.owned && caches[j].g.owned[pool.blk[b].chunk] == i
        && b in Blocks(pool.blk[b].chunk, i)
    {
      hide Inv;
      hide Pool.Valid;
      hide AddressManager.Valid;
      hide Elsewhere;
      hide Backed;
      hide Conserved;
      hide HandsGain;
      hide SameHands;
      hide NothingFree;
      hide BlockIndex;
      hide Blocks;
      hide TasksOk;
      r := caches[j].Allocate(size);
      forall k | 0 <= k < |caches| && k != j ensures Kept(caches[k]) && caches[k].Valid() {
        assert caches[k] != caches[j];
        OtherCacheKeeps(old(caches[j].V()), caches[j], old(caches[k].V()), caches[k], caches[k].V(), old(pool.central), pool.central);
      }
      hide TlsCache.Valid;
      assert Owned(caches) == old(Owned(caches))[j := caches[j].g.owned.Keys];
      assert Counts(caches) == old(Counts(caches))[j := caches[j].totalChunkNum];
      WholeKeeps(old(pool.hdr), pool.hdr, old(pool.blk), pool.blk, manager.global, old(pool.central), old(Owned(caches)),
                 old(Counts(caches)), pool.central, Owned(caches), Counts(caches), j);
    }

    /** `Deallocate` by the thread of cache j of a payload that is out, of cache k, or of null. */
    method Deallocate(j: nat, ptr: Addr, ghost k: nat)
      requires Valid() && j < |caches| && k < |caches| && caches[j].threadId != 0
      requires ptr != 0 ==> Queued(ptr, caches[k].g.held) && ptr !in caches[k].tasks
      modifies caches[j], caches[k], pool
      ensures Valid() && caches == old(caches)
      ensures ptr == 0 ==> unchanged(caches[j]) && unchanged(caches[k]) && unchanged(pool)
      ensures ptr != 0 ==>
        && ptr >= BLOCK_HEADER_SIZE
        && HandsLose(old(caches[k].g.held), old(caches[k].tasks), caches[k].g.held, caches[k].tasks, ptr - BLOCK_HEADER_SIZE)
      ensures ptr != 0 && j != k ==> caches[k].tasks == old(caches[k].tasks) + [ptr] && Kept(caches[k]) && Kept(caches[j])
      ensures ptr != 0 ==>
        forall x :: 0 <= x < |caches| && x != j && x != k ==> Kept(caches[x]) && caches[x].tasks == old(caches[x].tasks)
    {
      hide TlsCache.Valid;
      hide Pool.Valid;
      hide AddressManager.Valid;
      hide CachesOk;
      hide Conserved;
      hide Backed;
      hide HandsLose;
      hide Queued;
      hide Kept;
      if ptr != 0 { FreeFrom(j, ptr, k); }
    }

    // The cache frees or queues it, and the whole stays in order.
    method FreeFrom(j: nat, ptr: Addr, ghost k: nat)
      requires Valid() && j < |caches| && k < |caches| && caches[j].threadId != 0
      requires Queued(ptr, caches[k].g.held) && ptr !in caches[k].tasks
      modifies caches[j], caches[k], pool
      ensures Valid() && caches == old(caches) && ptr >= BLOCK_HEADER_SIZE
      ensures HandsLose(old(caches[k].g.held), old(caches[k].tasks), caches[k].g.held, caches[k].tasks, ptr - BLOCK_HEADER_SIZE)
      ensures j != k ==> caches[k].tasks == old(caches[k].tasks) + [ptr] && Kept(caches[k]) && Kept(caches[j])
      ensures forall x :: 0 <= x < |caches| && x != j && x != k ==> Kept(caches[x]) && caches[x].tasks == old(caches[x].tasks)
    {
      hide Inv;
      hide Pool.Valid;
      hide AddressManager.Valid;
      hide Elsewhere;
      hide Backed;
      hide Conserved;
      hide HandsLose;
      hide TasksOk;
      QueuedPayload(ptr, caches[k].g.held);
      hide Queued;
      caches[j].PutBlock(ptr, caches[k]);
      forall x | 0 <= x < |caches| && x != j ensures Kept(caches[x]) && caches[x].Valid() {
        assert caches[x] != caches[j];
        OtherCacheKeeps(old(caches[j].V()), caches[j], old(caches[x].V()), caches[x], caches[x].V(), old(pool.central), pool.central);
      }
      hide TlsCache.Valid;
      assert Owned(caches) == old(Owned(caches))[j := caches[j].g.owned.Keys];
      assert Counts(caches) == old(Counts(caches))[j := caches[j].totalChunkNum];
      WholeKeeps(old(pool.hdr), pool.hdr, old(pool.blk), pool.blk, manager.global, old(pool.central), old(Owned(caches)),
                 old(Counts(caches)), pool.central, Owned(caches), Counts(caches), j);
    }

    // The thread of cache j exits, and the whole stays in order.
    method ExitFrom(j: nat) returns (gone: bool)
      requires Valid() && j < |caches|
      modifies caches[j], pool
      ensures Valid() && caches == old(caches) && caches[j].threadId == 0 && caches[j].tasks == []
      ensures |old(caches[j].g.held)| == CLASSES
      ensures gone <==> forall i :: 0 <= i < CLASSES ==> Hands(old(caches[j].g.held)[i], old(caches[j].tasks)) == {}
      ensures gone ==> caches[j].g.owned == map[] && caches[j].totalChunkNum == 0
      ensures !gone ==> SameHands(old(caches[j].g.held), old(caches[j].tasks), caches[j].g.held, [])
      ensures caches[j].g.owned.Keys + Elements(pool.central) == old(caches[j].g.owned.Keys + Elements(pool.central))
      ensures |pool.central| + caches[j].totalChunkNum == old(|pool.central| + caches[j].totalChunkNum)
      ensures forall k :: 0 <= k < |caches| && k != j ==> Kept(caches[k]) && caches[k].tasks == old(caches[k].tasks)
    {
      hide Inv;
      hide Pool.Valid;
      hide AddressManager.Valid;
      hide Elsewhere;
      hide Backed;
      hide Conserved;
      hide SameHands;
      hide Hands;
      hide TasksOk;
      gone := caches[j].Exit();
      forall k | 0 <= k < |caches| && k != j ensures Kept(caches[k]) && caches[k].Valid() {
        assert caches[k] != caches[j];
        OtherCacheKeeps(old(caches[j].V()), caches[j], old(caches[k].V()), caches[k], caches[k].V(), old(pool.central), pool.central);
      }
      hide TlsCache.Valid;
      assert Owned(caches) == old(Owned(caches))[j := caches[j].g.owned.Keys];
      assert Counts(caches) == old(Counts(caches))[j := caches[j].totalChunkNum];
      WholeKeeps(old(pool.hdr), pool.hdr, old(pool.blk), pool.blk, manager.global, old(pool.central), old(Owned(caches)),
                 old(Counts(caches)), pool.central, Owned(caches), Counts(caches), j);
    }

    /** `~TLSCacheGuard` of the thread of cache j.  Exactly when no user holds a block of it the cache is gone, and all its
     *  chunks are in the central list; otherwise it stays for another thread, with what users hold of it.  Either way no
     *  chunk is lost and no other cache moves. */
    method Exit(j: nat) returns (gone: bool)
      requires Valid() && j < |caches|
      modifies this`caches, caches[j], pool
      ensures Valid() && |old(caches[j].g.held)| == CLASSES
      ensures gone <==> forall i :: 0 <= i < CLASSES ==> Hands(old(caches[j].g.held)[i], old(caches[j].tasks)) == {}
      ensures gone ==>
        && caches == Without(old(caches), j) && |pool.central| == old(|pool.central| + caches[j].totalChunkNum)
        && forall c :: c in old(caches[j].g.owned) ==> c in pool.central
      ensures !gone ==>
        && caches == old(caches) && caches[j].threadId == 0 && caches[j].tasks == []
        && SameHands(old(caches[j].g.held), old(caches[j].tasks), caches[j].g.held, [])
      ensures forall k :: 0 <= k < |old(caches)| && k != j ==>
        Kept(old(caches)[k]) && old(caches)[k].tasks == old(caches[k].tasks)
    {
      hide TlsCache.Valid;
      hide Pool.Valid;
      hide AddressManager.Valid;
      hide Conserved;
      hide Backed;
      hide SameHands;
      hide Hands;
      hide Kept;
      hide CachesOk;
      hide Without;
      hide Elements;
      gone := ExitFrom(j);
      if gone {
        InReach(old(caches[j].g.owned), old(pool.central), caches[j].g.owned, pool.central);
        RemoveTlsCache(j);
      }
    }

    // A cache that owns nothing leaves the list.
    method RemoveTlsCache(j: nat)
      requires Valid() && j < |caches| && caches[j].g.owned == map[] && caches[j].totalChunkNum == 0
      modifies this`caches
      ensures Valid() && caches == Without(old(caches), j)
    {
      hide TlsCache.Valid;
      hide Pool.Valid;
      hide AddressManager.Valid;
      hide Conserved;
      hide Backed;
      ghost var was, owned, counts := caches, Owned(caches), Counts(caches);
      ConservedWithout(pool.hdr.Keys, pool.central, owned, counts, j);
      caches := Without(caches, j);
      WithoutAt(was, j);
      WithoutAt(owned, j);
      WithoutAt(counts, j);
      hide Without;
      assert Owned(caches) == Without(owned, j) && Counts(caches) == Without(counts, j);
    }

    /** `LookUpAddrAcrossBound`: for a stretch of the payload of a block that is out there is exactly one piece. */
    method LookUpAddrAcrossBound(t: nat, a: Addr, len: nat, paddrs: array<nat>, sizes: array<nat>, maxNum: nat,
                                 ghost j: nat, ghost i: nat, ghost b: Addr) returns (n: nat)
      requires Valid() && paddrs != sizes && paddrs.Length >= maxNum && sizes.Length >= maxNum
      modifies manager, paddrs, sizes
      ensures Valid() && manager.global == old(manager.global) && n <= maxNum
      ensures n == 0 <==>
        len == 0 || !AllCovered(manager.global, a, len) || |PagesOver(manager.global, a, len)| > maxNum
      ensures n > 0 ==> Sum(sizes[..n]) == len && Segments(manager.global, a, sizes[..n], paddrs[..n])
      ensures old(IsPart(j, i, b, a, len)) && maxNum > 0 ==> n == 1
    {
      hide Pool.Valid;
      hide TlsCache.Valid;
      hide PagesOver;
      hide Segments;
      hide AllCovered;
      DefaultOrderIsComplete();
      if IsPart(j, i, b, a, len) { PartIsOnePiece(j, i, b, a, len); }
      n := manager.GetPhysAddrBound(t, a, len, paddrs, sizes, maxNum, DEFAULT_ORDER, []);
    }

    // The stretch is part of the payload of the block b of class i that is out, of cache j.
    ghost predicate IsPart(j: nat, i: nat, b: Addr, a: Addr, len: nat)
      reads this, caches
    {
      && j < |caches| && i < |caches[j].g.held| && b in caches[j].g.held[i]
      && 0 < len && Payload(b) <= a && a + len <= Payload(b) + BlockSize(i)
    }

    lemma PartIsOnePiece(j: nat, i: nat, b: Addr, a: Addr, len: nat)
      requires Valid() && IsPart(j, i, b, a, len)
      ensures OnePiece(manager.global, a, len)
    {
      HeldInChunk(caches[j].V(), caches[j], i, b);
      hide Inv;
      BlockIsOnePiece(j, pool.blk[b].chunk, b, i, a, len);
    }
  }

  ghost predicate OnePiece(tb: Table, a: Addr, len: nat) { AllCovered(tb, a, len) && |PagesOver(tb, a, len)| == 1 }

  lemma QueuedPayload(p: Addr, held: seq<set<Addr>>)
    requires Queued(p, held)
    ensures p >= BLOCK_HEADER_SIZE
  {
  }

  lemma HeldInChunk(v: View, o: object, i: nat, b: Addr)
    requires Inv(v, o) && i < |v.held| && b in v.held[i]
    ensures b in v.m && v.m[b].chunk in v.owned && b in Blocks(v.m[b].chunk, i)
  {
    assert HeldBlock(v, i, b);
  }

  // The cache has not moved, but for its queue.
  twostate predicate Kept(x: TlsCache)
    reads x
  {
    && x.caches == old(x.caches) && x.totalChunkNum == old(x.totalChunkNum) && x.g == old(x.g)
    && x.recyclableChunkNum == old(x.recyclableChunkNum) && TasksOk(x.tasks, x.g.held)
  }

  lemma SameBacked(h: Chunks, g: Chunks, tb: Table)
    requires Backed(h, tb) && h.Keys == g.Keys
    ensures Backed(g, tb)
  {
    forall c | c in g ensures InHugepage(tb, c) { assert c in g.Keys && c in h.Keys; }
  }

  lemma SameChunks(h: Chunks, g: Chunks, m: BlockMap, n: BlockMap, mine: set<Addr>)
    requires Elsewhere(h, g, m, n, mine)
    ensures h.Keys == g.Keys && forall c :: c in h <==> c in g
  {
  }

  // c is one of the chunks of the first n regions.
  ghost predicate FromRegions(regions: seq<Region>, n: nat, c: Addr)
    requires n <= |regions|
  {
    exists j: nat :: j < n && InRegion(regions[j].start, Length(regions[j]) / CHUNK_SIZE, c)
  }

  lemma NextRegion(regions: seq<Region>, k: nat, c: Addr)
    requires k < |regions|
    ensures FromRegions(regions, k + 1, c) <==>
      FromRegions(regions, k, c) || InRegion(regions[k].start, Length(regions[k]) / CHUNK_SIZE, c)
  {
    hide InRegion;
  }

  lemma ApartFromEarlier(regions: seq<Region>, k: nat, c: Addr)
    requires k < |regions| && FromRegions(regions, k, c)
    requires forall j :: 0 <= j < |regions| ==> InPlace(regions[j])
    requires forall i, j :: 0 <= i < j < |regions| ==> RegionsApart(regions[i], regions[j])
    ensures c + CHUNK_SIZE <= regions[k].start || regions[k].start + Length(regions[k]) <= c
  {
    var j: nat :| j < k && InRegion(regions[j].start, Length(regions[j]) / CHUNK_SIZE, c);
    assert RegionsApart(regions[j], regions[k]);
    ChunkAligned(regions[j], c);
  }

  lemma AllBacked(regions: seq<Region>, h: Chunks, tb: Table)
    requires forall j :: 0 <= j < |regions| ==> InPlace(regions[j]) && Registered(tb, regions[j])
    requires forall c :: c in h ==> FromRegions(regions, |regions|, c)
    ensures Backed(h, tb)
  {
    hide InRegion;
    hide Registered;
    forall c | c in h ensures InHugepage(tb, c) {
      var j: nat :| j < |regions| && InRegion(regions[j].start, Length(regions[j]) / CHUNK_SIZE, c);
      ChunkInRegion(tb, regions[j], c);
    }
  }

  lemma AllCentral(h: Chunks, s: seq<Addr>, first: Addr)
    requires Chain(h, s, first) && forall c :: c in h <==> c in s
    ensures Conserved(h.Keys, s, [], [])
  {
    DistinctCount(s);
    assert Elements(s) == h.Keys;
  }

  lemma StaysRegistered(tb: Table, more: Table, r: Region)
    requires SubTable(tb, more) && Registered(tb, r)
    ensures Registered(more, r)
  {
    forall i | 0 <= i < |r.phys| ensures Has(more, Page(r, i)) { assert Has(tb, Page(r, i)); }
  }

  lemma StaysUnused(tb: Table, more: Table, r: Region, s: Region)
    requires Unused(tb, s) && RegionsApart(r, s) && SubTable(tb, more)
    requires forall k :: k in more ==> k in tb || Within(more[k], r)
    ensures Unused(more, s)
  {
  }

  lemma NoChunks(h: Chunks, s: seq<Addr>, first: Addr)
    requires Chain(h, s, first) && h == map[]
    ensures s == []
  {
    assert s != [] ==> Linked(h, s, 0);
  }
}
