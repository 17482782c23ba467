/** The chunk pool and the per-thread caches in front of it, as objects that update headers, lists and
 *  counters in place.
 */
module ChunkPools {
  import opened BlockLayout
  import opened Common
  import opened ChunkMemory
  import opened CacheView

  ghost predicate Spaced(s: set<Addr>) {
    forall c, d :: c in s && d in s && c != d ==> Apart(c, d)
  }

  predicate InRegion(start: Addr, n: nat, c: Addr) {
    start <= c < start + n * CHUNK_SIZE && (c - start) % CHUNK_SIZE == 0
  }

  lemma NotYet(start: Addr, i: nat, c: Addr)
    requires c == start + i * CHUNK_SIZE
    ensures forall d: nat :: InRegion(start, i, d) ==> d + CHUNK_SIZE <= c
    ensures forall d: nat :: InRegion(start, i + 1, d) <==> InRegion(start, i, d) || d == c
  {
  }

  lemma EmptyRegion(start: Addr)
    ensures forall d: nat :: !InRegion(start, 0, d)
  {
  }

  lemma FirstIn(s: seq<Addr>, first: Addr)
    requires first == At(s, 0) && first != 0
    ensures first in s
  {
  }

  lemma AddedChunk(h: Chunks, g: Chunks, s: seq<Addr>, first: Addr, c: Addr)
    requires Chain(h, s, first) && Spaced(h.Keys) && c > 0
    requires forall d :: d in h ==> Apart(d, c)
    requires g == var x := h[c := ChunkHeader(0, first, 0, null, 0, 0, 0)];
                  if first != 0 && first in x then x[first := x[first].(prev := c)] else x
    requires first != 0 ==> first in h
    ensures Chain(g, [c] + s, c) && Spaced(g.Keys) && g.Keys == h.Keys + {c}
  {
    ChainInMap(h, s, first);
    var f := h[c := ChunkHeader(0, 0, 0, null, 0, 0, 0)];
    ChainFrame(h, f, s, first);
    PushChain(f, s, first, c);
    assert g == Pushed(f, c, first);
  }

  lemma EmptyView(v: View, o: object)
    requires Shape(v) && v.owned == map[] && v.free == map[] && v.total == 0 && v.recyclable == 0
    requires forall i :: 0 <= i < CLASSES ==>
      v.caches[i] == BlockCache(0, 0, 0, 0, 0) && v.avail[i] == [] && v.recyc[i] == [] && v.held[i] == {}
    ensures Inv(v, o)
  {
    assert SumLen(v.recyc) == 0 by { EmptySum(v.recyc); }
    forall i | 0 <= i < CLASSES ensures ListOk(v, i) && ClassSize(v, i) { assert OfClass(v, i) == {}; }
  }

  lemma {:induction false} EmptySum(s: seq<seq<Addr>>)
    requires forall i :: 0 <= i < |s| ==> s[i] == []
    ensures SumLen(s) == 0
  {
    if s != [] { EmptySum(s[1..]); }
  }

  ghost predicate Queued(p: Addr, held: seq<set<Addr>>) {
    p >= BLOCK_HEADER_SIZE && exists i :: 0 <= i < |held| && p - BLOCK_HEADER_SIZE in held[i]
  }

  // A queued payload belongs to a block that is out; none is queued twice.
  ghost predicate TasksOk(tasks: seq<Addr>, held: seq<set<Addr>>) {
    (forall p :: p in tasks ==> Queued(p, held)) && Distinct(tasks)
  }

  // The blocks in the hands of users: out, and not queued to come back.
  ghost function Hands(held: set<Addr>, tasks: seq<Addr>): set<Addr> {
    set b | b in held && Payload(b) !in tasks
  }

  // Per class, who holds what is as before, but for one block that came back or went out.
  ghost predicate SameHands(held: seq<set<Addr>>, tasks: seq<Addr>, now: seq<set<Addr>>, left: seq<Addr>) {
    |held| == |now| && forall i :: 0 <= i < |held| ==> Hands(now[i], left) == Hands(held[i], tasks)
  }

  ghost predicate HandsLose(held: seq<set<Addr>>, tasks: seq<Addr>, now: seq<set<Addr>>, left: seq<Addr>, b: Addr) {
    |held| == |now| && forall i :: 0 <= i < |held| ==> Hands(now[i], left) == Hands(held[i], tasks) - {b}
  }

  ghost predicate HandsGain(held: seq<set<Addr>>, tasks: seq<Addr>, now: seq<set<Addr>>, left: seq<Addr>, k: nat, b: Addr) {
    && |held| == |now| && k < |held|
    && forall i :: 0 <= i < |held| ==>
         && b !in Hands(held[i], tasks)
         && Hands(now[i], left) == Hands(held[i], tasks) + if i == k then {b} else {}
  }

  // The central list of free chunks, and the memory all headers lie in.
  class Pool {
    var hdr: Chunks
    var blk: BlockMap
    var chunks: Addr
    var chunkNum: nat
    const fetchChunkNum: nat
    const recycleThresholdMb: nat
    const recycleChunkNum: nat
    ghost var central: seq<Addr>

    ghost predicate Valid()
      reads this
    {
      && Chain(hdr, central, chunks) && chunkNum == |central|
      && Spaced(hdr.Keys) && fetchChunkNum >= 1
    }

    constructor (fetch: nat, thresholdMb: nat, recycle: nat)
      requires fetch >= 1
      ensures Valid() && central == [] && hdr == map[]
      ensures fetchChunkNum == fetch && recycleThresholdMb == thresholdMb && recycleChunkNum == recycle
    {
      hdr, blk, chunks, chunkNum, central := map[], map[], 0, 0, [];
      fetchChunkNum, recycleThresholdMb, recycleChunkNum := fetch, thresholdMb, recycle;
    }

    /** A region of hugepages is split into chunks; each goes to the front of the list. */
    method SplitRegion(start: Addr, len: nat)
      requires Valid() && start > 0 && (forall c :: c in hdr ==> c + CHUNK_SIZE <= start || start + len <= c)
      modifies this
      ensures Valid() && |central| == |old(central)| + len / CHUNK_SIZE
      ensures forall c :: c in hdr <==> c in old(hdr) || InRegion(start, len / CHUNK_SIZE, c)
      ensures forall c :: c in central <==> c in old(central) || InRegion(start, len / CHUNK_SIZE, c)
    {
      hide InRegion;
      hide Distinct;
      var n := len / CHUNK_SIZE;
      chunkNum := chunkNum + n;
      var i := 0;
      EmptyRegion(start);
      while i < n
        invariant 0 <= i <= n && chunkNum == |old(central)| + n && |central| == |old(central)| + i
        invariant Chain(hdr, central, chunks) && Spaced(hdr.Keys)
        invariant forall c :: c in hdr <==> c in old(hdr) || InRegion(start, i, c)
        invariant forall c :: c in central <==> c in old(central) || InRegion(start, i, c)
      {
        var c := start + i * CHUNK_SIZE;
        assert c + CHUNK_SIZE <= start + len;
        NotYet(start, i, c);
        ghost var h := hdr;
        // the pages are fresh, so the new header is all zeros but for the link
        hdr := hdr[c := ChunkHeader(0, chunks, 0, null, 0, 0, 0)];
        if chunks != 0 {
          assert chunks in h by { ChainInMap(h, central, chunks); FirstIn(central, chunks); }
          hdr := hdr[chunks := hdr[chunks].(prev := c)];
        }
        AddedChunk(h, hdr, central, chunks, c);
        chunks := c;
        central := [c] + central;
        i := i + 1;
      }
    }

    /** The first n chunks of the list, or null (and no change) when there are fewer. */
    method GetChunks(n: nat) returns (r: Addr)
      requires Valid() && n >= 1
      modifies this
      ensures Valid() && blk == old(blk)
      ensures old(chunkNum) < n ==> r == 0 && hdr == old(hdr) && central == old(central)
      ensures old(chunkNum) >= n ==>
        && r != 0 && Chain(hdr, old(central)[..n], r) && central == old(central)[n..]
        && LinksOnly(old(hdr), hdr, Elements(old(central)))
    {
      hide Distinct;
      hide LinksOnly;
      if chunkNum < n { return 0; }
      chunkNum := chunkNum - n;
      var p := chunks;
      var left := n - 1;
      assert Linked(hdr, central, 0);
      while left != 0 && p != 0
        invariant 0 <= left < n && p == central[n - 1 - left] && p != 0
        invariant hdr == old(hdr) && chunks == old(chunks) && blk == old(blk)
        invariant central == old(central) && chunkNum == |central| - n
      {
        assert Linked(hdr, central, n - 1 - left) && Linked(hdr, central, n - left);
        p := hdr[p].next;
        left := left - 1;
      }
      r := chunks;
      assert Linked(hdr, central, n - 1);
      CutChain(hdr, central, chunks, n);
      chunks := hdr[p].next;
      if chunks != 0 {
        assert Linked(hdr, central, n);
        hdr := hdr[chunks := hdr[chunks].(prev := 0)];
      }
      hdr := hdr[p := hdr[p].(next := 0)];
      central := central[n..];
    }

    /** Chunks put back go to the front, in their order. */
    method PutChunks(head: Addr, ghost s: seq<Addr>)
      requires Valid() && Chain(hdr, s, head) && (forall c :: c in s ==> c !in central)
      modifies this
      ensures Valid() && blk == old(blk)
      ensures central == s + old(central)
      ensures LinksOnly(old(hdr), hdr, Elements(s) + Elements(old(central)))
    {
      if head == 0 {
        assert 0 < |s| ==> Linked(hdr, s, 0);
        return;
      }
      var p := head;
      var n := 1;
      assert Linked(hdr, s, 0);
      while hdr[p].next != 0
        invariant 1 <= n <= |s| && p == s[n - 1] && p in hdr
        invariant hdr == old(hdr) && chunks == old(chunks) && blk == old(blk)
        invariant central == old(central) && chunkNum == |central|
        decreases |s| - n
      {
        assert Linked(hdr, s, n - 1) && Linked(hdr, s, n);
        p := hdr[p].next;
        n := n + 1;
      }
      assert Linked(hdr, s, n - 1);
      assert n < |s| ==> Linked(hdr, s, n);
      JoinChain(hdr, s, head, central, chunks);
      hdr := hdr[p := hdr[p].(next := chunks)];
      if chunks != 0 {
        assert Linked(old(hdr), central, 0);
        hdr := hdr[chunks := hdr[chunks].(prev := p)];
      }
      chunks := head;
      chunkNum := chunkNum + n;
      central := s + central;
    }
  }

  // The lists and sets behind the pointers and counters of a cache.
  datatype Lists = Lists(avail: seq<seq<Addr>>, recyc: seq<seq<Addr>>, owned: map<Addr, nat>,
                         free: map<Addr, seq<Addr>>, held: seq<set<Addr>>)

  ghost predicate NotCentral(owned: map<Addr, nat>, central: seq<Addr>) {
    forall c :: c in central ==> c !in owned
  }

  // The cache of one thread: ten size classes, and the queue of blocks that other threads freed.
  class TlsCache {
    const pool: Pool
    var caches: seq<BlockCache>
    var totalChunkNum: nat
    var recyclableChunkNum: nat
    var threadId: nat
    var tasks: seq<Addr>
    ghost var g: Lists

    ghost function V(): View
      reads this, pool
    {
      View(pool.hdr, pool.blk, caches, totalChunkNum, recyclableChunkNum,
           g.avail, g.recyc, g.owned, g.free, g.held)
    }

    constructor (cp: Pool)
      requires cp.Valid()
      ensures pool == cp && Valid() && g.owned == map[] && tasks == [] && threadId == 0 && totalChunkNum == 0
      ensures forall i :: 0 <= i < |g.held| ==> g.held[i] == {}
    {
      pool := cp;
      caches := seq(CLASSES, _ => BlockCache(0, 0, 0, 0, 0));
      totalChunkNum, recyclableChunkNum, threadId, tasks := 0, 0, 0, [];
      g := Lists(seq(CLASSES, _ => []), seq(CLASSES, _ => []), map[], map[], seq(CLASSES, _ => {}));
      new;
      EmptyView(V(), this);
    }

    ghost predicate Valid()
      reads this, pool
    {
      && pool.Valid() && Inv(V(), this) && TasksOk(tasks, g.held)
      && NotCentral(g.owned, pool.central)
    }

    // The thread that has the cache; 0 when none does.
    method AttachThread(id: nat)
      requires Valid() && id != 0
      modifies this`threadId
      ensures Valid() && threadId == id
    {
      threadId := id;
    }

    method DetachThread()
      requires Valid()
      modifies this`threadId
      ensures Valid() && threadId == 0
    {
      threadId := 0;
    }

    // One chunk is carved into a chain of free blocks.
    method CarveChunk(c: Addr, i: nat)
      requires i < CLASSES && c in pool.hdr
      modifies pool`hdr, pool`blk
      ensures c in pool.hdr && pool.hdr == old(pool.hdr)[c := pool.hdr[c]]
      ensures pool.hdr[c].prev == old(pool.hdr)[c].prev && pool.hdr[c].next == old(pool.hdr)[c].next
      ensures Carved(pool.hdr[c], pool.blk, c, i, this, BlockList(c, i))
      ensures forall b :: b in old(pool.blk) && b !in Blocks(c, i) ==> b in pool.blk && pool.blk[b] == old(pool.blk)[b]
    {
      hide Blocks;
      var size := Stride(i);
      var n := (CHUNK_SIZE - CHUNK_HEADER_SIZE) / size;
      ClassSizes(i);
      var p := c + CHUNK_HEADER_SIZE;
      assert p == BlockAt(c, i, 0) && n == BlocksPer(i);
      hide BlockAt;
      hide BlocksPer;
      hide Stride;
      hide Threaded;
      hide Carved;
      pool.hdr := pool.hdr[c := pool.hdr[c].(owner := this, index := i, total := n, avail := n, head := p)];
      var k := 0;
      while k < n - 1
        invariant 0 <= k <= n - 1 && p == BlockAt(c, i, k)
        invariant forall j :: 0 <= j < k ==> Threaded(pool.blk, c, i, j)
        invariant forall b :: b in old(pool.blk) && b !in Blocks(c, i) ==> b in pool.blk && pool.blk[b] == old(pool.blk)[b]
        modifies pool`blk
      {
        ThreadStep(pool.blk, c, i, k, pool.blk[p := BlockHeader(c, NextBlock(c, i, k))]);
        pool.blk := pool.blk[p := BlockHeader(c, p + size)];
        p := p + size;
        k := k + 1;
      }
      ThreadStep(pool.blk, c, i, k, pool.blk[p := BlockHeader(c, NextBlock(c, i, k))]);
      pool.blk := pool.blk[p := BlockHeader(c, 0)];
      CarvedBlocks(pool.hdr[c], pool.blk, c, i, this);
    }

    /** Chunks fetched from the pool are carved one by one along their list. */
    method BuildBlocks(first: Addr, i: nat, ghost s: seq<Addr>)
      requires pool.Valid() && i < CLASSES && Chain(pool.hdr, s, first)
      requires forall c :: c in s ==> c !in pool.central
      modifies pool
      ensures pool.Valid() && pool.central == old(pool.central) && pool.chunkNum == old(pool.chunkNum)
      ensures Built(old(pool.hdr), pool.hdr, old(pool.blk), pool.blk, i, s, this, first)
    {
      hide Chain;
      hide Spaced;
      hide Carved;
      hide Blocks;
      hide BlockList;
      hide BuiltUpTo;
      var c := first;
      ghost var k := 0;
      BuildStart(pool.hdr, pool.blk, i, s, this, first);
      while c != 0
        invariant 0 <= k <= |s| && c == At(s, k)
        invariant pool.Valid() && pool.central == old(pool.central) && pool.chunkNum == old(pool.chunkNum)
        invariant BuiltUpTo(old(pool.hdr), pool.hdr, old(pool.blk), pool.blk, i, s, this, first, k)
        decreases |s| - k
      {
        ghost var h, m := pool.hdr, pool.blk;
        BuildHere(old(pool.hdr), h, old(pool.blk), m, i, s, this, first, k);
        CarveChunk(c, i);
        BuildNext(old(pool.hdr), h, pool.hdr, old(pool.blk), m, pool.blk, i, s, this, first, k);
        ChainStays(h, pool.hdr, pool.central, pool.chunks, c);
        assert pool.hdr.Keys == h.Keys;
        c := pool.hdr[c].next;
        k := k + 1;
      }
      BuildEnd(old(pool.hdr), pool.hdr, old(pool.blk), pool.blk, i, s, this, first, k);
    }

    // The chunks this cache may touch: its own and the central ones.
    ghost function Reach(): set<Addr>
      reads this, pool
    {
      g.owned.Keys + Elements(pool.central)
    }

    // Both lists of class i are empty: get more chunks from the pool.
    method FetchChunks(i: nat) returns (ok: bool)
      requires Valid() && i < CLASSES && g.avail[i] == [] && g.recyc[i] == []
      modifies this, pool
      ensures Valid() && threadId == old(threadId) && tasks == old(tasks) && g.held == old(g.held)
      ensures ok <==> old(pool.chunkNum) >= pool.fetchChunkNum
      ensures ok ==> g.recyc[i] != [] && g.avail[i] == []
      ensures !ok ==> V() == old(V()) && pool.central == old(pool.central)
      ensures Reach() == old(Reach()) && |pool.central| + totalChunkNum == old(|pool.central| + totalChunkNum)
      ensures Elsewhere(old(pool.hdr), pool.hdr, old(pool.blk), pool.blk, Reach())
    {
      hide Chain;
      hide Inv;
      hide LinksOnly;
      hide Built;
      hide Elsewhere;
      hide Elements;
      hide Spaced;
      hide TasksOk;
      hide NotCentral;
      hide BlockList;
      ghost var v, before := V(), pool.central;
      InvShape(v, this);
      var n := pool.fetchChunkNum;
      ghost var s := if n <= |before| then before[..n] else [];
      FetchedRest(v, pool.hdr, before, pool.chunks, n, s, i);
      var first := pool.GetChunks(n);
      if first == 0 {
        assert V() == v;
        ElsewhereSame(v.h, v.m, Reach());
        return false;
      }
      ghost var h := pool.hdr;
      BuildBlocks(first, i, s);
      totalChunkNum := totalChunkNum + n;
      recyclableChunkNum := recyclableChunkNum + n;
      var bc := caches[i];
      caches := caches[i := bc.(totalSize := bc.totalSize + n * CHUNK_SIZE,
                                recyclableSize := bc.recyclableSize + n * CHUNK_SIZE, recyclable := first)];
      g := g.(owned := FetchedOwned(v, i, s), free := FetchedFree(v, i, s), recyc := g.recyc[i := s]);
      FetchedStep(v, V(), this, i, s, first, before, h);
      return true;
    }

    // The first recyclable chunk becomes the only available one.
    method PromoteChunk(i: nat) returns (c: Addr)
      requires Valid() && i < CLASSES && g.avail[i] == [] && g.recyc[i] != []
      modifies this, pool`hdr
      ensures InvHot(V(), this, c) && c != 0 && g.avail[i] == [c]
      ensures pool.Valid() && NotCentral(g.owned, pool.central)
      ensures threadId == old(threadId) && tasks == old(tasks) && totalChunkNum == old(totalChunkNum)
      ensures g.held == old(g.held) && g.owned == old(g.owned)
      ensures Elsewhere(old(pool.hdr), pool.hdr, pool.blk, pool.blk, Reach())
    {
      ghost var v := V();
      hide Inv;
      hide InvHot;
      hide Chain;
      hide Spaced;
      hide TasksOk;
      hide NotCentral;
      hide Elsewhere;
      hide OnlyClass;
      hide Elements;
      InvShape(v, this);
      FirstRecyclable(v, this, i);
      c := caches[i].recyclable;
      PromoteKeeps(v, this, i);
      var n := pool.hdr[c].next;
      if n != 0 {
        pool.hdr := pool.hdr[n := pool.hdr[n].(prev := 0)];
      }
      pool.hdr := pool.hdr[c := pool.hdr[c].(next := 0)];
      var bc := caches[i];
      caches, recyclableChunkNum, g :=
        caches[i := bc.(available := c, recyclable := n, recyclableSize := bc.recyclableSize - CHUNK_SIZE)],
        recyclableChunkNum - 1, g.(avail := g.avail[i := [c]], recyc := g.recyc[i := g.recyc[i][1..]]);
      assert V() == Promote(v, i);
      OwnStep(v, V(), i, pool.central, pool.chunks);
    }

    // A block from the first available chunk; the chunk leaves the list when it was its last one.
    method TakeBlock(i: nat, ghost hot: Addr) returns (b: Addr)
      requires pool.Valid() && InvHot(V(), this, hot) && NotCentral(g.owned, pool.central) && TasksOk(tasks, g.held)
      requires i < CLASSES && g.avail[i] != [] && (hot != 0 ==> g.avail[i] == [hot])
      modifies this, pool`hdr
      ensures Valid() && threadId == old(threadId) && tasks == old(tasks) && totalChunkNum == old(totalChunkNum)
      ensures g.held == old(g.held)[i := old(g.held)[i] + {b}] && g.owned == old(g.owned)
      ensures Fresh(V(), old(g.held), i, b)
      ensures Elsewhere(old(pool.hdr), pool.hdr, pool.blk, pool.blk, Reach())
    {
      ghost var v := V();
      hide Inv;
      hide InvHot;
      hide Chain;
      hide Spaced;
      hide TasksOk;
      hide NotCentral;
      hide Elsewhere;
      hide OnlyClass;
      hide Elements;
      hide BlockSize;
      hide Fresh;
      FirstAvailable(v, this, hot, i);
      TookKeeps(v, this, hot, i);
      TasksGrow(tasks, g.held, i, v.h[v.avail[i][0]].head);
      var c := caches[i].available;
      b := pool.hdr[c].head;
      pool.hdr := pool.hdr[c := pool.hdr[c].(head := pool.blk[b].next, avail := pool.hdr[c].avail - 1)];
      g := g.(free := g.free[c := g.free[c][1..]], held := g.held[i := g.held[i] + {b}]);
      if pool.hdr[c].avail == 0 {
        var n := pool.hdr[c].next;
        caches := caches[i := caches[i].(available := n)];
        if n != 0 {
          pool.hdr := pool.hdr[n := pool.hdr[n].(prev := 0)];
        }
        g := g.(avail := g.avail[i := g.avail[i][1..]]);
      }
      caches := caches[i := caches[i].(inUseSize := caches[i].inUseSize + BlockSize(i))];
      assert V() == Took(v, i);
      OwnStep(v, V(), i, pool.central, pool.chunks);
    }

    // In front of the chunk `first`.
    method LinkBefore(c: Addr, first: Addr)
      requires c in pool.hdr && c != 0 && (first != 0 ==> first in pool.hdr)
      modifies pool`hdr
      ensures pool.hdr == Pushed(old(pool.hdr), c, first)
    {
      pool.hdr := pool.hdr[c := pool.hdr[c].(prev := 0, next := first)];
      if first != 0 {
        pool.hdr := pool.hdr[first := pool.hdr[first].(prev := c)];
      }
    }

    // A chunk that was full goes to the front of `available`.
    method ListChunk(j: nat, c: Addr)
      requires Shape(V()) && j < CLASSES && c in pool.hdr && c != 0
      requires caches[j].available != 0 ==> caches[j].available in pool.hdr
      modifies this`caches, this`g, pool`hdr
      ensures V() == Listed(old(V()), j, c) && g.owned == old(g.owned) && g.held == old(g.held)
    {
      hide Pushed;
      LinkBefore(c, caches[j].available);
      caches := caches[j := caches[j].(available := c)];
      g := g.(avail := g.avail[j := [c] + g.avail[j]]);
    }

    // Out of `available`, wherever in it the chunk is.
    method UnlinkChunk(j: nat, c: Addr)
      requires |caches| == CLASSES && j < CLASSES && c in pool.hdr
      requires var p := pool.hdr[c].prev; p != 0 ==> p in pool.hdr && p != c
      requires var n := pool.hdr[c].next; n != 0 ==> n in pool.hdr && n != c
      modifies this`caches, pool`hdr
      ensures var p, n := old(pool.hdr)[c].prev, old(pool.hdr)[c].next;
        && pool.hdr == Unlinked(old(pool.hdr), p, n) && pool.hdr.Keys == old(pool.hdr).Keys && |caches| == CLASSES
        && caches == old(caches)[j := old(caches)[j].(available := if p == 0 then n else old(caches)[j].available)]
    {
      var p, n := pool.hdr[c].prev, pool.hdr[c].next;
      if p == 0 {
        caches := caches[j := caches[j].(available := n)];
      } else {
        pool.hdr := pool.hdr[p := pool.hdr[p].(next := n)];
      }
      if n != 0 {
        pool.hdr := pool.hdr[n := pool.hdr[n].(prev := p)];
      }
    }

    // A chunk whose blocks are all free moves from `available` to the front of `recyclable`.
    method MoveChunk(j: nat, c: Addr)
      requires Shape(V()) && j < CLASSES && c in pool.hdr && c != 0 && c in g.avail[j]
      requires var p := pool.hdr[c].prev; p != 0 ==> p in pool.hdr && p != c
      requires var n := pool.hdr[c].next; n != 0 ==> n in pool.hdr && n != c
      requires caches[j].recyclable != 0 ==> caches[j].recyclable in pool.hdr
      modifies this`caches, this`g, this`recyclableChunkNum, pool`hdr
      ensures V() == Moved(old(V()), j, c) && g.owned == old(g.owned) && g.held == old(g.held)
    {
      hide Without;
      hide Pushed;
      hide Unlinked;
      UnlinkChunk(j, c);
      LinkBefore(c, caches[j].recyclable);
      caches := caches[j := caches[j].(recyclable := c, recyclableSize := caches[j].recyclableSize + CHUNK_SIZE)];
      recyclableChunkNum := recyclableChunkNum + 1;
      g := g.(avail := g.avail[j := Without(g.avail[j], IndexOf(g.avail[j], c))], recyc := g.recyc[j := [c] + g.recyc[j]]);
    }

    // The block goes back to its chunk, and the chunk to the list it now belongs to.
    method FreeBlock(b: Addr, c: Addr)
      requires Valid() && c in pool.hdr && CanGive(V(), pool.hdr[c].index, c, b) && Payload(b) !in tasks
      modifies this`caches, this`g, this`recyclableChunkNum, pool`hdr, pool`blk
      ensures Valid() && |old(g.held)| == CLASSES && g.owned == old(g.owned)
      ensures var i := old(pool.hdr[c].index); i < CLASSES && g.held == old(g.held)[i := old(g.held)[i] - {b}]
      ensures Elsewhere(old(pool.hdr), pool.hdr, old(pool.blk), pool.blk, Reach())
    {
      hide Inv;
      hide Chain;
      hide Spaced;
      hide TasksOk;
      hide NotCentral;
      hide Elsewhere;
      hide OnlyClass;
      hide Elements;
      hide BlockSize;
      hide Blocks;
      hide Listed;
      hide Moved;
      ghost var v := V();
      var j := pool.hdr[c].index;
      PutKeeps(v, this, j, c, b);
      TasksShrink(tasks, g.held, j, b);
      PutChunkState(v, this, j, c, b);
      PutInUse(v, this, j, c, b);
      PutPointers(v, this, j, c, b);
      pool.blk := pool.blk[b := pool.blk[b].(next := pool.hdr[c].head)];
      pool.hdr := pool.hdr[c := pool.hdr[c].(head := b, avail := pool.hdr[c].avail + 1)];
      caches := caches[j := caches[j].(inUseSize := caches[j].inUseSize - BlockSize(j))];
      g := g.(free := g.free[c := [b] + g.free[c]], held := g.held[j := g.held[j] - {b}]);
      assert V() == Freed(v, j, c, b);
      if pool.hdr[c].avail == 1 {
        ListChunk(j, c);
        ListedCounts(Freed(v, j, c, b), j, c);
      }
      if pool.hdr[c].avail == pool.hdr[c].total {
        MoveChunk(j, c);
      }
      assert V() == Put(v, j, c, b);
      InvShape(V(), this);
      OwnStep(v, V(), j, pool.central, pool.chunks);
    }

    // The recyclable chunks of class i go back to the pool; d chunks have gone back already without being counted.
    method RecycleClass(i: nat, ghost d: nat) returns (ghost e: nat)
      requires pool.Valid() && InvLess(V(), this, d) && NotCentral(g.owned, pool.central) && i < CLASSES
      modifies this`caches, this`g, pool
      ensures pool.Valid() && InvLess(V(), this, e) && NotCentral(g.owned, pool.central)
      ensures g.held == old(g.held) && pool.blk == old(pool.blk)
      ensures |old(g.recyc)| == CLASSES && g.recyc == old(g.recyc)[i := []]
      ensures e == d + |old(g.recyc)[i]| && |pool.central| == |old(pool.central)| + |old(g.recyc)[i]|
      ensures Reach() == old(Reach()) && Elsewhere(old(pool.hdr), pool.hdr, old(pool.blk), pool.blk, Reach())
    {
      hide Inv;
      hide Chain;
      hide Spaced;
      hide LinksOnly;
      hide NotCentral;
      hide Elsewhere;
      hide Elements;
      ghost var v, central := Less(V(), d), pool.central;
      InvShape(v, this);
      ghost var s := g.recyc[i];
      e := d + |s|;
      DropCounts(v, this, i);
      RecycList(v, this, i, central);
      pool.PutChunks(caches[i].recyclable, s);
      var bc := caches[i];
      caches := caches[i := bc.(recyclable := 0, totalSize := bc.totalSize - bc.recyclableSize, recyclableSize := 0)];
      g := g.(owned := g.owned - Elements(s), free := g.free - Elements(s), recyc := g.recyc[i := []]);
      RecycKeeps(v, Less(V(), e), this, i, central);
      RecycReach(v.h, pool.hdr, v.m, v.owned, s, central);
    }

    // Above the threshold, no more than the permitted number of chunks is idle.
    ghost predicate Trimmed()
      reads this
    {
      totalChunkNum * CHUNK_SIZE > pool.recycleThresholdMb * 0x10_0000 && recyclableChunkNum >= pool.recycleChunkNum ==>
        recyclableChunkNum == 0
    }

    /** Above the threshold, every chunk without a block out goes back to the pool. */
    method Recycle()
      requires Valid()
      modifies this, pool
      ensures Valid() && threadId == old(threadId) && tasks == old(tasks) && g.held == old(g.held)
      ensures Reach() == old(Reach()) && |pool.central| + totalChunkNum == old(|pool.central| + totalChunkNum)
      ensures Elsewhere(old(pool.hdr), pool.hdr, old(pool.blk), pool.blk, Reach())
      ensures old(totalChunkNum * CHUNK_SIZE > pool.recycleThresholdMb * 0x10_0000
          && recyclableChunkNum >= pool.recycleChunkNum) ==>
        recyclableChunkNum == 0 && |pool.central| == old(|pool.central| + recyclableChunkNum)
      ensures old(totalChunkNum * CHUNK_SIZE <= pool.recycleThresholdMb * 0x10_0000
          || recyclableChunkNum < pool.recycleChunkNum) ==>
        V() == old(V()) && g == old(g) && pool.central == old(pool.central)
      ensures Trimmed()
    {
      hide Inv;
      hide Chain;
      hide Spaced;
      hide TasksOk;
      hide NotCentral;
      hide Elsewhere;
      hide Elements;
      ElsewhereSame(pool.hdr, pool.blk, Reach());
      if totalChunkNum * CHUNK_SIZE > pool.recycleThresholdMb * 0x10_0000 && recyclableChunkNum >= pool.recycleChunkNum {
        InvShape(V(), this);
        assert Less(V(), 0) == V();
        ghost var d, h, m := 0, pool.hdr, pool.blk;
        for i := 0 to CLASSES
          invariant pool.Valid() && InvLess(V(), this, d) && NotCentral(g.owned, pool.central)
          invariant threadId == old(threadId) && tasks == old(tasks) && g.held == old(g.held)
          invariant totalChunkNum == old(totalChunkNum) && recyclableChunkNum == old(recyclableChunkNum)
          invariant |g.recyc| == CLASSES && forall j :: 0 <= j < i ==> g.recyc[j] == []
          invariant |pool.central| == old(|pool.central|) + d
          invariant Reach() == old(Reach()) && Elsewhere(h, pool.hdr, m, pool.blk, Reach())
        {
          ghost var h1, m1 := pool.hdr, pool.blk;
          d := RecycleClass(i, d);
          ElsewhereThen(h, h1, pool.hdr, m, m1, pool.blk, Reach());
        }
        AllRecycled(V(), this, d);
        totalChunkNum := totalChunkNum - recyclableChunkNum;
        recyclableChunkNum := 0;
      }
    }

    /** `PutBlock`: a block of this thread's cache is freed in place, one of another thread's cache is queued there. */
    method PutBlock(ptr: Addr, ghost owner: TlsCache)
      requires Valid() && owner.Valid() && owner.pool == pool && (owner.threadId == threadId ==> owner == this)
      requires Queued(ptr, owner.g.held) && ptr !in owner.tasks
      modifies this, pool, owner`tasks
      ensures Valid() && owner.Valid() && threadId == old(threadId) && owner.threadId == old(owner.threadId)
      ensures HandsLose(old(owner.g.held), old(owner.tasks), owner.g.held, owner.tasks, ptr - BLOCK_HEADER_SIZE)
      ensures owner == this ==> tasks == old(tasks) && Trimmed()
      ensures old(totalChunkNum * CHUNK_SIZE <= pool.recycleThresholdMb * 0x10_0000) ==> pool.central == old(pool.central)
      ensures owner != this ==>
        && owner.tasks == old(owner.tasks) + [ptr] && owner.V() == old(owner.V()) && V() == old(V()) && tasks == old(tasks)
        && owner.g == old(owner.g) && g == old(g) && pool.central == old(pool.central)
      ensures Reach() == old(Reach()) && |pool.central| + totalChunkNum == old(|pool.central| + totalChunkNum)
      ensures Elsewhere(old(pool.hdr), pool.hdr, old(pool.blk), pool.blk, Reach())
    {
      hide Inv;
      hide Chain;
      hide Spaced;
      hide TasksOk;
      hide NotCentral;
      hide Elsewhere;
      hide Elements;
      hide HandsLose;
      hide Queued;
      OwnerKnown(owner.V(), owner, ptr);
      ElsewhereSame(pool.hdr, pool.blk, Reach());
      var b := ptr - BLOCK_HEADER_SIZE;
      var c := pool.blk[b].chunk;
      var o := pool.hdr[c].owner as TlsCache;
      assert o == owner;
      if o.threadId != threadId {
        TasksPush(o.tasks, o.g.held, ptr);
        o.tasks := o.tasks + [ptr];
        return;
      }
      FreedHands(g.held, tasks, pool.hdr[c].index, b);
      ghost var h, m := pool.hdr, pool.blk;
      FreeBlock(b, c);
      ghost var h1, m1 := pool.hdr, pool.blk;
      Recycle();
      ElsewhereThen(h, h1, pool.hdr, m, m1, pool.blk, Reach());
    }

    /** `DeferredDeallocate`: everything queued comes home; what users hold does not change. */
    method DeferredDeallocate()
      requires Valid()
      modifies this, pool
      ensures Valid() && threadId == old(threadId) && tasks == []
      ensures SameHands(old(g.held), old(tasks), g.held, [])
      ensures Reach() == old(Reach()) && |pool.central| + totalChunkNum == old(|pool.central| + totalChunkNum)
      ensures Elsewhere(old(pool.hdr), pool.hdr, old(pool.blk), pool.blk, Reach())
    {
      hide Inv;
      hide Chain;
      hide Spaced;
      hide TasksOk;
      hide NotCentral;
      hide Elsewhere;
      hide Elements;
      hide HandsLose;
      hide SameHands;
      hide Queued;
      ElsewhereSame(pool.hdr, pool.blk, Reach());
      SameHandsRefl(g.held, tasks);
      ghost var h, m, held, all := pool.hdr, pool.blk, g.held, tasks;
      while tasks != []
        invariant Valid() && threadId == old(threadId)
        invariant SameHands(held, all, g.held, tasks)
        invariant Reach() == old(Reach()) && |pool.central| + totalChunkNum == old(|pool.central| + totalChunkNum)
        invariant Elsewhere(h, pool.hdr, m, pool.blk, Reach())
        decreases |tasks|
      {
        ghost var h1, m1, held1, tasks1 := pool.hdr, pool.blk, g.held, tasks;
        var task := tasks[0];
        TasksPop(tasks, g.held);
        tasks := tasks[1..];
        PutBlock(task, this);
        ElsewhereThen(h, h1, pool.hdr, m, m1, pool.blk, Reach());
        PoppedHands(held, all, held1, tasks1, g.held);
      }
    }

    /** `~TLSCache` of a cache whose two counters agree: every chunk goes back to the pool. */
    method Release()
      requires Valid() && totalChunkNum == recyclableChunkNum && tasks == []
      modifies this, pool
      ensures Valid() && threadId == old(threadId) && tasks == [] && g.owned == map[] && totalChunkNum == 0
      ensures Reach() == old(Reach()) && |pool.central| == old(|pool.central| + totalChunkNum)
      ensures Elsewhere(old(pool.hdr), pool.hdr, old(pool.blk), pool.blk, Reach())
    {
      hide Inv;
      hide Chain;
      hide Spaced;
      hide TasksOk;
      hide NotCentral;
      hide Elsewhere;
      hide Elements;
      ElsewhereSame(pool.hdr, pool.blk, Reach());
      InvShape(V(), this);
      RecyclableIsIdle(V(), this);
      assert Less(V(), 0) == V();
      ghost var d, h, m := 0, pool.hdr, pool.blk;
      for i := 0 to CLASSES
        invariant pool.Valid() && InvLess(V(), this, d) && NotCentral(g.owned, pool.central)
        invariant threadId == old(threadId) && tasks == [] && g.held == old(g.held)
        invariant totalChunkNum == recyclableChunkNum == old(totalChunkNum)
        invariant |g.recyc| == CLASSES && forall j :: 0 <= j < i ==> g.recyc[j] == []
        invariant |pool.central| == old(|pool.central|) + d
        invariant Reach() == old(Reach()) && Elsewhere(h, pool.hdr, m, pool.blk, Reach())
      {
        ghost var h1, m1 := pool.hdr, pool.blk;
        d := RecycleClass(i, d);
        ElsewhereThen(h, h1, pool.hdr, m, m1, pool.blk, Reach());
        InvShape(Less(V(), d), this);
        IdleClass(Less(V(), d), this, i);
        ghost var v := V();
        caches := caches[i := BlockCache(0, 0, 0, 0, 0)];
        assert V() == v;
      }
      AllReleased(V(), this, d);
      totalChunkNum, recyclableChunkNum := 0, 0;
    }

    /** `~TLSCacheGuard`: the queue is drained and the thread leaves.  The cache is given up, all its chunks back in the pool,
     *  exactly when no user holds a block of it; otherwise it keeps what users hold. */
    method Exit() returns (gone: bool)
      requires Valid()
      modifies this, pool
      ensures Valid() && threadId == 0 && tasks == []
      ensures |old(g.held)| == CLASSES && (gone <==> forall i :: 0 <= i < CLASSES ==> Hands(old(g.held)[i], old(tasks)) == {})
      ensures gone ==> g.owned == map[] && totalChunkNum == 0
      ensures !gone ==> SameHands(old(g.held), old(tasks), g.held, [])
      ensures Reach() == old(Reach()) && |pool.central| + totalChunkNum == old(|pool.central| + totalChunkNum)
      ensures Elsewhere(old(pool.hdr), pool.hdr, old(pool.blk), pool.blk, Reach())
    {
      hide Inv;
      hide Pool.Valid;
      hide TasksOk;
      hide NotCentral;
      hide Elsewhere;
      hide Elements;
      hide SameHands;
      hide Hands;
      ghost var h, m := pool.hdr, pool.blk;
      InvShape(V(), this);
      DeferredDeallocate();
      DetachThread();
      RecyclableIsIdle(V(), this);
      IdleHands(old(g.held), old(tasks), g.held);
      if totalChunkNum != recyclableChunkNum { return false; }
      ghost var h1, m1 := pool.hdr, pool.blk;
      Release();
      ElsewhereThen(h, h1, pool.hdr, m, m1, pool.blk, Reach());
      return true;
    }

    /** `GetBlock`: a block of the smallest size that fits, one that nobody holds and that is not on its way back; null
     *  only when the class has no free block even after the queue is drained and the pool cannot supply more. */
    method GetBlock(size: nat) returns (r: Addr)
      requires Valid() && 0 < size <= 0x8_0000
      modifies this, pool
      ensures Valid() && threadId == old(threadId)
      ensures old(InStock(V(), BlockIndex(size))) ==> r != 0 && tasks == old(tasks) && pool.central == old(pool.central)
      ensures !old(InStock(V(), BlockIndex(size))) ==> tasks == []
      ensures r == 0 ==>
        && SameHands(old(g.held), old(tasks), g.held, tasks) && tasks == []
        && NothingFree(V(), BlockIndex(size)) && pool.chunkNum < pool.fetchChunkNum
      ensures r != 0 ==>
        && r > BLOCK_HEADER_SIZE && var b := r - BLOCK_HEADER_SIZE;
        && HandsGain(old(g.held), old(tasks), g.held, tasks, BlockIndex(size), b)
        && b in pool.blk && pool.blk[b].chunk in g.owned && g.owned[pool.blk[b].chunk] == BlockIndex(size)
        && b in Blocks(pool.blk[b].chunk, BlockIndex(size))
      ensures Reach() == old(Reach()) && |pool.central| + totalChunkNum == old(|pool.central| + totalChunkNum)
      ensures Elsewhere(old(pool.hdr), pool.hdr, old(pool.blk), pool.blk, Reach())
    {
      hide Inv;
      hide InvHot;
      hide Chain;
      hide Spaced;
      hide TasksOk;
      hide NotCentral;
      hide Elsewhere;
      hide Elements;
      hide SameHands;
      hide HandsGain;
      hide Blocks;
      hide BlockIndex;
      hide NothingFree;
      BlockIndexIsBestFit(size);
      var i := BlockIndex(size);
      ghost var h, m, held, all := pool.hdr, pool.blk, g.held, tasks;
      ElsewhereSame(pool.hdr, pool.blk, Reach());
      SameHandsRefl(held, all);
      EmptyLists(V(), this, i);
      if caches[i].available == 0 && caches[i].recyclable == 0 {
        DeferredDeallocate();
        EmptyLists(V(), this, i);
      }
      ghost var hot := 0;
      if caches[i].available == 0 {
        if caches[i].recyclable == 0 {
          ghost var h1, m1 := pool.hdr, pool.blk;
          var ok := FetchChunks(i);
          ElsewhereThen(h, h1, pool.hdr, m, m1, pool.blk, Reach());
          if !ok {
            NothingLeft(V(), this, i);
            return 0;
          }
        }
        ghost var h2 := pool.hdr;
        hot := PromoteChunk(i);
        ElsewhereThen(h, h2, pool.hdr, m, pool.blk, pool.blk, Reach());
      } else {
        CoolInv(V(), this);
      }
      ghost var h3, held3 := pool.hdr, g.held;
      var b := TakeBlock(i, hot);
      ElsewhereThen(h, h3, pool.hdr, m, pool.blk, pool.blk, Reach());
      TakenHands(held, all, held3, tasks, i, b);
      return b + BLOCK_HEADER_SIZE;
    }

    /** `Allocate`: sizes of 0 and above the largest block are refused without touching anything. */
    method Allocate(size: nat) returns (r: Addr)
      requires Valid()
      modifies this, pool
      ensures Valid() && threadId == old(threadId)
      ensures size == 0 || size > 0x8_0000 ==>
        r == 0 && V() == old(V()) && tasks == old(tasks) && pool.central == old(pool.central)
      ensures 0 < size <= 0x8_0000 && r == 0 ==>
        && SameHands(old(g.held), old(tasks), g.held, tasks)
        && NothingFree(V(), BlockIndex(size)) && pool.chunkNum < pool.fetchChunkNum
      ensures r != 0 ==>
        && 0 < size <= 0x8_0000 && r > BLOCK_HEADER_SIZE && var b := r - BLOCK_HEADER_SIZE;
        && HandsGain(old(g.held), old(tasks), g.held, tasks, BlockIndex(size), b)
        && b in pool.blk && pool.blk[b].chunk in g.owned && g.owned[pool.blk[b].chunk] == BlockIndex(size)
        && b in Blocks(pool.blk[b].chunk, BlockIndex(size))
      ensures Reach() == old(Reach()) && |pool.central| + totalChunkNum == old(|pool.central| + totalChunkNum)
      ensures Elsewhere(old(pool.hdr), pool.hdr, old(pool.blk), pool.blk, Reach())
    {
      hide Inv;
      hide Chain;
      hide TasksOk;
      hide NotCentral;
      hide Elsewhere;
      hide SameHands;
      hide HandsGain;
      hide Blocks;
      hide BlockIndex;
      hide NothingFree;
      if size > 0x8_0000 || size == 0 {
        ElsewhereSame(pool.hdr, pool.blk, Reach());
        return 0;
      }
      r := GetBlock(size);
    }
  }

  // Outside `mine`, headers of chunks and of their blocks are as they were.
  ghost predicate Elsewhere(h: Chunks, g: Chunks, m: BlockMap, n: BlockMap, mine: set<Addr>) {
    && h.Keys == g.Keys
    && (forall c :: c in h && c !in mine ==> g[c] == h[c])
    && (forall c, i, b :: c in h && c !in mine && b in Blocks(c, i) && b in m ==> b in n && n[b] == m[b])
  }

  lemma ElsewhereSame(h: Chunks, m: BlockMap, mine: set<Addr>)
    ensures Elsewhere(h, h, m, m, mine)
  {
  }

  lemma ElsewhereThen(h: Chunks, g: Chunks, f: Chunks, m: BlockMap, n: BlockMap, l: BlockMap, mine: set<Addr>)
    requires Elsewhere(h, g, m, n, mine) && Elsewhere(g, f, n, l, mine)
    ensures Elsewhere(h, f, m, l, mine)
  {
    hide Blocks;
    assert forall c :: c in h <==> c in g;
  }

  // A step on the cache's own chunks leaves the central list and everything else alone.
  lemma OwnStep(v: View, w: View, i: nat, central: seq<Addr>, chunks: Addr)
    requires Shape(v) && Shape(w) && OnlyClass(v, w, i) && Spaced(v.h.Keys)
    requires Chain(v.h, central, chunks) && NotCentral(v.owned, central)
    requires w.m == v.m || exists c, b :: c in v.owned && c in v.h && b in Blocks(c, v.owned[c]) && b in w.m && w.m == v.m[b := w.m[b]]
    ensures Chain(w.h, central, chunks) && Spaced(w.h.Keys)
    ensures Elsewhere(v.h, w.h, v.m, w.m, v.owned.Keys + Elements(central))
  {
    hide Blocks;
    ChainInMap(v.h, central, chunks);
    ChainFrame(v.h, w.h, central, chunks);
    assert v.h.Keys == w.h.Keys;
    hide Chain;
    if w.m != v.m {
      var c, b :| c in v.owned && c in v.h && b in Blocks(c, v.owned[c]) && b in w.m && w.m == v.m[b := w.m[b]];
      forall d, j, x | d in v.h && d !in v.owned && x in Blocks(d, j) ensures x != b {
        BlocksDisjoint(c, v.owned[c], d, j);
      }
    }
  }

  // A block of a chunk that was not fetched is not a block of one that was.
  lemma NotCarved(h: Chunks, s: seq<Addr>, i: nat, c: Addr, j: nat, b: Addr)
    requires Spaced(h.Keys) && c in h && c !in s && b in Blocks(c, j) && forall x :: x in s ==> x in h
    ensures forall x :: x in s ==> b !in Blocks(x, i)
  {
    hide Blocks;
    forall x | x in s ensures b !in Blocks(x, i) { BlocksDisjoint(c, j, x, i); }
  }

  // The chunks s are carved, and nothing else in memory changed.
  ghost predicate Built(h: Chunks, g: Chunks, m: BlockMap, n: BlockMap, i: nat, s: seq<Addr>, o: object, first: Addr) {
    && Chain(g, s, first) && h.Keys == g.Keys
    && (forall c :: c in s ==> c in g && Carved(g[c], n, c, i, o, BlockList(c, i)))
    && (forall c :: c in h && c !in s ==> g[c] == h[c])
    && (forall b :: b in m && (forall c :: c in s ==> b !in Blocks(c, i)) ==> b in n && n[b] == m[b])
  }

  // The same of the first k.
  ghost predicate BuiltUpTo(h: Chunks, g: Chunks, m: BlockMap, n: BlockMap, i: nat, s: seq<Addr>, o: object, first: Addr,
                            k: nat)
  {
    && Chain(g, s, first) && h.Keys == g.Keys && k <= |s|
    && (forall j :: 0 <= j < k ==> s[j] in g && Carved(g[s[j]], n, s[j], i, o, BlockList(s[j], i)))
    && (forall c :: c in h && c !in s ==> g[c] == h[c])
    && (forall b :: b in m && (forall c :: c in s ==> b !in Blocks(c, i)) ==> b in n && n[b] == m[b])
  }

  lemma BuildStart(h: Chunks, m: BlockMap, i: nat, s: seq<Addr>, o: object, first: Addr)
    requires Chain(h, s, first)
    ensures BuiltUpTo(h, h, m, m, i, s, o, first, 0) && first == At(s, 0)
  {
  }

  lemma BuildHere(h: Chunks, g: Chunks, m: BlockMap, n: BlockMap, i: nat, s: seq<Addr>, o: object, first: Addr, k: nat)
    requires BuiltUpTo(h, g, m, n, i, s, o, first, k) && k < |s|
    ensures s[k] in g
  {
    assert Linked(g, s, k);
  }

  lemma BuildNext(h: Chunks, g: Chunks, f: Chunks, m: BlockMap, n: BlockMap, l: BlockMap, i: nat, s: seq<Addr>, o: object,
                  first: Addr, k: nat)
    requires BuiltUpTo(h, g, m, n, i, s, o, first, k) && k < |s| && Spaced(g.Keys)
    requires s[k] in g && s[k] in f && f == g[s[k] := f[s[k]]]
    requires f[s[k]].prev == g[s[k]].prev && f[s[k]].next == g[s[k]].next
    requires Carved(f[s[k]], l, s[k], i, o, BlockList(s[k], i))
    requires forall b :: b in n && b !in Blocks(s[k], i) ==> b in l && l[b] == n[b]
    ensures BuiltUpTo(h, f, m, l, i, s, o, first, k + 1) && f[s[k]].next == At(s, k + 1)
  {
    hide Carved;
    hide Blocks;
    hide BlockList;
    hide Chain;
    hide Spaced;
    ChainStays(g, f, s, first, s[k]);
    ChainNext(f, s, first, k);
    forall j | 0 <= j <= k ensures s[j] in f && Carved(f[s[j]], l, s[j], i, o, BlockList(s[j], i)) {
      if j < k { BuiltStays(g, f, n, l, i, s, o, first, j, k); }
    }
    assert s[k] in s;
  }

  lemma ChainNext(h: Chunks, s: seq<Addr>, first: Addr, k: nat)
    requires Chain(h, s, first) && k < |s|
    ensures s[k] in h && h[s[k]].next == At(s, k + 1)
  {
    assert Linked(h, s, k);
  }

  lemma BuiltStays(g: Chunks, f: Chunks, n: BlockMap, l: BlockMap, i: nat, s: seq<Addr>, o: object, first: Addr, j: nat, k: nat)
    requires Chain(g, s, first) && j < k < |s| && Spaced(g.Keys) && s[k] in g && s[k] in f && f == g[s[k] := f[s[k]]]
    requires s[j] in g && Carved(g[s[j]], n, s[j], i, o, BlockList(s[j], i))
    requires forall b :: b in n && b !in Blocks(s[k], i) ==> b in l && l[b] == n[b]
    ensures s[j] in f && Carved(f[s[j]], l, s[j], i, o, BlockList(s[j], i))
  {
    hide Carved;
    hide Blocks;
    hide BlockList;
    Differ(s, j, k);
    CarvedFrame(g[s[j]], n, l, s[j], i, o, s[k]);
  }

  lemma BuildEnd(h: Chunks, g: Chunks, m: BlockMap, n: BlockMap, i: nat, s: seq<Addr>, o: object, first: Addr, k: nat)
    requires BuiltUpTo(h, g, m, n, i, s, o, first, k) && At(s, k) == 0
    ensures Built(h, g, m, n, i, s, o, first)
  {
    assert k < |s| ==> Linked(g, s, k);
    hide Carved;
    hide Blocks;
    hide BlockList;
    hide Chain;
  }

  // What carving the fetched chunks s did to memory.
  ghost predicate CarvedOnly(v: View, w: View, i: nat, s: seq<Addr>, before: seq<Addr>) {
    && w.h.Keys == v.h.Keys
    && (forall c :: c in v.h && c !in before ==> w.h[c] == v.h[c])
    && (forall b :: b in v.m && (forall c :: c in s ==> b !in Blocks(c, i)) ==> b in w.m && w.m[b] == v.m[b])
  }

  lemma CarvedElsewhere(v: View, w: View, i: nat, s: seq<Addr>, before: seq<Addr>, mine: set<Addr>)
    requires CarvedOnly(v, w, i, s, before) && Spaced(v.h.Keys) && Elements(before) <= mine
    requires forall x :: x in s ==> x in v.h && x in before
    ensures Elsewhere(v.h, w.h, v.m, w.m, mine)
  {
    hide Blocks;
    forall c, j, b | c in v.h && c !in mine && b in Blocks(c, j) && b in v.m ensures b in w.m && w.m[b] == v.m[b] {
      assert c !in s;
      NotCarved(v.h, s, i, c, j, b);
    }
  }

  lemma CarvedUntouched(v: View, w: View, i: nat, s: seq<Addr>, before: seq<Addr>)
    requires CarvedOnly(v, w, i, s, before) && Spaced(v.h.Keys)
    requires forall x :: x in s ==> x in v.h && x in before
    requires forall c :: c in v.owned ==> c in v.h && c !in before
    ensures Untouched(v, w)
  {
    hide Blocks;
    forall c, b | c in v.owned && b in Blocks(c, v.owned[c]) && b in v.m ensures b in w.m && w.m[b] == v.m[b] {
      NotCarved(v.h, s, i, c, v.owned[c], b);
    }
  }

  lemma FetchedFits(v: View, w: View, o: object, i: nat, s: seq<Addr>, first: Addr, before: seq<Addr>)
    requires Shape(v) && i < CLASSES && v.avail[i] == [] && v.recyc[i] == []
    requires CarvedOnly(v, w, i, s, before) && Spaced(v.h.Keys)
    requires forall x :: x in s ==> x in v.h && x in before
    requires forall c :: c in v.owned ==> c in v.h && c !in before
    requires Chain(w.h, s, first)
    requires forall c :: c in s ==> c in w.h && Carved(w.h[c], w.m, c, i, o, BlockList(c, i))
    requires FetchedMaps(v, w, i, s) && FetchedNumbers(v, w, i, s, first)
    ensures Fetched(v, w, o, i, s, first)
  {
    hide Carved;
    hide Blocks;
    hide BlockList;
    hide Chain;
    hide FetchedMaps;
    hide FetchedNumbers;
    hide CarvedOnly;
    hide Untouched;
    CarvedUntouched(v, w, i, s, before);
    ChainNonNull(w.h, s, first);
    forall c | c in s ensures c !in v.owned && forall d :: (d in s && d != c) || d in v.owned ==> Apart(c, d) {
      AllApart(v.h.Keys, c);
    }
  }

  lemma AllApart(s: set<Addr>, c: Addr)
    requires Spaced(s) && c in s
    ensures forall d :: d in s && d != c ==> Apart(c, d)
  {
  }

  lemma ChainNonNull(h: Chunks, s: seq<Addr>, first: Addr)
    requires Chain(h, s, first)
    ensures forall c :: c in s ==> c != 0
  {
    forall c | c in s ensures c != 0 {
      var k :| 0 <= k < |s| && s[k] == c;
      assert Linked(h, s, k);
    }
  }

  lemma FetchedStep(v: View, w: View, o: object, i: nat, s: seq<Addr>, first: Addr, before: seq<Addr>, h: Chunks)
    requires Inv(v, o) && i < CLASSES && v.avail[i] == [] && v.recyc[i] == [] && Spaced(v.h.Keys)
    requires s <= before && (forall c :: c in before ==> c in v.h && c !in v.owned)
    requires LinksOnly(v.h, h, Elements(before)) && Built(h, w.h, v.m, w.m, i, s, o, first)
    requires w.owned == FetchedOwned(v, i, s) && w.free == FetchedFree(v, i, s) && FetchedNumbers(v, w, i, s, first)
    ensures Inv(w, o)
    ensures Elsewhere(v.h, w.h, v.m, w.m, v.owned.Keys + Elements(before))
  {
    assert FetchedMaps(v, w, i, s);
    PrefixIn(s, before);
    FetchedCarves(v, w, o, i, s, first, before, h);
    forall c | c in v.owned ensures c in v.h && c !in before { assert ChunkOk(v, o, c); }
    hide Carved;
    hide Blocks;
    hide Chain;
    hide CarvedOnly;
    hide FetchedMaps;
    hide FetchedNumbers;
    hide LinksOnly;
    hide Spaced;
    CarvedElsewhere(v, w, i, s, before, v.owned.Keys + Elements(before));
    FetchedFits(v, w, o, i, s, first, before);
    hide Built;
    FetchedKeeps(v, o, w, i, s, first);
  }

  lemma PrefixIn(s: seq<Addr>, t: seq<Addr>)
    requires s <= t
    ensures forall x :: x in s ==> x in t
  {
    forall x | x in s ensures x in t {
      var k :| 0 <= k < |s| && s[k] == x;
      assert t[k] == x;
    }
  }

  lemma FetchedCarves(v: View, w: View, o: object, i: nat, s: seq<Addr>, first: Addr, before: seq<Addr>, h: Chunks)
    requires forall x :: x in s ==> x in before
    requires LinksOnly(v.h, h, Elements(before)) && Built(h, w.h, v.m, w.m, i, s, o, first)
    ensures CarvedOnly(v, w, i, s, before)
  {
    LinksOnlyElsewhere(v.h, h, Elements(before));
    hide Carved;
    hide Blocks;
    hide Chain;
    hide LinksOnly;
  }

  ghost function FetchedOwned(v: View, i: nat, s: seq<Addr>): map<Addr, nat> { v.owned + (map c | c in s :: i) }

  ghost function FetchedFree(v: View, i: nat, s: seq<Addr>): map<Addr, seq<Addr>> {
    v.free + (map c | c in s :: BlockList(c, i))
  }

  lemma FirstRecyclable(v: View, o: object, i: nat)
    requires Inv(v, o) && i < CLASSES && v.recyc[i] != []
    ensures v.recyc[i][0] == v.caches[i].recyclable && v.recyc[i][0] != 0 && v.recyc[i][0] in v.h
    ensures v.h[v.recyc[i][0]].next != 0 ==> v.h[v.recyc[i][0]].next in v.h
    ensures v.h[v.recyc[i][0]].next != v.recyc[i][0]
    ensures v.recyclable > 0 && v.caches[i].recyclableSize >= CHUNK_SIZE
  {
    var s := v.recyc[i];
    assert ListOk(v, i) && Linked(v.h, s, 0) && ClassSize(v, i);
    if |s| > 1 { assert Linked(v.h, s, 1); Differ(s, 0, 1); }
    SumLenUpdate(v.recyc, i, []);
  }

  // A block that nobody had, inside a chunk of the class asked for.
  ghost predicate Fresh(w: View, held: seq<set<Addr>>, i: nat, b: Addr) {
    && b > 0 && (forall j :: 0 <= j < |held| ==> b !in held[j])
    && b in w.m && w.m[b].chunk in w.owned && w.owned[w.m[b].chunk] == i && b in Blocks(w.m[b].chunk, i)
  }

  lemma FirstAvailable(v: View, o: object, hot: Addr, i: nat)
    requires InvHot(v, o, hot) && i < CLASSES && v.avail[i] != [] && (hot != 0 ==> v.avail[i] == [hot])
    ensures Shape(v) && CanTake(v, i) && v.avail[i][0] == v.caches[i].available && v.avail[i][0] != 0
    ensures v.h[v.avail[i][0]].next != 0 ==> v.h[v.avail[i][0]].next in v.h
    ensures Fresh(Took(v, i), v.held, i, v.h[v.avail[i][0]].head)
  {
    var s := v.avail[i];
    var c := s[0];
    assert ListOk(v, i) && Linked(v.h, s, 0) && Placed(v, hot, i, c) && ChunkOk(v, o, c);
    if |s| > 1 { assert Linked(v.h, s, 1); }
    ClassSizes(i);
    hide BlocksPer;
    hide Blocks;
    var b := v.h[c].head;
    assert b == v.free[c][0] && b in v.free[c];
    BlocksInside(c, i, b);
    forall j | 0 <= j < |v.held| ensures b !in v.held[j] { assert b in v.held[j] ==> HeldBlock(v, j, b); }
  }

  lemma ListedCounts(v: View, i: nat, c: Addr)
    requires Shape(v) && i < CLASSES && c in v.h && c != 0
    ensures var h := Listed(v, i, c).h; c in h && h[c].avail == v.h[c].avail && h[c].total == v.h[c].total
  {
  }

  lemma PutChunkState(v: View, o: object, i: nat, c: Addr, b: Addr)
    requires Inv(v, o) && CanPut(v, i, c, b)
    ensures v.h[c].index == i && v.h[c].avail < v.h[c].total && v.h[c].total >= 3
  {
    assert ChunkOk(v, o, c) && HeldBlock(v, i, b);
    ClassSizes(i);
    AllFree(v.h[c], v.m, c, i, o, v.free[c]);
  }

  lemma PutInUse(v: View, o: object, i: nat, c: Addr, b: Addr)
    requires Inv(v, o) && CanPut(v, i, c, b)
    ensures v.caches[i].inUseSize >= BlockSize(i)
  {
    assert ClassSize(v, i);
    hide ListsOk;
    hide PlacesOk;
    hide ChunksOk;
    hide HeldOk;
    hide SizesOk;
    hide BlockSize;
    hide OfClass;
    assert |v.held[i]| > 0;
    TimesPositive(BlockSize(i), |v.held[i]|);
  }

  lemma TimesPositive(a: nat, n: nat)
    requires n > 0
    ensures a * n >= a
  {
  }

  lemma ChainPointers(h: Chunks, s: seq<Addr>, first: Addr, k: nat)
    requires Chain(h, s, first)
    ensures first != 0 ==> first in h
    ensures k < |s| ==>
      && s[k] in h && var x := h[s[k]];
      && (x.prev != 0 ==> x.prev in h && x.prev != s[k]) && (x.next != 0 ==> x.next in h && x.next != s[k])
  {
    if s != [] { assert Linked(h, s, 0); }
    if k < |s| {
      assert Linked(h, s, k);
      if k > 0 { assert Linked(h, s, k - 1); Differ(s, k, k - 1); }
      if k + 1 < |s| { assert Linked(h, s, k + 1); Differ(s, k, k + 1); }
    }
  }

  // What `FreeBlock` finds behind the pointers it follows.
  lemma PutPointers(v: View, o: object, i: nat, c: Addr, b: Addr)
    requires Inv(v, o) && CanPut(v, i, c, b)
    ensures v.caches[i].available != 0 ==> v.caches[i].available in v.h
    ensures v.caches[i].recyclable != 0 ==> v.caches[i].recyclable in v.h
    ensures v.h[c].avail > 0 ==>
      && var x := v.h[c];
      && (x.prev != 0 ==> x.prev in v.h && x.prev != c) && (x.next != 0 ==> x.next in v.h && x.next != c)
  {
    assert ListOk(v, i);
    hide ListsOk;
    hide PlacesOk;
    hide ChunksOk;
    hide HeldOk;
    hide SizesOk;
    hide Chain;
    ChainPointers(v.h, v.avail[i], v.caches[i].available, if v.h[c].avail > 0 then IndexOf(v.avail[i], c) else 0);
    ChainPointers(v.h, v.recyc[i], v.caches[i].recyclable, 0);
  }

  lemma TasksGrow(tasks: seq<Addr>, held: seq<set<Addr>>, i: nat, b: Addr)
    requires TasksOk(tasks, held) && i < |held|
    ensures TasksOk(tasks, held[i := held[i] + {b}])
  {
    var more := held[i := held[i] + {b}];
    forall p | p in tasks ensures Queued(p, more) {
      assert Queued(p, held);
      var j :| 0 <= j < |held| && p - BLOCK_HEADER_SIZE in held[j];
      assert p - BLOCK_HEADER_SIZE in more[j];
    }
  }

  lemma TasksShrink(tasks: seq<Addr>, held: seq<set<Addr>>, i: nat, b: Addr)
    requires TasksOk(tasks, held) && i < |held| && Payload(b) !in tasks
    ensures TasksOk(tasks, held[i := held[i] - {b}])
  {
    var less := held[i := held[i] - {b}];
    forall p | p in tasks ensures Queued(p, less) {
      assert Queued(p, held);
      var j :| 0 <= j < |held| && p - BLOCK_HEADER_SIZE in held[j];
      assert p - BLOCK_HEADER_SIZE in less[j];
    }
  }

  // The counters lag behind by d chunks.
  ghost function Less(v: View, d: nat): View
    requires d <= v.total && d <= v.recyclable
  {
    v.(total := v.total - d, recyclable := v.recyclable - d)
  }

  ghost predicate InvLess(v: View, o: object, d: nat) {
    d <= v.total && d <= v.recyclable && Inv(Less(v, d), o)
  }

  lemma AllRecycled(v: View, o: object, d: nat)
    requires InvLess(v, o, d) && forall j :: 0 <= j < |v.recyc| ==> v.recyc[j] == []
    ensures v.recyclable == d
  {
    EmptySum(v.recyc);
  }

  // All that was counted has gone back, and so has everything that was owned.
  lemma AllReleased(v: View, o: object, d: nat)
    requires InvLess(v, o, d) && v.total == v.recyclable && forall j :: 0 <= j < |v.recyc| ==> v.recyc[j] == []
    ensures v.recyclable == d && v.owned == map[] && Inv(v.(total := 0, recyclable := 0), o)
  {
    hide Inv;
    var w := Less(v, d);
    EmptySum(w.recyc);
    TotalsKnown(w, o);
    assert v.owned.Keys == {};
    assert w == v.(total := 0, recyclable := 0);
  }

  // A class with no block out and no recyclable chunk has no chunk at all.
  lemma IdleClass(v: View, o: object, i: nat)
    requires Inv(v, o) && i < CLASSES && v.held[i] == {} && v.recyc[i] == []
    ensures v.caches[i] == BlockCache(0, 0, 0, 0, 0)
  {
    hide Inv;
    InvShape(v, o);
    ClassIsRecyc(v, o, i);
    assert OfClass(v, i) == {};
    SizesOfClass(v, o, i);
    IdleLists(v, o, i);
    EmptyLists(v, o, i);
  }

  lemma SizesOfClass(v: View, o: object, i: nat)
    requires Inv(v, o) && i < CLASSES
    ensures ClassSize(v, i)
  {
  }

  lemma PlaceOf(v: View, o: object, i: nat, c: Addr)
    requires Inv(v, o) && i < CLASSES
    ensures Placed(v, 0, i, c) && (c in v.owned ==> c in v.h && c != 0)
  {
    hide Carved;
    hide ListsOk;
    hide HeldOk;
    hide SizesOk;
    assert c in v.owned ==> ChunkOk(v, o, c);
  }

  // With none of its blocks out, all chunks of a class are recyclable.
  lemma ClassIsRecyc(v: View, o: object, i: nat)
    requires Inv(v, o) && i < CLASSES && v.held[i] == {}
    ensures OfClass(v, i) <= Elements(v.recyc[i])
  {
    hide Inv;
    hide NoneHeld;
    InvShape(v, o);
    forall c | c in OfClass(v, i) ensures c in v.recyc[i] {
      HeldOfChunk(v, o, c);
      IdleChunk(v, o, c);
      PlaceOf(v, o, i, c);
    }
  }

  // Blocks of the chunk are held in its own class only.
  lemma HeldOfChunk(v: View, o: object, c: Addr)
    requires Inv(v, o) && c in v.owned && v.owned[c] < CLASSES && v.held[v.owned[c]] == {}
    ensures NoneHeld(v, c)
  {
    hide Inv;
    hide Blocks;
    InvShape(v, o);
    forall j, b | 0 <= j < |v.held| && b in v.held[j] ensures b in v.m && v.m[b].chunk != c { HeldFacts(v, o, j, b); }
  }

  lemma IdleLists(v: View, o: object, i: nat)
    requires Inv(v, o) && i < CLASSES && OfClass(v, i) == {}
    ensures v.avail[i] == []
  {
    hide Inv;
    InvShape(v, o);
    forall c ensures c !in v.avail[i] { PlaceOf(v, o, i, c); assert c !in OfClass(v, i); }
    NoneIn(v.avail[i]);
  }

  lemma NoneIn(s: seq<Addr>)
    requires forall c :: c !in s
    ensures s == []
  {
    HasFirst(s);
  }

  lemma RecycList(v: View, o: object, i: nat, central: seq<Addr>)
    requires Inv(v, o) && i < CLASSES && NotCentral(v.owned, central)
    ensures Chain(v.h, v.recyc[i], v.caches[i].recyclable)
    ensures forall c :: c in v.recyc[i] ==> c in v.owned && c !in central
  {
    assert ListOk(v, i);
    forall c | c in v.recyc[i] ensures c in v.owned { assert Placed(v, 0, i, c); }
  }

  lemma RecycKeeps(v: View, w: View, o: object, i: nat, central: seq<Addr>)
    requires Inv(v, o) && i < CLASSES && DroppedNumbers(v, w, i) && NotCentral(v.owned, central)
    requires LinksOnly(v.h, w.h, Elements(v.recyc[i]) + Elements(central))
    requires w.m == v.m && w.owned == v.owned - Elements(v.recyc[i]) && w.free == v.free - Elements(v.recyc[i])
    ensures Inv(w, o)
  {
    LinksOnlyElsewhere(v.h, w.h, Elements(v.recyc[i]) + Elements(central));
    hide LinksOnly;
    hide DroppedNumbers;
    hide ListsOk;
    hide PlacesOk;
    hide ChunksOk;
    hide HeldOk;
    hide SizesOk;
    assert DroppedMaps(v, w, i);
    DroppedKeeps(v, o, w, i);
  }

  lemma RecycReach(h: Chunks, k: Chunks, m: BlockMap, owned: map<Addr, nat>, s: seq<Addr>, central: seq<Addr>)
    requires NotCentral(owned, central) && LinksOnly(h, k, Elements(s) + Elements(central))
    requires forall c :: c in s ==> c in owned
    ensures NotCentral(owned - Elements(s), s + central)
    ensures (owned - Elements(s)).Keys + Elements(s + central) == owned.Keys + Elements(central)
    ensures Elsewhere(h, k, m, m, owned.Keys + Elements(central))
  {
    LinksOnlyElsewhere(h, k, Elements(s) + Elements(central));
    hide Blocks;
  }

  // The header of a block that is out leads to the cache it came from.
  ghost predicate LeadsTo(v: View, o: object, b: Addr) {
    && Shape(v) && b in v.m && v.m[b].chunk in v.h && v.h[v.m[b].chunk].owner == o
    && CanGive(v, v.h[v.m[b].chunk].index, v.m[b].chunk, b)
    && (forall j :: 0 <= j < |v.held| && j != v.h[v.m[b].chunk].index ==> b !in v.held[j])
  }

  lemma OwnerKnown(v: View, o: object, ptr: Addr)
    requires Inv(v, o) && Queued(ptr, v.held)
    ensures ptr >= BLOCK_HEADER_SIZE && LeadsTo(v, o, ptr - BLOCK_HEADER_SIZE)
  {
    hide Inv;
    hide Blocks;
    InvShape(v, o);
    var b := ptr - BLOCK_HEADER_SIZE;
    var i :| 0 <= i < |v.held| && b in v.held[i];
    HeldFacts(v, o, i, b);
    OwnerInHeader(v, o, v.m[b].chunk);
    forall j | 0 <= j < |v.held| && b in v.held[j] ensures j == i { HeldFacts(v, o, j, b); }
  }

  lemma HeldFacts(v: View, o: object, i: nat, b: Addr)
    requires Inv(v, o) && i < CLASSES && b in v.held[i]
    ensures HeldBlock(v, i, b)
  {
    hide ChunksOk;
    hide ListsOk;
    hide PlacesOk;
    hide SizesOk;
    hide Blocks;
  }

  lemma TasksPush(tasks: seq<Addr>, held: seq<set<Addr>>, ptr: Addr)
    requires TasksOk(tasks, held) && Queued(ptr, held) && ptr !in tasks
    ensures TasksOk(tasks + [ptr], held)
    ensures HandsLose(held, tasks, held, tasks + [ptr], ptr - BLOCK_HEADER_SIZE)
  {
  }

  lemma FreedHands(held: seq<set<Addr>>, tasks: seq<Addr>, i: nat, b: Addr)
    requires i < |held| && b in held[i] && (forall j :: 0 <= j < |held| && j != i ==> b !in held[j])
    ensures HandsLose(held, tasks, held[i := held[i] - {b}], tasks, b)
  {
  }

  lemma SameHandsRefl(held: seq<set<Addr>>, tasks: seq<Addr>)
    ensures SameHands(held, tasks, held, tasks)
  {
  }

  lemma TasksPop(tasks: seq<Addr>, held: seq<set<Addr>>)
    requires TasksOk(tasks, held) && tasks != []
    ensures TasksOk(tasks[1..], held) && Queued(tasks[0], held) && tasks[0] !in tasks[1..]
  {
    var t := tasks[1..];
    forall i, j | 0 <= i < j < |t| ensures t[i] != t[j] { Differ(tasks, i + 1, j + 1); }
  }

  // Popping a block and freeing it: users never held it, so they hold what they held.
  lemma PoppedHands(held: seq<set<Addr>>, all: seq<Addr>, held1: seq<set<Addr>>, tasks1: seq<Addr>, now: seq<set<Addr>>)
    requires SameHands(held, all, held1, tasks1) && tasks1 != [] && tasks1[0] >= BLOCK_HEADER_SIZE
    requires HandsLose(held1, tasks1[1..], now, tasks1[1..], tasks1[0] - BLOCK_HEADER_SIZE)
    ensures SameHands(held, all, now, tasks1[1..])
  {
    var t := tasks1[1..];
    assert tasks1 == [tasks1[0]] + t;
    forall i | 0 <= i < |held| ensures Hands(now[i], t) == Hands(held[i], all) {
      assert Hands(held1[i], tasks1) == Hands(held1[i], t) - {tasks1[0] - BLOCK_HEADER_SIZE};
    }
  }

  // Nothing is left to come home: what is out is what users hold.
  lemma IdleHands(held: seq<set<Addr>>, tasks: seq<Addr>, now: seq<set<Addr>>)
    requires SameHands(held, tasks, now, []) && |held| == CLASSES
    ensures (forall i :: 0 <= i < CLASSES ==> now[i] == {}) <==> forall i :: 0 <= i < CLASSES ==> Hands(held[i], tasks) == {}
  {
    forall i | 0 <= i < CLASSES ensures now[i] == Hands(held[i], tasks) { assert Hands(now[i], []) == now[i]; }
  }

  lemma TakenHands(held: seq<set<Addr>>, all: seq<Addr>, held3: seq<set<Addr>>, tasks: seq<Addr>, i: nat, b: Addr)
    requires SameHands(held, all, held3, tasks) && i < |held3| && TasksOk(tasks, held3)
    requires forall j :: 0 <= j < |held3| ==> b !in held3[j]
    ensures HandsGain(held, all, held3[i := held3[i] + {b}], tasks, i, b)
  {
    var now := held3[i := held3[i] + {b}];
    assert Payload(b) in tasks ==> Queued(Payload(b), held3);
    forall j | 0 <= j < |held|
      ensures b !in Hands(held[j], all) && Hands(now[j], tasks) == Hands(held[j], all) + if j == i then {b} else {}
    {
      assert Hands(held[j], all) == Hands(held3[j], tasks);
    }
  }

  // Class i has a chunk with a free block.
  ghost predicate InStock(v: View, i: nat) { Shape(v) && i < CLASSES && (v.avail[i] != [] || v.recyc[i] != []) }

  // No block of class i is free.
  ghost predicate NothingFree(v: View, i: nat) {
    forall c :: Owns(v, i, c) ==> c in v.free && v.free[c] == []
  }

  lemma EmptyLists(v: View, o: object, i: nat)
    requires Inv(v, o) && i < CLASSES
    ensures Shape(v)
    ensures v.caches[i].available == 0 <==> v.avail[i] == []
    ensures v.caches[i].recyclable == 0 <==> v.recyc[i] == []
  {
    assert ListOk(v, i);
    assert v.avail[i] != [] ==> Linked(v.h, v.avail[i], 0);
    assert v.recyc[i] != [] ==> Linked(v.h, v.recyc[i], 0);
  }

  lemma NothingLeft(v: View, o: object, i: nat)
    requires Inv(v, o) && i < CLASSES && v.avail[i] == [] && v.recyc[i] == []
    ensures NothingFree(v, i)
  {
    ClassSizes(i);
    forall c | Owns(v, i, c) ensures c in v.free && v.free[c] == [] {
      assert Placed(v, 0, i, c) && ChunkOk(v, o, c);
      AllFree(v.h[c], v.m, c, i, o, v.free[c]);
    }
  }

  lemma CoolInv(v: View, o: object)
    requires Inv(v, o)
    ensures InvHot(v, o, 0)
  {
  }

  // The header of a chunk names the cache that owns it.
  lemma OwnedApart(v: View, o: object, w: View, p: object)
    requires Inv(v, o) && Inv(w, p) && v.h == w.h && o != p
    ensures v.owned.Keys !! w.owned.Keys
  {
    forall c | c in v.owned ensures c in v.h && v.h[c].owner == o { assert ChunkOk(v, o, c); }
    forall c | c in w.owned ensures c in w.h && w.h[c].owner == p { assert ChunkOk(w, p, c); }
  }

  lemma OwnerInHeader(v: View, o: object, c: Addr)
    requires Inv(v, o) && c in v.owned
    ensures c in v.h && v.h[c].owner == o && v.h[c].index == v.owned[c]
  {
    hide ListsOk;
    hide PlacesOk;
    hide SizesOk;
    hide HeldOk;
    hide Blocks;
    hide FreeList;
    assert ChunkOk(v, o, c);
  }

  /** What the cache o does leaves every other cache p valid: its lists, counters and blocks are as they were, and none of
   *  its chunks is in the central list. */
  lemma OtherCacheKeeps(v: View, o: object, x: View, p: object, y: View, central: seq<Addr>, after: seq<Addr>)
    requires Inv(v, o) && Inv(x, p) && v.h == x.h && o != p && NotCentral(x.owned, central)
    requires Elsewhere(x.h, y.h, x.m, y.m, v.owned.Keys + Elements(central)) && y == x.(h := y.h, m := y.m)
    requires Elements(after) <= v.owned.Keys + Elements(central)
    ensures Inv(y, p) && NotCentral(y.owned, after)
  {
    OwnedApart(v, o, x, p);
    hide Inv;
    hide Elsewhere;
    OtherViewKeeps(x, y, p, v.owned.Keys + Elements(central));
    forall c | c in after ensures c !in y.owned { assert c in Elements(after); }
  }

  lemma OtherViewKeeps(v: View, w: View, o: object, mine: set<Addr>)
    requires Inv(v, o) && Elsewhere(v.h, w.h, v.m, w.m, mine) && v.owned.Keys !! mine
    requires w == v.(h := w.h, m := w.m)
    ensures Inv(w, o)
  {
    forall c | c in v.owned ensures c in v.h && c in w.h && w.h[c] == v.h[c] {
      assert ChunkOk(v, o, c) && c in v.owned.Keys;
    }
    assert Untouched(v, w);
    OtherChunks(v, w, o);
    OtherCacheLists(v, w, o);
    OtherHeld(v, w, o);
    forall i | 0 <= i < CLASSES ensures ClassSize(w, i) { assert ClassSize(v, i) && OfClass(w, i) == OfClass(v, i); }
  }

  lemma OtherChunks(v: View, w: View, o: object)
    requires ChunksOk(v, o) && Untouched(v, w) && w == v.(h := w.h, m := w.m)
    ensures ChunksOk(w, o)
  {
    hide Blocks;
    hide Carved;
    forall c | c in v.owned ensures ChunkOk(w, o, c) { assert ChunkOk(v, o, c); UntouchedChunk(v, o, w, c); }
  }

  lemma OtherHeld(v: View, w: View, o: object)
    requires Shape(v) && ChunksOk(v, o) && HeldOk(v) && Untouched(v, w) && w == v.(h := w.h, m := w.m)
    ensures HeldOk(w)
  {
    hide Blocks;
    hide Carved;
    forall i, b | 0 <= i < CLASSES && b in w.held[i] ensures HeldBlock(w, i, b) { assert HeldBlock(v, i, b); }
    forall c, b | c in w.owned && b in Blocks(c, w.owned[c]) ensures FreeOrHeld(w, c, b) {
      assert FreeOrHeld(v, c, b);
    }
  }

  lemma OtherCacheLists(v: View, w: View, o: object)
    requires Inv(v, o) && w == v.(h := w.h, m := w.m)
    requires forall c :: c in v.owned ==> c in v.h && c in w.h && w.h[c] == v.h[c]
    ensures ListsOk(w) && PlacesOk(w, 0)
  {
    hide Carved;
    hide Chain;
    forall i | 0 <= i < CLASSES ensures ListOk(w, i) {
      assert ListOk(v, i);
      forall c | c in v.avail[i] || c in v.recyc[i] ensures c in v.owned { assert Placed(v, 0, i, c); }
      ChainFrame(v.h, w.h, v.avail[i], v.caches[i].available);
      ChainFrame(v.h, w.h, v.recyc[i], v.caches[i].recyclable);
    }
    forall i, c | 0 <= i < CLASSES ensures Placed(w, 0, i, c) { assert Placed(v, 0, i, c); }
  }

  // ----- Recyclable -----

  ghost function Union(s: seq<seq<Addr>>): set<Addr> {
    if s == [] then {} else Elements(s[0]) + Union(s[1..])
  }

  lemma {:induction false} InUnion(s: seq<seq<Addr>>, c: Addr)
    ensures c in Union(s) <==> exists i :: 0 <= i < |s| && c in s[i]
  {
    if s != [] {
      InUnion(s[1..], c);
      if i :| 0 <= i < |s| && c in s[i] {
        if i > 0 { assert s[1..][i - 1] == s[i]; }
      }
      if c in Union(s[1..]) {
        var i :| 0 <= i < |s| - 1 && c in s[1..][i];
        assert c in s[i + 1];
      }
    }
  }

  ghost predicate Separate(s: seq<seq<Addr>>) {
    && (forall i :: 0 <= i < |s| ==> Distinct(s[i]))
    && (forall i, j, c :: 0 <= i < j < |s| && c in s[i] ==> c !in s[j])
  }

  lemma {:induction false} CountUnion(s: seq<seq<Addr>>)
    requires Separate(s)
    ensures |Union(s)| == SumLen(s)
  {
    if s != [] {
      var t := s[1..];
      assert forall i :: 0 <= i < |t| ==> t[i] == s[i + 1];
      CountUnion(t);
      DistinctCount(s[0]);
      forall c | c in s[0] ensures c !in Union(t) { InUnion(t, c); }
    }
  }

  lemma RecycSeparate(v: View, o: object)
    requires Inv(v, o)
    ensures Separate(v.recyc)
    ensures Union(v.recyc) == set c | c in v.owned && c in v.h && v.h[c].avail == v.h[c].total
  {
    hide SizesOk;
    hide HeldOk;
    hide Carved;
    hide Union;
    hide Linked;
    forall i | 0 <= i < CLASSES ensures Distinct(v.recyc[i]) { assert ListOk(v, i); }
    forall i, j, c | 0 <= i < j < CLASSES && c in v.recyc[i] ensures c !in v.recyc[j] {
      assert Placed(v, 0, i, c) && Placed(v, 0, j, c);
    }
    NoNull(v, o);
    forall c ensures c in Union(v.recyc) <==> c in v.owned && c in v.h && v.h[c].avail == v.h[c].total {
      InUnion(v.recyc, c);
      if c in v.owned { assert ChunkOk(v, o, c) && Placed(v, 0, v.owned[c], c); }
      if i :| 0 <= i < CLASSES && c in v.recyc[i] { assert Placed(v, 0, i, c); }
    }
  }

  /** The two counters agree exactly when no block of the cache is out, neither held nor queued. */
  lemma RecyclableIsIdle(v: View, o: object)
    requires Inv(v, o)
    ensures Shape(v) && (v.total == v.recyclable <==> forall i :: 0 <= i < CLASSES ==> v.held[i] == {})
  {
    hide Inv;
    hide Union;
    hide NoneHeld;
    InvShape(v, o);
    CountersAgree(v, o);
    forall c | c in v.owned ensures c in Union(v.recyc) <==> NoneHeld(v, c) { InRecyc(v, o, c); }
    if v.total == v.recyclable { AllIdle(v, o); }
    if forall i :: 0 <= i < CLASSES ==> v.held[i] == {} { forall c ensures NoneHeld(v, c) { NothingHeld(v, c); } }
  }

  lemma CountersAgree(v: View, o: object)
    requires Inv(v, o)
    ensures v.total == v.recyclable <==> forall c :: c in v.owned ==> c in Union(v.recyc)
  {
    hide Inv;
    hide Union;
    RecycSeparate(v, o);
    CountUnion(v.recyc);
    SubsetCount(Union(v.recyc), v.owned.Keys);
    TotalsKnown(v, o);
    if forall c :: c in v.owned ==> c in Union(v.recyc) { assert Union(v.recyc) == v.owned.Keys; }
  }

  lemma TotalsKnown(v: View, o: object)
    requires Inv(v, o)
    ensures v.total == |v.owned.Keys| && v.recyclable == SumLen(v.recyc)
  {
  }

  lemma InRecyc(v: View, o: object, c: Addr)
    requires Inv(v, o) && c in v.owned
    ensures c in Union(v.recyc) <==> NoneHeld(v, c)
  {
    hide Inv;
    hide Union;
    hide NoneHeld;
    RecycSeparate(v, o);
    IdleChunk(v, o, c);
  }

  lemma NothingHeld(v: View, c: Addr)
    requires Shape(v) && forall i :: 0 <= i < CLASSES ==> v.held[i] == {}
    ensures NoneHeld(v, c)
  {
  }

  // No block of the chunk is out.
  ghost predicate NoneHeld(v: View, c: Addr) {
    forall i, b :: 0 <= i < |v.held| && b in v.held[i] ==> b in v.m && v.m[b].chunk != c
  }

  lemma IdleChunk(v: View, o: object, c: Addr)
    requires Inv(v, o) && c in v.owned
    ensures c in v.h && (v.h[c].avail == v.h[c].total <==> NoneHeld(v, c))
  {
    hide Blocks;
    hide BlocksPer;
    hide ListsOk;
    hide PlacesOk;
    hide SizesOk;
    assert ChunkOk(v, o, c);
    var k := v.owned[c];
    AllFree(v.h[c], v.m, c, k, o, v.free[c]);
    forall i, b | 0 <= i < |v.held| && b in v.held[i]
      ensures b in v.m && (v.m[b].chunk == c ==> b in Blocks(c, k) && b !in v.free[c])
    {
      assert HeldBlock(v, i, b);
    }
    if NoneHeld(v, c) {
      forall b | b in Blocks(c, k) ensures b in v.free[c] { assert FreeOrHeld(v, c, b); }
    }
  }

  lemma AllIdle(v: View, o: object)
    requires Inv(v, o) && forall c :: c in v.owned ==> NoneHeld(v, c)
    ensures forall i :: 0 <= i < CLASSES ==> v.held[i] == {}
  {
    hide Inv;
    hide NoneHeld;
    InvShape(v, o);
    forall i, b | 0 <= i < CLASSES ensures b !in v.held[i] { if b in v.held[i] { SomeHeld(v, o, i, b); } }
  }

  lemma SomeHeld(v: View, o: object, i: nat, b: Addr)
    requires Inv(v, o) && i < CLASSES && b in v.held[i]
    ensures exists c :: c in v.owned && !NoneHeld(v, c)
  {
    hide Inv;
    hide Blocks;
    InvShape(v, o);
    HeldFacts(v, o, i, b);
    assert !NoneHeld(v, v.m[b].chunk);
  }

  lemma InvShape(v: View, o: object)
    requires Inv(v, o)
    ensures Shape(v)
  {
  }

  // Where the fetched chunks s come from, and what stays.
  lemma FetchedRest(v: View, h: Chunks, before: seq<Addr>, first: Addr, n: nat, s: seq<Addr>, i: nat)
    requires Chain(h, before, first) && NotCentral(v.owned, before)
    requires s == if n <= |before| then before[..n] else []
    ensures forall c :: c in before ==> c in h && c !in v.owned
    ensures n <= |before| ==>
      && (forall c :: c in s ==> c !in before[n..])
      && FetchedOwned(v, i, s).Keys + Elements(before[n..]) == v.owned.Keys + Elements(before)
      && NotCentral(FetchedOwned(v, i, s), before[n..])
  {
    ChainInMap(h, before, first);
    if n <= |before| { assert before == s + before[n..]; }
  }

  function NextBlock(c: Addr, i: nat, j: nat): Addr {
    if j + 1 < BlocksPer(i) then BlockAt(c, i, j + 1) else 0
  }

  ghost predicate Threaded(m: BlockMap, c: Addr, i: nat, j: nat) {
    BlockAt(c, i, j) in m && m[BlockAt(c, i, j)] == BlockHeader(c, NextBlock(c, i, j))
  }

  lemma ThreadStep(m: BlockMap, c: Addr, i: nat, k: nat, w: BlockMap)
    requires w == m[BlockAt(c, i, k) := BlockHeader(c, NextBlock(c, i, k))]
    requires k < BlocksPer(i) && forall j :: 0 <= j < k ==> Threaded(m, c, i, j)
    ensures BlockAt(c, i, k) in Blocks(c, i)
    ensures BlockAt(c, i, k) + Stride(i) == BlockAt(c, i, k + 1)
    ensures forall j :: 0 <= j <= k ==> Threaded(w, c, i, j)
  {
    forall j | 0 <= j < k ensures BlockAt(c, i, j) != BlockAt(c, i, k) && Threaded(m, c, i, j) {
      BlocksApart(c, i, j, k);
    }
    assert k * Stride(i) + Stride(i) == (k + 1) * Stride(i);
  }

  lemma CarvedBlocks(h: ChunkHeader, m: BlockMap, c: Addr, i: nat, o: object)
    requires h.owner == o && h.index == i && h.total == BlocksPer(i) && h.avail == h.total && h.head == BlockAt(c, i, 0)
    requires BlocksPer(i) >= 1
    requires forall j :: 0 <= j < BlocksPer(i) ==> Threaded(m, c, i, j)
    ensures Carved(h, m, c, i, o, BlockList(c, i))
  {
    BlockListDistinct(c, i);
    hide BlockAt;
    hide BlocksPer;
    var s := BlockList(c, i);
    forall b ensures b in s <==> b in Blocks(c, i) { InBlockList(c, i, b); }
    forall b | b in Blocks(c, i) ensures b in m && m[b].chunk == c {
      var k :| 0 <= k < BlocksPer(i) && b == BlockAt(c, i, k);
      assert Threaded(m, c, i, k);
    }
    forall k | 0 <= k < |s| ensures s[k] in m && s[k] != 0 && m[s[k]].next == At(s, k + 1) {
      assert Threaded(m, c, i, k);
    }
  }

  lemma BlockListDistinct(c: Addr, i: nat)
    ensures Distinct(BlockList(c, i))
  {
    var s := BlockList(c, i);
    forall j, k | 0 <= j < k < |s| ensures s[j] != s[k] { BlocksApart(c, i, j, k); }
  }

  lemma ChainStays(h: Chunks, g: Chunks, s: seq<Addr>, first: Addr, c: Addr)
    requires Chain(h, s, first) && c in h && c in g && g == h[c := g[c]]
    requires g[c].prev == h[c].prev && g[c].next == h[c].next
    ensures Chain(g, s, first)
  {
    ChainInMap(h, s, first);
    ChainFrame(h, g, s, first);
  }

  // Carving one chunk leaves the blocks of another alone.
  lemma CarvedFrame(h: ChunkHeader, m: BlockMap, n: BlockMap, d: Addr, i: nat, o: object, c: Addr)
    requires Carved(h, m, d, i, o, BlockList(d, i)) && Apart(d, c)
    requires forall b :: b in m && b !in Blocks(c, i) ==> b in n && n[b] == m[b]
    ensures Carved(h, n, d, i, o, BlockList(d, i))
  {
    BlocksDisjoint(d, i, c, i);
    hide Blocks;
    hide BlockList;
    hide BlocksPer;
    FreeListFrame(m, n, BlockList(d, i), h.head);
  }
}
