/** Threads, their caches, and the life of a cache: created or adopted, attached to a thread, detached when the
 *  thread exits, then orphaned or destroyed.  Blocks freed by a thread that does not own them are queued with the
 *  owner.  Reading the owner's thread id and the three accesses that `Push` makes to the owner's queue (the exchange
 *  on `head_`, the link, the count in `size_`) are steps of their own, and so are observing an empty queue,
 *  detaching, deciding what becomes of the cache, and destroying it.  What happens inside a queue is in `MpscQueue`:
 *  a block counts as queued from its exchange on, `Empty` tells exactly whether there is one, and `Pop` waits for its link.
 *
 *  A cache is known by a name that is used once, while its address may be used again.
 */
module CacheProtocol {
  import opened Common

  type Thread = nat
  type Cache = nat
  type Chunk = nat
  type Block = nat

  // ----- blocks: who has which -----

  datatype Mem = Mem(
    queue: map<Cache, seq<Block>>,                 // deferred frees of every cache that exists
    owner: map<Chunk, Cache>,                      // a chunk without an entry is in the central pool
    blocks: map<Chunk, set<Block>>,
    free: map<Chunk, set<Block>>,
    chunkOf: map<Block, Chunk>,
    hands: set<(Thread, Block)>)                   // who holds what

  // A carved chunk: its owner exists, its blocks know it, the free ones are its own.
  ghost predicate ChunkOk(m: Mem, k: Chunk) {
    && k in m.owner && k in m.blocks && k in m.free && m.owner[k] in m.queue && m.free[k] <= m.blocks[k]
    && (forall b :: b in m.blocks[k] ==> b in m.chunkOf && m.chunkOf[b] == k)
  }

  ghost predicate ChunksOk(m: Mem) { forall k :: k in m.owner ==> ChunkOk(m, k) }

  // b is a block of a chunk of cache c, and is not free.
  ghost predicate Out(m: Mem, b: Block, c: Cache) {
    && b in m.chunkOf && m.chunkOf[b] in m.owner && m.owner[m.chunkOf[b]] == c
    && m.chunkOf[b] in m.blocks && b in m.blocks[m.chunkOf[b]]
    && m.chunkOf[b] in m.free && b !in m.free[m.chunkOf[b]]
  }

  function OwnerOf(m: Mem, b: Block): Cache {
    if b in m.chunkOf && m.chunkOf[b] in m.owner then m.owner[m.chunkOf[b]] else 0
  }

  ghost predicate Pending(m: Mem, c: Cache, b: Block) { c in m.queue && b in m.queue[c] }

  // A held block is out, held once, and not pending.
  ghost predicate HandsOk(m: Mem) {
    && (forall t, b :: (t, b) in m.hands ==> Out(m, b, OwnerOf(m, b)))
    && (forall t, u, b :: (t, b) in m.hands && (u, b) in m.hands ==> t == u)
    && (forall t, b, c :: (t, b) in m.hands ==> !Pending(m, c, b))
  }

  // A pending block is out, belongs to the cache whose queue it is in, and is there once.
  ghost predicate QueuesOk(m: Mem) {
    && (forall c, b :: Pending(m, c, b) ==> Out(m, b, c))
    && (forall c :: c in m.queue ==> Distinct(m.queue[c]))
  }

  ghost predicate Held(m: Mem, b: Block) { exists t :: (t, b) in m.hands }

  // No block is lost.
  ghost predicate Accounted(m: Mem) {
    forall k, b :: k in m.owner && k in m.blocks && b in m.blocks[k] ==> HasPlace(m, k, b)
  }

  ghost predicate HasPlace(m: Mem, k: Chunk, b: Block)
    requires k in m.owner
  {
    (k in m.free && b in m.free[k]) || Held(m, b) || Pending(m, m.owner[k], b)
  }

  ghost predicate MemOk(m: Mem) { ChunksOk(m) && HandsOk(m) && QueuesOk(m) && Accounted(m) }

  // Everyone but the users of b sees the same.
  ghost predicate Undisturbed(m: Mem, n: Mem, b: Block) {
    forall t, x, c :: (t, x) in m.hands && x != b && Out(m, x, c) ==> (t, x) in n.hands && Out(n, x, c)
  }

  // ----- the operations on blocks -----

  ghost function NewQueue(m: Mem, c: Cache): Mem { m.(queue := m.queue[c := []]) }

  lemma NewQueueKeeps(m: Mem, c: Cache)
    requires MemOk(m) && c !in m.queue
    ensures MemOk(NewQueue(m, c))
  {
    var n := NewQueue(m, c);
    forall k | k in n.owner ensures ChunkOk(n, k) { assert ChunkOk(m, k); }
    forall d, b ensures Pending(n, d, b) <==> Pending(m, d, b) { }
    forall x, d ensures Out(n, x, d) <==> Out(m, x, d) { }
    forall k, b | k in n.owner && k in n.blocks && b in n.blocks[k] ensures HasPlace(n, k, b) {
      assert HasPlace(m, k, b) && (Held(m, b) ==> Held(n, b));
    }
  }

  ghost function Fetched(m: Mem, c: Cache, k: Chunk, bs: set<Block>): Mem {
    m.(owner := m.owner[k := c], blocks := m.blocks[k := bs], free := m.free[k := bs],
       chunkOf := m.chunkOf + (map b | b in bs :: k))
  }

  lemma FetchedKeeps(m: Mem, c: Cache, k: Chunk, bs: set<Block>)
    requires MemOk(m) && c in m.queue && k !in m.owner
    requires forall j :: j in m.owner && j in m.blocks ==> m.blocks[j] !! bs
    ensures MemOk(Fetched(m, c, k, bs))
    ensures forall x, d :: Out(m, x, d) ==> Out(Fetched(m, c, k, bs), x, d)
    ensures Fetched(m, c, k, bs).hands == m.hands
  {
    var n := Fetched(m, c, k, bs);
    forall j | j in n.owner ensures ChunkOk(n, j) { if j != k { assert ChunkOk(m, j); } }
    forall x, d | Out(m, x, d) ensures Out(n, x, d) { assert x !in bs; }
    forall t, b | (t, b) in n.hands ensures Out(n, b, OwnerOf(n, b)) { assert Out(m, b, OwnerOf(m, b)); }
    forall d, b ensures Pending(n, d, b) <==> Pending(m, d, b) { }
    forall j, b | j in n.owner && j in n.blocks && b in n.blocks[j] ensures HasPlace(n, j, b) {
      if j != k { assert HasPlace(m, j, b) && (Held(m, b) ==> Held(n, b)); }
    }
  }

  ghost function Dropped(m: Mem, ks: set<Chunk>): Mem {
    m.(owner := m.owner - ks, blocks := m.blocks - ks, free := m.free - ks)
  }

  // Chunks with every block free go back to the central pool.
  lemma DroppedKeeps(m: Mem, ks: set<Chunk>)
    requires MemOk(m) && forall k :: k in ks && k in m.free && k in m.blocks ==> m.free[k] == m.blocks[k]
    ensures MemOk(Dropped(m, ks))
    ensures forall x, d :: Out(m, x, d) ==> Out(Dropped(m, ks), x, d)
    ensures Dropped(m, ks).hands == m.hands
  {
    var n := Dropped(m, ks);
    forall j | j in n.owner ensures ChunkOk(n, j) { assert ChunkOk(m, j); }
    forall x, d | Out(m, x, d) ensures Out(n, x, d) { assert m.chunkOf[x] !in ks; }
    forall t, b | (t, b) in n.hands ensures Out(n, b, OwnerOf(n, b)) { assert Out(m, b, OwnerOf(m, b)); }
    forall d, b ensures Pending(n, d, b) <==> Pending(m, d, b) { }
    forall j, b | j in n.owner && j in n.blocks && b in n.blocks[j] ensures HasPlace(n, j, b) {
      assert HasPlace(m, j, b) && (Held(m, b) ==> Held(n, b));
    }
  }

  ghost function Given(m: Mem, t: Thread, k: Chunk, b: Block): Mem
    requires k in m.free
  {
    m.(free := m.free[k := m.free[k] - {b}], hands := m.hands + {(t, b)})
  }

  lemma GivenKeeps(m: Mem, t: Thread, k: Chunk, b: Block)
    requires MemOk(m) && k in m.owner && k in m.free && b in m.free[k]
    ensures MemOk(Given(m, t, k, b)) && Undisturbed(m, Given(m, t, k, b), b)
    ensures !Held(m, b) && forall c :: !Pending(m, c, b)
  {
    var n := Given(m, t, k, b);
    assert ChunkOk(m, k);
    forall j | j in n.owner ensures ChunkOk(n, j) { assert ChunkOk(m, j); }
    forall x, d | Out(m, x, d) ensures Out(n, x, d) && x != b { }
    assert Out(n, b, m.owner[k]);
    forall u, x | (u, x) in n.hands ensures Out(n, x, OwnerOf(n, x)) {
      if (u, x) in m.hands { assert Out(m, x, OwnerOf(m, x)); }
    }
    forall d, x ensures Pending(n, d, x) <==> Pending(m, d, x) { }
    forall j, x | j in n.owner && j in n.blocks && x in n.blocks[j] ensures HasPlace(n, j, x) {
      assert HasPlace(m, j, x) && ChunkOk(m, j);
      if x == b { assert (t, b) in n.hands; }
      else if Held(m, x) { var u :| (u, x) in m.hands; assert (u, x) in n.hands; }
    }
  }

  ghost function Passed(m: Mem, t: Thread, u: Thread, b: Block): Mem {
    m.(hands := m.hands - {(t, b)} + {(u, b)})
  }

  lemma PassedKeeps(m: Mem, t: Thread, u: Thread, b: Block)
    requires MemOk(m) && (t, b) in m.hands
    ensures MemOk(Passed(m, t, u, b)) && Undisturbed(m, Passed(m, t, u, b), b)
  {
    var n := Passed(m, t, u, b);
    assert n.owner == m.owner;
    forall k | k in n.owner ensures ChunkOk(n, k) { assert ChunkOk(m, k); }
    forall x, d ensures Out(n, x, d) <==> Out(m, x, d) { }
    forall d, x ensures Pending(n, d, x) <==> Pending(m, d, x) { }
    forall v, x | (v, x) in n.hands ensures Out(n, x, OwnerOf(n, x)) { assert (v, x) in m.hands || x == b; }
    forall k, x | k in n.owner && k in n.blocks && x in n.blocks[k] ensures HasPlace(n, k, x) {
      assert HasPlace(m, k, x);
      if x == b { assert (u, b) in n.hands; }
      else if Held(m, x) { var v :| (v, x) in m.hands; assert (v, x) in n.hands; }
    }
  }

  ghost function Returned(m: Mem, t: Thread, b: Block): Mem
    requires b in m.chunkOf && m.chunkOf[b] in m.free
  {
    var k := m.chunkOf[b];
    m.(free := m.free[k := m.free[k] + {b}], hands := m.hands - {(t, b)})
  }

  lemma ReturnedKeeps(m: Mem, t: Thread, b: Block)
    requires MemOk(m) && (t, b) in m.hands && b in m.chunkOf && m.chunkOf[b] in m.free
    ensures MemOk(Returned(m, t, b)) && Undisturbed(m, Returned(m, t, b), b)
  {
    var n := Returned(m, t, b);
    assert Out(m, b, OwnerOf(m, b));
    forall k | k in n.owner ensures ChunkOk(n, k) { assert ChunkOk(m, k); }
    forall x, d | Out(m, x, d) && x != b ensures Out(n, x, d) { }
    forall d, x ensures Pending(n, d, x) <==> Pending(m, d, x) { }
    forall v, x | (v, x) in n.hands ensures Out(n, x, OwnerOf(n, x)) { assert (v, x) in m.hands && x != b; }
    forall d, x | Pending(n, d, x) ensures Out(n, x, d) { assert Pending(m, d, x) && x != b; }
    forall k, x | k in n.owner && k in n.blocks && x in n.blocks[k] ensures HasPlace(n, k, x) {
      assert HasPlace(m, k, x) && ChunkOk(m, k);
      if x != b && Held(m, x) { var v :| (v, x) in m.hands; assert (v, x) in n.hands; }
    }
  }

  ghost function Pushed(m: Mem, t: Thread, c: Cache, b: Block): Mem
    requires c in m.queue
  {
    m.(queue := m.queue[c := m.queue[c] + [b]], hands := m.hands - {(t, b)})
  }

  lemma PushedKeeps(m: Mem, t: Thread, c: Cache, b: Block)
    requires MemOk(m) && (t, b) in m.hands && Out(m, b, c) && c in m.queue
    ensures MemOk(Pushed(m, t, c, b)) && Undisturbed(m, Pushed(m, t, c, b), b)
  {
    var n := Pushed(m, t, c, b);
    forall k | k in n.owner ensures ChunkOk(n, k) { assert ChunkOk(m, k); }
    forall x, d ensures Out(n, x, d) <==> Out(m, x, d) { }
    forall d, x ensures Pending(n, d, x) <==> Pending(m, d, x) || (d == c && x == b) { }
    forall v, x | (v, x) in n.hands ensures x != b && Out(n, x, OwnerOf(n, x)) { assert (v, x) in m.hands; }
    assert Distinct(n.queue[c]) by { assert Distinct(m.queue[c]) && !Pending(m, c, b); }
    forall k, x | k in n.owner && k in n.blocks && x in n.blocks[k] ensures HasPlace(n, k, x) {
      assert HasPlace(m, k, x) && ChunkOk(m, k);
      if x != b && Held(m, x) { var v :| (v, x) in m.hands; assert (v, x) in n.hands; }
    }
  }

  ghost function Popped(m: Mem, t: Thread, c: Cache): Mem
    requires c in m.queue && m.queue[c] != []
  {
    m.(queue := m.queue[c := m.queue[c][1..]], hands := m.hands + {(t, m.queue[c][0])})
  }

  lemma PoppedKeeps(m: Mem, t: Thread, c: Cache)
    requires MemOk(m) && c in m.queue && m.queue[c] != []
    ensures MemOk(Popped(m, t, c)) && Undisturbed(m, Popped(m, t, c), m.queue[c][0])
    ensures Out(Popped(m, t, c), m.queue[c][0], c)
  {
    var n := Popped(m, t, c);
    var q, b := m.queue[c], m.queue[c][0];
    assert b in q && Pending(m, c, b) && Distinct(q);
    assert forall x :: x in q <==> x == b || x in q[1..];
    assert b !in q[1..];
    forall k | k in n.owner ensures ChunkOk(n, k) { assert ChunkOk(m, k); }
    forall x, d ensures Out(n, x, d) <==> Out(m, x, d) { }
    forall d, x ensures Pending(m, d, x) <==> Pending(n, d, x) || (d == c && x == b) { }
    forall d ensures !Pending(n, d, b) { assert Pending(m, d, b) ==> Out(m, b, d); }
    forall v, x | (v, x) in n.hands ensures Out(n, x, OwnerOf(n, x)) { assert (v, x) in m.hands || x == b; }
    assert Distinct(q[1..]);
    forall k, x | k in n.owner && k in n.blocks && x in n.blocks[k] ensures HasPlace(n, k, x) {
      assert HasPlace(m, k, x) && ChunkOk(m, k);
      if x == b { assert (t, b) in n.hands; }
      else if Held(m, x) { var v :| (v, x) in m.hands; assert (v, x) in n.hands; }
    }
  }

  // Every block of every chunk of c is free: total_chunk_num_ == recyclable_chunk_num_.
  ghost predicate Recyclable(m: Mem, c: Cache) {
    forall k :: k in m.owner && m.owner[k] == c && k in m.blocks && k in m.free ==> m.free[k] == m.blocks[k]
  }

  ghost function ChunksOf(m: Mem, c: Cache): set<Chunk> { set k | k in m.owner && m.owner[k] == c }

  ghost function Destroyed(m: Mem, c: Cache): Mem {
    var n := Dropped(m, ChunksOf(m, c));
    n.(queue := n.queue - {c})
  }

  /** A recyclable cache has nothing out: no block held, none pending. */
  lemma RecyclableIsIdle(m: Mem, c: Cache)
    requires MemOk(m) && Recyclable(m, c) && c in m.queue
    ensures m.queue[c] == []
    ensures forall b :: !Out(m, b, c)
    ensures forall t, b :: (t, b) in m.hands ==> OwnerOf(m, b) != c
  {
    assert m.queue[c] != [] ==> Pending(m, c, m.queue[c][0]);
    forall t, b | (t, b) in m.hands ensures OwnerOf(m, b) != c { assert Out(m, b, OwnerOf(m, b)); }
  }

  lemma DestroyedKeeps(m: Mem, c: Cache)
    requires MemOk(m) && Recyclable(m, c) && c in m.queue
    ensures MemOk(Destroyed(m, c))
    ensures forall x, d :: Out(m, x, d) ==> Out(Destroyed(m, c), x, d)
  {
    RecyclableIsIdle(m, c);
    var ks := ChunksOf(m, c);
    DroppedKeeps(m, ks);
    var p, n := Dropped(m, ks), Destroyed(m, c);
    assert n.owner == p.owner && n.hands == p.hands;
    forall k | k in n.owner ensures ChunkOk(n, k) { assert ChunkOk(p, k); }
    forall x, d ensures Out(n, x, d) <==> Out(p, x, d) { }
    forall d, x ensures Pending(n, d, x) <==> Pending(p, d, x) { }
    forall k, x | k in n.owner && k in n.blocks && x in n.blocks[k] ensures HasPlace(n, k, x) {
      assert HasPlace(p, k, x) && (Held(p, x) ==> Held(n, x));
    }
  }

  // ----- threads and caches -----

  datatype Stage =
    | Attaching(c: Cache)                          // created or adopted; thread id not yet written
    | Running(c: Cache, exiting: bool)
    | FreeingLocal(c: Cache, b: Block, exiting: bool)
    | FreeingRemote(c: Cache, b: Block, target: Cache)
    | Linking(c: Cache, b: Block, target: Cache)   // exchanged; owes the link
    | Counting(c: Cache, target: Cache)            // linked; owes the count
    | Leaving(c: Cache)                            // exiting, saw its queue empty
    | Detached(c: Cache)                           // thread id cleared
    | Dying(c: Cache)                              // found recyclable: to be destroyed

  datatype State = State(
    threads: map<Thread, Stage>,                   // a thread without an entry has no cache
    ids: map<Cache, Option<Thread>>,               // the thread id of every cache that exists
    orphans: seq<Cache>,
    names: set<Cache>,                             // of all caches there ever were
    sizes: map<Cache, int>,                        // what each queue has counted
    m: Mem)

  datatype Event =
    | New(t: Thread, c: Cache) | Adopt(t: Thread) | Attach(t: Thread)
    | Fetch(t: Thread, k: Chunk, bs: set<Block>) | Recycle(t: Thread, k: Chunk)
    | Alloc(t: Thread, k: Chunk, b: Block) | Pass(t: Thread, u: Thread, b: Block)
    | FreeRead(t: Thread, b: Block) | LocalPut(t: Thread)
    | PushExchange(t: Thread) | PushLink(t: Thread) | PushCount(t: Thread) | Pop(t: Thread)
    | Exit(t: Thread) | SawEmpty(t: Thread) | Detach(t: Thread) | Decide(t: Thread) | Destroy(t: Thread)

  ghost predicate Init(s: State) {
    s == State(map[], map[], [], {}, map[], Mem(map[], map[], map[], map[], map[], {}))
  }

  // The steps that change which caches there are and whose they are.
  ghost predicate LifeStep(s: State, e: Event, z: State) {
    match e
    case New(t, c) =>
      && t !in s.threads && s.orphans == [] && c !in s.names
      && z == s.(threads := s.threads[t := Attaching(c)], ids := s.ids[c := None], names := s.names + {c},
                 sizes := s.sizes[c := 0], m := NewQueue(s.m, c))
    case Adopt(t) =>
      && t !in s.threads && s.orphans != []
      && var n := |s.orphans| - 1;
      && z == s.(threads := s.threads[t := Attaching(s.orphans[n])], orphans := s.orphans[..n])
    case Attach(t) =>
      && t in s.threads && s.threads[t].Attaching?
      && var c := s.threads[t].c;
      && z == s.(threads := s.threads[t := Running(c, false)], ids := s.ids[c := Some(t)])
    case Exit(t) =>
      && t in s.threads && s.threads[t].Running?
      && z == s.(threads := s.threads[t := Running(s.threads[t].c, true)])
    case SawEmpty(t) =>
      && t in s.threads && s.threads[t].Running? && s.threads[t].exiting
      && var c := s.threads[t].c;
      && c in s.m.queue && s.m.queue[c] == []
      && z == s.(threads := s.threads[t := Leaving(c)])
    case Detach(t) =>
      && t in s.threads && s.threads[t].Leaving?
      && var c := s.threads[t].c;
      && z == s.(threads := s.threads[t := Detached(c)], ids := s.ids[c := None])
    case Decide(t) =>
      && t in s.threads && s.threads[t].Detached?
      && var c := s.threads[t].c;
      && z == if Recyclable(s.m, c) then s.(threads := s.threads[t := Dying(c)])
              else s.(threads := s.threads - {t}, orphans := s.orphans + [c])
    case Destroy(t) =>   // its chunks go back to the central pool
      && t in s.threads && s.threads[t].Dying?
      && var c := s.threads[t].c;
      && z == s.(threads := s.threads - {t}, ids := s.ids - {c}, sizes := s.sizes - {c},
                 m := Destroyed(s.m, c))
    case _ => false
  }

  predicate Freeing(s: State, t: Thread, b: Block) {
    t in s.threads && (s.threads[t].FreeingLocal? || s.threads[t].FreeingRemote?) && s.threads[t].b == b
  }

  function Counted(sizes: map<Cache, int>, c: Cache, d: int): map<Cache, int> {
    if c in sizes then sizes[c := Wrap(sizes[c] + d)] else sizes
  }

  // Some thread still owes the link of b.
  ghost predicate Unlinked(s: State, b: Block) {
    exists u :: u in s.threads && s.threads[u].Linking? && s.threads[u].b == b
  }

  // The steps that move blocks and chunks.
  ghost predicate BlockStep(s: State, e: Event, z: State) {
    match e
    case Fetch(t, k, bs) =>   // a chunk leaves the central pool and is carved into blocks at addresses of its own
      && t in s.threads && s.threads[t].Running? && !s.threads[t].exiting && k !in s.m.owner
      && (forall j :: j in s.m.owner && j in s.m.blocks ==> s.m.blocks[j] !! bs)
      && z == s.(m := Fetched(s.m, s.threads[t].c, k, bs))
    case Recycle(t, k) =>
      && t in s.threads && s.threads[t].Running?
      && k in s.m.owner && s.m.owner[k] == s.threads[t].c
      && k in s.m.blocks && k in s.m.free && s.m.free[k] == s.m.blocks[k]
      && z == s.(m := Dropped(s.m, {k}))
    case Alloc(t, k, b) =>
      && t in s.threads && s.threads[t].Running? && !s.threads[t].exiting
      && k in s.m.owner && s.m.owner[k] == s.threads[t].c && k in s.m.free && b in s.m.free[k]
      && z == s.(m := Given(s.m, t, k, b))
    case Pass(t, u, b) =>     // a user hands a block to another thread
      && (t, b) in s.m.hands && !Freeing(s, t, b)
      && z == s.(m := Passed(s.m, t, u, b))
    case FreeRead(t, b) =>    // compares the thread id of the owner with that of the thread's own cache
      && t in s.threads && s.threads[t].Running? && !s.threads[t].exiting && (t, b) in s.m.hands
      && var c, target := s.threads[t].c, OwnerOf(s.m, b);
      && target in s.ids && c in s.ids
      && z == s.(threads := s.threads[t :=
           if s.ids[target] != s.ids[c] then FreeingRemote(c, b, target) else FreeingLocal(c, b, false)])
    case LocalPut(t) =>
      && t in s.threads && s.threads[t].FreeingLocal?
      && var FreeingLocal(c, b, exiting) := s.threads[t];
      && b in s.m.chunkOf && s.m.chunkOf[b] in s.m.free
      && z == s.(threads := s.threads[t := Running(c, exiting)], m := Returned(s.m, t, b))
    case PushExchange(t) =>
      && t in s.threads && s.threads[t].FreeingRemote?
      && var FreeingRemote(c, b, target) := s.threads[t];
      && target in s.m.queue
      && z == s.(threads := s.threads[t := Linking(c, b, target)], m := Pushed(s.m, t, target, b))
    case PushLink(t) =>
      && t in s.threads && s.threads[t].Linking?
      && z == s.(threads := s.threads[t := Counting(s.threads[t].c, s.threads[t].target)])
    case PushCount(t) =>      // whatever has become of the queue
      && t in s.threads && s.threads[t].Counting?
      && var Counting(c, target) := s.threads[t];
      && z == s.(threads := s.threads[t := Running(c, false)], sizes := Counted(s.sizes, target, 1))
    case Pop(t) =>            // DeferredDeallocate, also while exiting; waits for the link of the first block
      && t in s.threads && s.threads[t].Running?
      && var Running(c, exiting) := s.threads[t];
      && c in s.m.queue && s.m.queue[c] != [] && !Unlinked(s, s.m.queue[c][0])
      && z == s.(threads := s.threads[t := FreeingLocal(c, s.m.queue[c][0], exiting)], sizes := Counted(s.sizes, c, -1),
                 m := Popped(s.m, t, c))
    case _ => false
  }

  ghost predicate Step(s: State, e: Event, z: State) { LifeStep(s, e, z) || BlockStep(s, e, z) }

  // ----- the invariant -----

  function IdOf(t: Thread, g: Stage): Option<Thread> {
    if g.Attaching? || g.Detached? || g.Dying? then None else Some(t)
  }

  // An attached cache carries its thread's id, and only its thread's.
  ghost predicate IdsMatch(s: State) {
    forall t :: t in s.threads ==> s.threads[t].c in s.ids && s.ids[s.threads[t].c] == IdOf(t, s.threads[t])
  }

  ghost predicate IdsBack(s: State) {
    forall c :: c in s.ids && s.ids[c].Some? ==> s.ids[c].value in s.threads && s.threads[s.ids[c].value].c == c
  }

  ghost predicate IdsOk(s: State) { IdsMatch(s) && IdsBack(s) && forall c :: c in s.ids ==> c in s.names }

  // Each thread has a cache of its own.
  ghost predicate OwnOk(s: State) {
    forall t, u :: t in s.threads && u in s.threads && t != u ==> s.threads[t].c != s.threads[u].c
  }

  ghost predicate ThreadsOk(s: State) { IdsOk(s) && OwnOk(s) }

  ghost predicate OrphansOk(s: State) {
    && (forall c :: c in s.orphans ==> c in s.ids && s.ids[c] == None)
    && (forall c, t :: c in s.orphans && t in s.threads ==> s.threads[t].c != c)
    && Distinct(s.orphans)
  }

  ghost predicate Has(s: State, c: Cache) { exists t :: t in s.threads && s.threads[t].c == c }

  // No cache is lost.
  ghost predicate CachesKept(s: State) { forall c :: c in s.ids ==> c in s.orphans || Has(s, c) }

  // What a thread is about to do is right.
  ghost predicate StageOk(s: State, t: Thread)
    requires t in s.threads
  {
    match s.threads[t]
    case FreeingLocal(c, b, _) => (t, b) in s.m.hands && Out(s.m, b, c)
    case FreeingRemote(c, b, target) => (t, b) in s.m.hands && Out(s.m, b, target)
    case Linking(c, b, target) => Pending(s.m, target, b)
    case Counting(c, target) => target in s.names
    case Dying(c) => Recyclable(s.m, c)
    case _ => true
  }

  ghost predicate Stages(s: State) { forall t :: t in s.threads ==> StageOk(s, t) }

  predicate Owes(g: Stage, c: Cache) { (g.Linking? || g.Counting?) && g.target == c }

  // Who has exchanged on the queue of c and not counted yet.
  ghost function Owing(s: State, c: Cache): set<Thread> {
    set t | t in s.threads && Owes(s.threads[t], c)
  }

  ghost predicate SizeOk(s: State, c: Cache) {
    c in s.m.queue && c in s.sizes && s.sizes[c] == Wrap(|s.m.queue[c]| - |Owing(s, c)|)
  }

  // A queue has counted what is in it, but for those who have not counted yet.
  ghost predicate SizesOk(s: State) { forall c :: c in s.ids ==> SizeOk(s, c) }

  ghost predicate Inv(s: State) {
    && s.ids.Keys == s.m.queue.Keys && MemOk(s.m)
    && ThreadsOk(s) && OrphansOk(s) && CachesKept(s) && Stages(s) && SizesOk(s)
  }

  lemma InitInv(s: State)
    requires Init(s)
    ensures Inv(s)
  {
  }

  lemma IdsByLife(s: State, e: Event, z: State)
    requires ThreadsOk(s) && OrphansOk(s) && LifeStep(s, e, z)
    ensures IdsOk(z)
  {
    MatchByLife(s, e, z);
    BackByLife(s, e, z);
    NamesByLife(s, e, z);
    hide IdsMatch;
    hide IdsBack;
    hide LifeStep;
  }

  lemma MatchByLife(s: State, e: Event, z: State)
    requires IdsMatch(s) && OwnOk(s) && OrphansOk(s) && LifeStep(s, e, z) && forall c :: c in s.ids ==> c in s.names
    ensures IdsMatch(z)
  {
    hide Recyclable;
    hide Destroyed;
    hide NewQueue;
    hide Distinct;
    if e.Adopt? { assert s.orphans[|s.orphans| - 1] in s.orphans; }
    forall t | t in z.threads ensures z.threads[t].c in z.ids && z.ids[z.threads[t].c] == IdOf(t, z.threads[t]) {
      if t != e.t { assert t in s.threads && z.threads[t] == s.threads[t]; }
    }
  }

  lemma BackByLife(s: State, e: Event, z: State)
    requires IdsMatch(s) && IdsBack(s) && LifeStep(s, e, z)
    ensures IdsBack(z)
  {
    hide Recyclable;
    hide Destroyed;
    hide NewQueue;
    forall c | c in z.ids && z.ids[c].Some? ensures z.ids[c].value in z.threads && z.threads[z.ids[c].value].c == c {
      if c in s.ids && z.ids[c] == s.ids[c] { assert s.ids[c].value in s.threads; }
    }
  }

  lemma NamesByLife(s: State, e: Event, z: State)
    requires (forall c :: c in s.ids ==> c in s.names) && IdsMatch(s) && LifeStep(s, e, z)
    ensures s.names <= z.names && forall c :: c in z.ids ==> c in z.names
  {
    hide Recyclable;
    hide Destroyed;
    hide NewQueue;
  }

  lemma OwnByLife(s: State, e: Event, z: State)
    requires ThreadsOk(s) && OrphansOk(s) && LifeStep(s, e, z)
    ensures OwnOk(z)
  {
    hide Recyclable;
    hide Destroyed;
    hide NewQueue;
    hide Distinct;
    if e.Adopt? { assert s.orphans[|s.orphans| - 1] in s.orphans; }
  }

  lemma OrphansByLife(s: State, e: Event, z: State)
    requires ThreadsOk(s) && OrphansOk(s) && LifeStep(s, e, z)
    ensures OrphansOk(z)
  {
    hide ThreadsOk;
    hide OrphansOk;
    hide LifeStep;
    match e
    case Adopt(t) => OrphansByAdopt(s, t, z);
    case Decide(t) => OrphansByDecide(s, t, z);
    case _ => OrphansByOther(s, e, z);
  }

  lemma OrphansByDecide(s: State, t: Thread, z: State)
    requires ThreadsOk(s) && OrphansOk(s) && LifeStep(s, Decide(t), z)
    ensures OrphansOk(z)
  {
    hide Recyclable;
    forall i | 0 <= i < |s.orphans| ensures s.orphans[i] != s.threads[t].c { assert s.orphans[i] in s.orphans; }
  }

  lemma OrphansByOther(s: State, e: Event, z: State)
    requires ThreadsOk(s) && OrphansOk(s) && LifeStep(s, e, z) && !e.Adopt? && !e.Decide?
    ensures OrphansOk(z)
  {
    hide Recyclable;
    hide Destroyed;
    hide NewQueue;
    hide Distinct;
  }

  lemma OrphansByAdopt(s: State, t: Thread, z: State)
    requires OrphansOk(s) && LifeStep(s, Adopt(t), z)
    ensures OrphansOk(z)
  {
    var n := |s.orphans| - 1;
    assert s.orphans[n] in s.orphans;
    forall c | c in z.orphans ensures c in s.orphans && c != s.orphans[n] {
      var i :| 0 <= i < n && z.orphans[i] == c;
      assert s.orphans[i] == c;
    }
  }

  lemma CachesByLife(s: State, e: Event, z: State)
    requires ThreadsOk(s) && OrphansOk(s) && CachesKept(s) && LifeStep(s, e, z)
    ensures CachesKept(z)
  {
    forall c | c in z.ids && c !in z.orphans ensures Has(z, c) { CacheByLife(s, e, z, c); }
  }

  lemma CacheByLife(s: State, e: Event, z: State, c: Cache)
    requires ThreadsOk(s) && OrphansOk(s) && CachesKept(s) && LifeStep(s, e, z) && c in z.ids && c !in z.orphans
    ensures Has(z, c)
  {
    hide Recyclable;
    hide Destroyed;
    hide NewQueue;
    hide Distinct;
    hide IdsOk;
    hide OwnOk;
    if e.t in z.threads && z.threads[e.t].c == c {
    } else if c in s.orphans {
      assert e.Adopt?;
      LastAdopted(s, e.t, z, c);
    } else {
      assert c in s.ids && Has(s, c);
      var t :| t in s.threads && s.threads[t].c == c;
      assert t != e.t;
      assert t in z.threads && z.threads[t].c == c;
    }
  }

  // The orphan that is no longer one is the adopted one.
  lemma LastAdopted(s: State, t: Thread, z: State, c: Cache)
    requires LifeStep(s, Adopt(t), z) && c in s.orphans && c !in z.orphans
    ensures t in z.threads && z.threads[t].c == c
  {
    assert s.orphans == z.orphans + [s.orphans[|s.orphans| - 1]];
  }

  // Block steps do not change who has which cache.
  ghost predicate SameLife(s: State, z: State) {
    && z.ids == s.ids && z.orphans == s.orphans && z.names == s.names
    && (forall t :: t in s.threads <==> t in z.threads)
    && (forall t :: t in s.threads ==>
         z.threads[t].c == s.threads[t].c && IdOf(t, z.threads[t]) == IdOf(t, s.threads[t]))
  }

  // How a block step moves the stage of its thread.
  predicate Moves(e: Event, g: Stage, h: Stage) {
    match e
    case FreeRead(t, b) => g.Running? && h.c == g.c && (h.FreeingRemote? || h.FreeingLocal?)
    case LocalPut(t) => g.FreeingLocal? && h == Running(g.c, g.exiting)
    case PushExchange(t) => g.FreeingRemote? && h == Linking(g.c, g.b, g.target)
    case PushLink(t) => g.Linking? && h == Counting(g.c, g.target)
    case PushCount(t) => g.Counting? && h == Running(g.c, false)
    case Pop(t) => g.Running? && h.c == g.c && h.FreeingLocal?
    case _ => h == g
  }

  // And of no other.
  ghost predicate OneMoves(s: State, e: Event, z: State) {
    && (forall u :: u in s.threads <==> u in z.threads)
    && (forall u :: u in s.threads && u != e.t ==> z.threads[u] == s.threads[u])
    && (e.t in s.threads ==> Moves(e, s.threads[e.t], z.threads[e.t]))
    && ((e.Pass? || e.t !in s.threads) ==> z.threads == s.threads)
  }

  lemma BlockThreads(s: State, e: Event, z: State)
    requires BlockStep(s, e, z)
    ensures OneMoves(s, e, z) && z.ids == s.ids && z.orphans == s.orphans && z.names == s.names
    ensures e.PushLink? ==> z.m == s.m
    ensures e.Fetch? || e.Recycle? || e.Alloc? || e.Pass? || e.FreeRead? || e.LocalPut? || e.PushExchange? || e.PushLink? ||
            e.PushCount? || e.Pop?
  {
    hide Fetched;
    hide Dropped;
    hide Given;
    hide Passed;
    hide Returned;
    hide Pushed;
    hide Popped;
    hide Counted;
    hide Unlinked;
    hide OwnerOf;
  }

  lemma BlockStepLife(s: State, e: Event, z: State)
    requires BlockStep(s, e, z)
    ensures SameLife(s, z) && z.m.queue.Keys == s.m.queue.Keys
  {
    BlockStepQueues(s, e, z);
    BlockThreads(s, e, z);
    hide BlockStep;
    forall u | u in s.threads ensures z.threads[u].c == s.threads[u].c && IdOf(u, z.threads[u]) == IdOf(u, s.threads[u]) { }
  }

  lemma BlockStepQueues(s: State, e: Event, z: State)
    requires BlockStep(s, e, z)
    ensures z.m.queue.Keys == s.m.queue.Keys
  {
    hide Counted;
    if e.PushExchange? {
      assert s.threads[e.t].target in s.m.queue.Keys;
    } else if e.Pop? {
      assert s.threads[e.t].c in s.m.queue.Keys;
    } else {
      assert z.m.queue == s.m.queue;
    }
  }

  lemma LifeByBlock(s: State, z: State)
    requires ThreadsOk(s) && OrphansOk(s) && CachesKept(s) && SameLife(s, z)
    ensures ThreadsOk(z) && OrphansOk(z) && CachesKept(z)
  {
    IdsByBlock(s, z);
    OrphansByBlock(s, z);
    hide IdsOk;
    hide OwnOk;
    hide OrphansOk;
    forall c | c in z.ids && c !in z.orphans ensures Has(z, c) {
      assert Has(s, c);
      var t :| t in s.threads && s.threads[t].c == c;
      assert t in z.threads && z.threads[t].c == c;
    }
  }

  lemma IdsByBlock(s: State, z: State)
    requires ThreadsOk(s) && SameLife(s, z)
    ensures ThreadsOk(z)
  {
    hide IdOf;
  }

  lemma OrphansByBlock(s: State, z: State)
    requires OrphansOk(s) && SameLife(s, z)
    ensures OrphansOk(z)
  {
    hide IdOf;
    hide Distinct;
  }

  lemma MemByBlock(s: State, e: Event, z: State)
    requires Inv(s) && BlockStep(s, e, z)
    ensures MemOk(z.m)
  {
    hide Inv;
    InvMem(s);
    hide MemOk;
    hide ThreadsOk;
    hide OrphansOk;
    hide CachesKept;
    hide Counted;
    hide Fetched;
    hide Dropped;
    hide Given;
    hide Passed;
    hide Returned;
    hide Pushed;
    hide Popped;
    hide SizesOk;
    match e
    case Fetch(t, k, bs) => CacheHasQueue(s, t); FetchedKeeps(s.m, s.threads[t].c, k, bs);
    case Recycle(t, k) => DroppedKeeps(s.m, {k});
    case Alloc(t, k, b) => GivenKeeps(s.m, t, k, b);
    case Pass(t, u, b) => PassedKeeps(s.m, t, u, b);
    case FreeRead(t, b) =>
    case LocalPut(t) => StageKnown(s, t); ReturnedKeeps(s.m, t, s.threads[t].b);
    case PushExchange(t) => StageKnown(s, t); PushedKeeps(s.m, t, s.threads[t].target, s.threads[t].b);
    case Pop(t) => PoppedKeeps(s.m, t, s.threads[t].c);
    case _ =>
  }

  lemma MemByLife(s: State, e: Event, z: State)
    requires Inv(s) && LifeStep(s, e, z)
    ensures MemOk(z.m) && z.ids.Keys == z.m.queue.Keys
  {
    hide MemOk;
    hide SizesOk;
    hide OrphansOk;
    hide CachesKept;
    hide NewQueue;
    hide Destroyed;
    hide Recyclable;
    match e
    case New(t, c) => NewName(s, c); NewQueueKeeps(s.m, c); QueueKeys(s.m, c);
    case Destroy(t) =>
      assert StageOk(s, t);
      CacheHasQueue(s, t);
      DestroyedKeeps(s.m, s.threads[t].c);
      QueueKeys(s.m, s.threads[t].c);
    case _ => IdsSame(s, e, z);
  }

  lemma QueueKeys(m: Mem, c: Cache)
    ensures NewQueue(m, c).queue.Keys == m.queue.Keys + {c}
    ensures Destroyed(m, c).queue.Keys == m.queue.Keys - {c} && Destroyed(m, c).queue == m.queue - {c}
  {
  }

  lemma IdsSame(s: State, e: Event, z: State)
    requires LifeStep(s, e, z) && !e.New? && !e.Destroy? && IdsMatch(s)
    ensures z.m == s.m && z.ids.Keys == s.ids.Keys
  {
    hide Recyclable;
    if e.Attach? || e.Detach? { assert s.threads[e.t].c in s.ids.Keys; }
  }

  // A block step of t changes the free blocks of t's own cache only.
  lemma RecyclableByBlock(s: State, e: Event, z: State, c: Cache)
    requires Inv(s) && BlockStep(s, e, z) && Recyclable(s.m, c)
    requires e.t in s.threads ==> s.threads[e.t].c != c
    ensures Recyclable(z.m, c)
  {
    if e.LocalPut? { assert StageOk(s, e.t); }
    hide MemOk;
    hide ThreadsOk;
    hide OrphansOk;
    hide CachesKept;
    hide SizesOk;
    hide Stages;
    hide Recyclable;
    hide Fetched;
    hide Dropped;
    hide Given;
    hide Passed;
    hide Returned;
    hide Pushed;
    hide Popped;
    hide Counted;
    match e
    case Fetch(t, k, bs) => FetchedRecyclable(s.m, s.threads[t].c, k, bs, c);
    case Recycle(t, k) => DroppedRecyclable(s.m, {k}, c);
    case Alloc(t, k, b) => GivenRecyclable(s.m, t, k, b, c);
    case LocalPut(t) => ReturnedRecyclable(s.m, t, s.threads[t].b, c);
    case Pass(t, u, b) => PassedFrees(s.m, t, u, b); SameRecyclable(s.m, z.m, c);
    case PushExchange(t) => 
      PushedFrees(s.m, t, s.threads[t].target, s.threads[t].b);
      SameRecyclable(s.m, z.m, c);
    case Pop(t) => PoppedFrees(s.m, t, s.threads[t].c); SameRecyclable(s.m, z.m, c);
    case _ =>
  }

  lemma FetchedRecyclable(m: Mem, o: Cache, k: Chunk, bs: set<Block>, c: Cache)
    requires Recyclable(m, c)
    ensures Recyclable(Fetched(m, o, k, bs), c)
  {
  }

  lemma DroppedRecyclable(m: Mem, ks: set<Chunk>, c: Cache)
    requires Recyclable(m, c)
    ensures Recyclable(Dropped(m, ks), c)
  {
  }

  lemma GivenRecyclable(m: Mem, t: Thread, k: Chunk, b: Block, c: Cache)
    requires Recyclable(m, c) && k in m.owner && k in m.free && m.owner[k] != c
    ensures Recyclable(Given(m, t, k, b), c)
  {
  }

  lemma ReturnedRecyclable(m: Mem, t: Thread, b: Block, c: Cache)
    requires Recyclable(m, c) && b in m.chunkOf && m.chunkOf[b] in m.free && m.chunkOf[b] in m.owner
    requires m.owner[m.chunkOf[b]] != c
    ensures Recyclable(Returned(m, t, b), c)
  {
  }

  lemma SameRecyclable(m: Mem, n: Mem, c: Cache)
    requires Recyclable(m, c) && n.owner == m.owner && n.blocks == m.blocks && n.free == m.free
    ensures Recyclable(n, c)
  {
  }

  lemma PassedFrees(m: Mem, t: Thread, u: Thread, b: Block)
    ensures var n := Passed(m, t, u, b); n.owner == m.owner && n.blocks == m.blocks && n.free == m.free
  {
  }

  lemma PushedFrees(m: Mem, t: Thread, c: Cache, b: Block)
    requires c in m.queue
    ensures var n := Pushed(m, t, c, b); n.owner == m.owner && n.blocks == m.blocks && n.free == m.free
  {
  }

  lemma PoppedFrees(m: Mem, t: Thread, c: Cache)
    requires c in m.queue && m.queue[c] != []
    ensures var n := Popped(m, t, c); n.owner == m.owner && n.blocks == m.blocks && n.free == m.free
  {
  }

  // The block a step moves; 0 stands for none as well.
  function MovedBlock(s: State, e: Event): Block {
    match e
    case Alloc(t, k, b) => b
    case Pass(t, u, b) => b
    case LocalPut(t) => if t in s.threads && s.threads[t].FreeingLocal? then s.threads[t].b else 0
    case PushExchange(t) => if t in s.threads && s.threads[t].FreeingRemote? then s.threads[t].b else 0
    case Pop(t) =>
      if t in s.threads && s.threads[t].c in s.m.queue && s.m.queue[s.threads[t].c] != [] then s.m.queue[s.threads[t].c][0]
      else 0
    case _ => 0
  }

  predicate MovesBlock(e: Event) { e.Alloc? || e.Pass? || e.LocalPut? || e.PushExchange? || e.Pop? }

  // Who holds another block sees the same.
  ghost predicate Sees(m: Mem, n: Mem, u: Thread, x: Block) {
    (u, x) in n.hands && forall c :: Out(m, x, c) ==> Out(n, x, c)
  }

  lemma OthersKeep(s: State, e: Event, z: State, u: Thread, x: Block)
    requires Inv(s) && BlockStep(s, e, z) && (u, x) in s.m.hands && (MovesBlock(e) ==> x != MovedBlock(s, e))
    ensures Sees(s.m, z.m, u, x)
  {
    hide BlockStep;
    hide Inv;
    hide MemOk;
    hide Sees;
    hide StageOk;
    hide Pending;
    InvMem(s);
    match e
    case Fetch(t, k, bs) => KeepsFetch(s, t, k, bs, z, u, x);
    case Recycle(t, k) => KeepsRecycle(s, t, k, z, u, x);
    case Alloc(t, k, b) => KeepsAlloc(s, t, k, b, z, u, x);
    case Pass(t, v, b) => KeepsPass(s, t, v, b, z, u, x);
    case LocalPut(t) => PutParts(s, t, z); KeepsPut(s, t, z, u, x);
    case PushExchange(t) => PushParts(s, t, z); KeepsPush(s, t, z, u, x);
    case Pop(t) => PopParts(s, t, z); KeepsPop(s, t, z, u, x);
    case _ => KeepsOther(s, e, z, u, x);
  }

  lemma PutBegun(s: State, t: Thread, z: State)
    requires BlockStep(s, LocalPut(t), z)
    ensures t in s.threads && s.threads[t].FreeingLocal?
  {
    hide Returned;
  }

  lemma PutParts(s: State, t: Thread, z: State)
    requires Inv(s) && BlockStep(s, LocalPut(t), z)
    ensures t in s.threads && StageOk(s, t) && s.threads[t].FreeingLocal?
  {
    hide Inv;
    hide StageOk;
    PutBegun(s, t, z);
    hide BlockStep;
    StageKnown(s, t);
  }

  lemma PushBegun(s: State, t: Thread, z: State)
    requires BlockStep(s, PushExchange(t), z)
    ensures t in s.threads && s.threads[t].FreeingRemote?
  {
    hide Pushed;
  }

  lemma PushParts(s: State, t: Thread, z: State)
    requires Inv(s) && BlockStep(s, PushExchange(t), z)
    ensures t in s.threads && StageOk(s, t) && s.threads[t].FreeingRemote?
  {
    hide Inv;
    hide StageOk;
    PushBegun(s, t, z);
    hide BlockStep;
    StageKnown(s, t);
  }

  lemma PopParts(s: State, t: Thread, z: State)
    requires BlockStep(s, Pop(t), z)
    ensures t in s.threads && s.threads[t].c in s.m.queue && s.m.queue[s.threads[t].c] != []
    ensures Pending(s.m, s.threads[t].c, s.m.queue[s.threads[t].c][0])
  {
    hide Popped;
    hide Counted;
    hide Unlinked;
  }

  lemma KeepsFetch(s: State, t: Thread, k: Chunk, bs: set<Block>, z: State, u: Thread, x: Block)
    requires Inv(s) && MemOk(s.m) && BlockStep(s, Fetch(t, k, bs), z) && (u, x) in s.m.hands
    ensures Sees(s.m, z.m, u, x)
  {
    hide Inv;
    hide MemOk;
    hide Out;
    CacheHasQueue(s, t);
    FetchedKeeps(s.m, s.threads[t].c, k, bs);
  }

  lemma KeepsRecycle(s: State, t: Thread, k: Chunk, z: State, u: Thread, x: Block)
    requires MemOk(s.m) && BlockStep(s, Recycle(t, k), z) && (u, x) in s.m.hands
    ensures Sees(s.m, z.m, u, x)
  {
    hide MemOk;
    hide Out;
    DroppedKeeps(s.m, {k});
  }

  lemma KeepsAlloc(s: State, t: Thread, k: Chunk, b: Block, z: State, u: Thread, x: Block)
    requires MemOk(s.m) && BlockStep(s, Alloc(t, k, b), z) && (u, x) in s.m.hands && x != b
    ensures Sees(s.m, z.m, u, x)
  {
    hide MemOk;
    hide Out;
    GivenKeeps(s.m, t, k, b);
  }

  lemma KeepsPass(s: State, t: Thread, v: Thread, b: Block, z: State, u: Thread, x: Block)
    requires MemOk(s.m) && BlockStep(s, Pass(t, v, b), z) && (u, x) in s.m.hands && x != b
    ensures Sees(s.m, z.m, u, x)
  {
    hide MemOk;
    hide Out;
    PassedKeeps(s.m, t, v, b);
  }

  lemma KeepsPut(s: State, t: Thread, z: State, u: Thread, x: Block)
    requires MemOk(s.m) && BlockStep(s, LocalPut(t), z) && StageOk(s, t) && (u, x) in s.m.hands && x != s.threads[t].b
    ensures Sees(s.m, z.m, u, x)
  {
    hide MemOk;
    hide Out;
    ReturnedKeeps(s.m, t, s.threads[t].b);
  }

  lemma KeepsPush(s: State, t: Thread, z: State, u: Thread, x: Block)
    requires MemOk(s.m) && BlockStep(s, PushExchange(t), z) && StageOk(s, t) && (u, x) in s.m.hands && x != s.threads[t].b
    ensures Sees(s.m, z.m, u, x)
  {
    hide MemOk;
    hide Out;
    PushedKeeps(s.m, t, s.threads[t].target, s.threads[t].b);
  }

  lemma KeepsPop(s: State, t: Thread, z: State, u: Thread, x: Block)
    requires MemOk(s.m) && BlockStep(s, Pop(t), z) && (u, x) in s.m.hands && x != s.m.queue[s.threads[t].c][0]
    ensures Sees(s.m, z.m, u, x)
  {
    hide MemOk;
    hide Out;
    PoppedKeeps(s.m, t, s.threads[t].c);
  }

  lemma KeepsOther(s: State, e: Event, z: State, u: Thread, x: Block)
    requires BlockStep(s, e, z) && (u, x) in s.m.hands && !MovesBlock(e) && !e.Fetch? && !e.Recycle?
    ensures Sees(s.m, z.m, u, x)
  {
    hide Counted;
    hide Out;
    assert z.m == s.m;
  }

  // The block a step moves: no other thread is about to free it.
  lemma OthersBlock(s: State, e: Event, z: State, u: Thread, x: Block)
    requires Inv(s) && BlockStep(s, e, z) && (u, x) in s.m.hands && (e.Pass? || u != e.t)
    requires Freeing(s, u, x)
    ensures Sees(s.m, z.m, u, x)
  {
    hide Inv;
    hide BlockStep;
    hide Sees;
    NotMoved(s, e, z, u, x);
    OthersKeep(s, e, z, u, x);
  }

  lemma NotMoved(s: State, e: Event, z: State, u: Thread, x: Block)
    requires Inv(s) && BlockStep(s, e, z) && (u, x) in s.m.hands && (e.Pass? || u != e.t)
    requires Freeing(s, u, x)
    ensures MovesBlock(e) ==> x != MovedBlock(s, e)
  {
    hide Inv;
    hide Out;
    hide BlockStep;
    hide MemOk;
    hide Pending;
    InvMem(s);
    HeldOut(s.m, u, x);
    match e
    case Alloc(t, k, b) => NotAllocated(s, t, k, b, z, u);
    case Pass(t, v, b) => NotPassed(s, t, v, b, z);
    case LocalPut(t) => NotPut(s, t, z);
    case PushExchange(t) => NotPushed(s, t, z);
    case Pop(t) => PopParts(s, t, z);
    case _ =>
  }

  lemma NotAllocated(s: State, t: Thread, k: Chunk, b: Block, z: State, u: Thread)
    requires MemOk(s.m) && BlockStep(s, Alloc(t, k, b), z)
    ensures (u, b) !in s.m.hands
  {
    hide MemOk;
    GivenKeeps(s.m, t, k, b);
    assert (u, b) in s.m.hands ==> Held(s.m, b);
  }

  lemma NotPut(s: State, t: Thread, z: State)
    requires Inv(s) && BlockStep(s, LocalPut(t), z)
    ensures t in s.threads && s.threads[t].FreeingLocal? && (t, s.threads[t].b) in s.m.hands
  {
    hide Inv;
    hide BlockStep;
    PutParts(s, t, z);
  }

  lemma NotPushed(s: State, t: Thread, z: State)
    requires Inv(s) && BlockStep(s, PushExchange(t), z)
    ensures t in s.threads && s.threads[t].FreeingRemote? && (t, s.threads[t].b) in s.m.hands
  {
    hide Inv;
    hide BlockStep;
    PushParts(s, t, z);
  }

  lemma NotPassed(s: State, t: Thread, v: Thread, b: Block, z: State)
    requires BlockStep(s, Pass(t, v, b), z)
    ensures (t, b) in s.m.hands && !Freeing(s, t, b)
  {
  }

  // A held block is out of one cache and held by one thread.
  lemma HeldOut(m: Mem, u: Thread, x: Block)
    requires MemOk(m) && (u, x) in m.hands
    ensures Out(m, x, OwnerOf(m, x)) && (forall t :: (t, x) in m.hands ==> t == u) && forall c :: !Pending(m, c, x)
  {
  }

  // A block whose link is still owed stays queued.
  lemma OthersPending(s: State, e: Event, z: State, u: Thread)
    requires BlockStep(s, e, z) && u in s.threads && s.threads[u].Linking?
    requires Pending(s.m, s.threads[u].target, s.threads[u].b)
    ensures Pending(z.m, s.threads[u].target, s.threads[u].b)
  {
    var b := s.threads[u].b;
    if e.Pop? {
      var q := s.m.queue[s.threads[e.t].c];
      assert Unlinked(s, b) && q == [q[0]] + q[1..];
    }
  }

  // The step's own thread: the comparison of thread ids tells whose the block is.
  lemma OwnStage(s: State, e: Event, z: State)
    requires Inv(s) && BlockStep(s, e, z) && !e.Pass? && e.t in z.threads
    ensures StageOk(z, e.t)
  {
    hide Inv;
    hide Out;
    hide Fetched;
    hide Dropped;
    hide Given;
    hide Returned;
    hide Counted;
    match e
    case FreeRead(t, b) => OwnParts(s); hide HandsOk; hide ThreadsOk; OwnRead(s, t, b, z);
    case Pop(t) => InvMem(s); hide MemOk; PoppedKeeps(s.m, t, s.threads[t].c);
    case PushLink(t) => StageKnown(s, t); PendingIsNamed(s, s.threads[t].target, s.threads[t].b);
    case PushExchange(t) => assert s.threads[t].b in z.m.queue[s.threads[t].target];
    case _ =>
  }

  lemma OwnParts(s: State)
    requires Inv(s)
    ensures ThreadsOk(s) && HandsOk(s.m)
  {
  }

  lemma InvMem(s: State)
    requires Inv(s)
    ensures MemOk(s.m)
  {
  }

  lemma StageKnown(s: State, t: Thread)
    requires Inv(s) && t in s.threads
    ensures StageOk(s, t)
  {
  }

  lemma OwnRead(s: State, t: Thread, b: Block, z: State)
    requires ThreadsOk(s) && HandsOk(s.m) && BlockStep(s, FreeRead(t, b), z)
    ensures t in z.threads && StageOk(z, t)
  {
    assert Out(s.m, b, OwnerOf(s.m, b));
    var c, target := s.threads[t].c, OwnerOf(s.m, b);
    if s.ids[target] == s.ids[c] { assert s.ids[c] == Some(t) && s.threads[t].c == target; }
  }

  lemma PendingIsNamed(s: State, c: Cache, b: Block)
    requires Inv(s) && Pending(s.m, c, b)
    ensures c in s.names
  {
    assert c in s.m.queue.Keys && c in s.ids;
  }

  lemma OtherThread(s: State, e: Event, z: State, u: Thread)
    requires BlockStep(s, e, z) && u in z.threads && (e.Pass? || u != e.t)
    ensures u in s.threads && z.threads[u] == s.threads[u]
    ensures e.Pass? ==> z.m.free == s.m.free && z.m.owner == s.m.owner && z.m.blocks == s.m.blocks
  {
    BlockThreads(s, e, z);
    if e.Pass? { PassedFrees(s.m, e.t, e.u, e.b); }
  }

  lemma StageByBlock(s: State, e: Event, z: State, u: Thread)
    requires Inv(s) && BlockStep(s, e, z) && u in z.threads
    ensures StageOk(z, u)
  {
    hide BlockStep;
    hide MemOk;
    hide ThreadsOk;
    hide OrphansOk;
    hide CachesKept;
    hide Out;
    if !e.Pass? && u == e.t {
      OwnStage(s, e, z);
    } else {
      OtherThread(s, e, z, u);
      assert StageOk(s, u);
      match s.threads[u]
      case FreeingLocal(c, b, _) => OthersBlock(s, e, z, u, b);
      case FreeingRemote(c, b, _) => OthersBlock(s, e, z, u, b);
      case Linking(c, b, target) => OthersPending(s, e, z, u);
      case Counting(c, target) => SameNames(s, e, z);
      case Dying(c) => if !e.Pass? { OwnCaches(s, u, e.t); RecyclableByBlock(s, e, z, c); }
      case _ =>
    }
  }

  lemma SameNames(s: State, e: Event, z: State)
    requires BlockStep(s, e, z)
    ensures z.names == s.names
  {
    BlockStepLife(s, e, z);
  }

  lemma OwnCaches(s: State, t: Thread, u: Thread)
    requires ThreadsOk(s) && t != u
    ensures t in s.threads && u in s.threads ==> s.threads[t].c != s.threads[u].c
  {
  }

  lemma StageByLife(s: State, e: Event, z: State, u: Thread)
    requires Inv(s) && LifeStep(s, e, z) && u in z.threads
    ensures StageOk(z, u)
  {
    hide ThreadsOk;
    hide OrphansOk;
    hide CachesKept;
    hide MemOk;
    hide SizesOk;
    hide Out;
    hide Recyclable;
    if u != e.t {
      assert u in s.threads && z.threads[u] == s.threads[u] && StageOk(s, u);
      if e.Destroy? {
        StageByDestroy(s, e.t, z, u);
      } else if e.New? {
        NewName(s, e.c);
        NewQueueSame(s.m, e.c);
        StageFrame(s, z, u);
      } else {
        assert z.m == s.m;
      }
    }
  }

  lemma NewQueueSame(m: Mem, c: Cache)
    requires c !in m.queue
    ensures var n := NewQueue(m, c);
      && (forall x, d :: Out(m, x, d) ==> Out(n, x, d)) && (forall d, x :: Pending(m, d, x) ==> Pending(n, d, x))
      && (forall d :: Recyclable(m, d) ==> Recyclable(n, d)) && n.hands == m.hands
  {
  }

  lemma StageFrame(s: State, z: State, u: Thread)
    requires u in s.threads && u in z.threads && z.threads[u] == s.threads[u] && StageOk(s, u) && s.names <= z.names
    requires (forall x, d :: Out(s.m, x, d) ==> Out(z.m, x, d)) && z.m.hands == s.m.hands
    requires (forall d, x :: Pending(s.m, d, x) ==> Pending(z.m, d, x))
    requires forall d :: Recyclable(s.m, d) ==> Recyclable(z.m, d)
    ensures StageOk(z, u)
  {
    hide Out;
    hide Pending;
    hide Recyclable;
  }

  lemma StageByDestroy(s: State, t: Thread, z: State, u: Thread)
    requires Inv(s) && LifeStep(s, Destroy(t), z) && u in z.threads && u != t && u in s.threads && StageOk(s, u)
    ensures StageOk(z, u)
  {
    hide Inv;
    hide Out;
    hide Recyclable;
    var c := s.threads[t].c;
    StageKnown(s, t);
    hide StageOk;
    InvMem(s);
    hide MemOk;
    CacheHasQueue(s, t);
    DestroyedKeeps(s.m, c);
    RecyclableIsIdle(s.m, c);
    QueueKeys(s.m, c);
    DestroyedRecyclable(s.m, c);
    hide Destroyed;
    assert forall d, x :: Pending(s.m, d, x) ==> Pending(z.m, d, x);
    StageFrame(s, z, u);
  }

  lemma DestroyedRecyclable(m: Mem, c: Cache)
    ensures forall d :: Recyclable(m, d) ==> Recyclable(Destroyed(m, c), d)
    ensures Destroyed(m, c).hands == m.hands
  {
  }

  lemma NewName(s: State, c: Cache)
    requires Inv(s) && c !in s.names
    ensures c !in s.m.queue && c !in s.ids
  {
    assert c !in s.ids.Keys;
  }

  lemma CacheHasQueue(s: State, t: Thread)
    requires Inv(s) && t in s.threads
    ensures s.threads[t].c in s.m.queue
  {
    assert s.threads[t].c in s.ids.Keys;
  }

  // ----- the counts -----

  function OwingChange(s: State, e: Event, c: Cache): int {
    if e.t !in s.threads then 0
    else if e.PushExchange? && s.threads[e.t].FreeingRemote? && s.threads[e.t].target == c then 1
    else if e.PushCount? && s.threads[e.t].Counting? && s.threads[e.t].target == c then -1
    else 0
  }

  lemma OwesChange(s: State, e: Event, c: Cache, h: Stage)
    requires e.t in s.threads && Moves(e, s.threads[e.t], h)
    ensures OwingChange(s, e, c) == 1 ==> !Owes(s.threads[e.t], c) && Owes(h, c)
    ensures OwingChange(s, e, c) == -1 ==> Owes(s.threads[e.t], c) && !Owes(h, c)
    ensures OwingChange(s, e, c) == 0 ==> (Owes(s.threads[e.t], c) <==> Owes(h, c))
    ensures -1 <= OwingChange(s, e, c) <= 1
  {
  }

  lemma OwingByBlock(s: State, e: Event, z: State, c: Cache)
    requires BlockStep(s, e, z)
    ensures |Owing(z, c)| == |Owing(s, c)| + OwingChange(s, e, c)
  {
    BlockThreads(s, e, z);
    hide BlockStep;
    if e.t in s.threads {
      OwesChange(s, e, c, z.threads[e.t]);
      hide Moves;
      hide OwingChange;
      OwingUpdate(s, z, e.t, c, OwingChange(s, e, c));
    } else {
      assert Owing(z, c) == Owing(s, c);
    }
  }

  lemma OwingUpdate(s: State, z: State, t: Thread, c: Cache, d: int)
    requires t in s.threads && t in z.threads && (forall u :: u in s.threads <==> u in z.threads)
    requires forall u :: u in s.threads && u != t ==> z.threads[u] == s.threads[u]
    requires d == (if Owes(z.threads[t], c) then 1 else 0) - (if Owes(s.threads[t], c) then 1 else 0)
    ensures |Owing(z, c)| == |Owing(s, c)| + d
  {
    hide Owes;
    OneApart(Owing(s, c), Owing(z, c), t);
  }

  // What the queue and the counter of c do; both go down by one when the owner pops.
  lemma CountByBlock(s: State, e: Event, z: State, c: Cache)
    requires BlockStep(s, e, z) && c in s.m.queue && c in s.sizes
    ensures c in z.m.queue && c in z.sizes
    ensures e.Pop? && e.t in s.threads && s.threads[e.t].c == c ==>
      |z.m.queue[c]| == |s.m.queue[c]| - 1 && z.sizes[c] == Wrap(s.sizes[c] - 1)
    ensures !(e.Pop? && e.t in s.threads && s.threads[e.t].c == c) && OwingChange(s, e, c) == 0 ==>
      |z.m.queue[c]| == |s.m.queue[c]| && z.sizes[c] == s.sizes[c]
    ensures OwingChange(s, e, c) == 1 ==> |z.m.queue[c]| == |s.m.queue[c]| + 1 && z.sizes[c] == s.sizes[c]
    ensures OwingChange(s, e, c) == -1 ==> |z.m.queue[c]| == |s.m.queue[c]| && z.sizes[c] == Wrap(s.sizes[c] + 1)
  {
    hide Wrap;
    if e.PushExchange? || e.Pop? || e.PushCount? {
    } else {
      assert z.m.queue == s.m.queue && z.sizes == s.sizes;
    }
  }

  lemma SizeByBlock(s: State, e: Event, z: State, c: Cache)
    requires BlockStep(s, e, z) && SizeOk(s, c)
    ensures SizeOk(z, c)
  {
    OwingByBlock(s, e, z, c);
    CountByBlock(s, e, z, c);
    WrapStep(|s.m.queue[c]| - |Owing(s, c)|);
    hide BlockStep;
    hide Owing;
    hide Wrap;
  }

  lemma OwingByLife(s: State, e: Event, z: State, c: Cache)
    requires LifeStep(s, e, z)
    ensures Owing(z, c) == Owing(s, c)
  {
    hide Recyclable;
    hide Destroyed;
    hide NewQueue;
  }

  // A cache that stays keeps its queue and its counter.
  lemma CountByLife(s: State, e: Event, z: State, c: Cache)
    requires LifeStep(s, e, z) && c in z.ids && !(e.New? && e.c == c) && IdsMatch(s) && s.ids.Keys == s.m.queue.Keys
    ensures c in s.ids && c in s.m.queue && c in z.m.queue && z.m.queue[c] == s.m.queue[c]
    ensures c in s.sizes ==> c in z.sizes && z.sizes[c] == s.sizes[c]
  {
    hide Recyclable;
    hide Destroyed;
    if e.Destroy? { QueueKeys(s.m, s.threads[e.t].c); }
    if e.Attach? || e.Detach? { assert s.threads[e.t].c in s.ids; }
    assert c in s.ids.Keys;
  }

  lemma SizeByLife(s: State, e: Event, z: State, c: Cache)
    requires Inv(s) && LifeStep(s, e, z) && c in z.ids
    ensures SizeOk(z, c)
  {
    hide Inv;
    OwingByLife(s, e, z, c);
    if e.New? && e.c == c {
      NewIsNew(s, e, z);
      NewOwesNothing(s, c);
      NewCount(s, e.t, c, z);
    } else {
      InvIds(s);
      hide IdsMatch;
      CountByLife(s, e, z, c);
      hide LifeStep;
      SizeKnown(s, c);
      hide Owing;
      hide Wrap;
    }
  }

  lemma NewIsNew(s: State, e: Event, z: State)
    requires LifeStep(s, e, z) && e.New?
    ensures e.c !in s.names
  {
  }

  lemma NewCount(s: State, t: Thread, c: Cache, z: State)
    requires LifeStep(s, New(t, c), z) && Owing(z, c) == {}
    ensures SizeOk(z, c)
  {
    NoneCounted();
  }

  lemma InvIds(s: State)
    requires Inv(s)
    ensures IdsMatch(s) && s.ids.Keys == s.m.queue.Keys
  {
  }

  lemma SizeKnown(s: State, c: Cache)
    requires Inv(s) && c in s.ids
    ensures SizeOk(s, c)
  {
    hide MemOk;
    hide ThreadsOk;
    hide OrphansOk;
    hide CachesKept;
    hide Stages;
    hide SizeOk;
  }

  lemma NoneCounted()
    ensures Wrap(0) == 0
  {
  }

  lemma NewOwesNothing(s: State, c: Cache)
    requires Inv(s) && c !in s.names
    ensures Owing(s, c) == {}
  {
    forall t | t in s.threads && (s.threads[t].Linking? || s.threads[t].Counting?) ensures s.threads[t].target in s.names {
      assert StageOk(s, t);
      if s.threads[t].Linking? { PendingIsNamed(s, s.threads[t].target, s.threads[t].b); }
    }
  }

  lemma StepKeepsInv(s: State, e: Event, z: State)
    requires Inv(s) && Step(s, e, z)
    ensures Inv(z)
  {
    hide MemOk;
    hide IdsOk;
    hide OwnOk;
    hide OrphansOk;
    hide CachesKept;
    hide LifeStep;
    hide BlockStep;
    hide StageOk;
    hide SizeOk;
    hide SameLife;
    if LifeStep(s, e, z) {
      IdsByLife(s, e, z);
      OwnByLife(s, e, z);
      OrphansByLife(s, e, z);
      CachesByLife(s, e, z);
      MemByLife(s, e, z);
      forall u | u in z.threads ensures StageOk(z, u) { StageByLife(s, e, z, u); }
      forall c | c in z.ids ensures SizeOk(z, c) { SizeByLife(s, e, z, c); }
    } else {
      BlockStepLife(s, e, z);
      LifeByBlock(s, z);
      MemByBlock(s, e, z);
      BlockIds(s, z);
      forall u | u in z.threads ensures StageOk(z, u) { StageByBlock(s, e, z, u); }
      forall c | c in z.ids ensures SizeOk(z, c) { SizeByBlock(s, e, z, c); }
    }
  }

  lemma BlockIds(s: State, z: State)
    requires SameLife(s, z)
    ensures z.ids == s.ids
  {
  }

  // ----- runs -----

  ghost predicate Run(ss: seq<State>, es: seq<Event>) {
    && |ss| == |es| + 1 && Init(ss[0])
    && forall i :: 0 <= i < |es| ==> Step(ss[i], es[i], ss[i + 1])
  }

  ghost predicate Reachable(s: State) {
    exists ss: seq<State>, es: seq<Event> :: Run(ss, es) && s == ss[|ss| - 1]
  }

  lemma {:induction false} RunKeepsInv(ss: seq<State>, es: seq<Event>, i: nat)
    requires Run(ss, es) && i < |ss|
    ensures Inv(ss[i])
  {
    hide Inv;
    hide Step;
    if i == 0 {
      InitInv(ss[0]);
    } else {
      RunKeepsInv(ss, es, i - 1);
      StepKeepsInv(ss[i - 1], es[i - 1], ss[i]);
    }
  }

  lemma ReachableInv(s: State)
    requires Reachable(s)
    ensures Inv(s)
  {
    var ss: seq<State>, es: seq<Event> :| Run(ss, es) && s == ss[|ss| - 1];
    RunKeepsInv(ss, es, |ss| - 1);
  }

  // The three places a block of a carved chunk can be in.
  ghost predicate IsFree(m: Mem, k: Chunk, b: Block) { k in m.free && b in m.free[k] }

  /** In every interleaving every block of a carved chunk is in exactly one place: free in its chunk, held by
   *  exactly one user, or queued exactly once, with the cache that owns it and no other. */
  lemma OnePlace(s: State, k: Chunk, b: Block)
    requires Reachable(s) && k in s.m.owner && k in s.m.blocks && b in s.m.blocks[k]
    ensures IsFree(s.m, k, b) || Held(s.m, b) || Pending(s.m, s.m.owner[k], b)
    ensures !(IsFree(s.m, k, b) && Held(s.m, b))
    ensures !(IsFree(s.m, k, b) && Pending(s.m, s.m.owner[k], b))
    ensures !(Held(s.m, b) && Pending(s.m, s.m.owner[k], b))
    ensures forall c :: Pending(s.m, c, b) ==> c == s.m.owner[k]
    ensures forall t, u :: (t, b) in s.m.hands && (u, b) in s.m.hands ==> t == u
    ensures forall c :: c in s.m.queue ==> Distinct(s.m.queue[c])
  {
    ReachableInv(s);
    assert ChunkOk(s.m, k) && HasPlace(s.m, k, b);
    forall c | Pending(s.m, c, b) ensures c == s.m.owner[k] && !IsFree(s.m, k, b) { assert Out(s.m, b, c); }
    if Held(s.m, b) {
      var t :| (t, b) in s.m.hands;
      assert Out(s.m, b, OwnerOf(s.m, b));
    }
  }

  // ----- where blocks are, by what has happened to them -----

  datatype Place = Free | With(t: Thread) | Queued(c: Cache)

  // Where the block is that a step moves; other blocks stay where they are.
  ghost function PlaceAfter(s: State, e: Event, b: Block, p: Place): Place {
    match e
    case Fetch(t, k, bs) => if b in bs then Free else p
    case Alloc(t, k, x) => if x == b then With(t) else p
    case Pass(t, u, x) => if x == b then With(u) else p
    case LocalPut(t) => if Freeing(s, t, b) then Free else p
    case PushExchange(t) => if Freeing(s, t, b) && s.threads[t].FreeingRemote? then Queued(s.threads[t].target) else p
    case Pop(t) => if FirstOf(s, t) == Some(b) then With(t) else p
    case _ => p
  }

  // The block that a thread would pop.
  ghost function FirstOf(s: State, t: Thread): Option<Block> {
    if t in s.threads && s.threads[t].c in s.m.queue && s.m.queue[s.threads[t].c] != []
    then Some(s.m.queue[s.threads[t].c][0]) else None
  }

  ghost predicate Matches(m: Mem, b: Block, p: Place) {
    match p
    case Free => b in m.chunkOf && m.chunkOf[b] in m.free && b in m.free[m.chunkOf[b]]
    case With(t) => (t, b) in m.hands
    case Queued(c) => Pending(m, c, b)
  }

  ghost function PlaceAt(ss: seq<State>, es: seq<Event>, i: nat, b: Block): Place
    requires i <= |es| <= |ss|
  {
    if i == 0 then Free else PlaceAfter(ss[i - 1], es[i - 1], b, PlaceAt(ss, es, i - 1, b))
  }

  ghost predicate IsBlock(m: Mem, k: Chunk, b: Block) { k in m.owner && k in m.blocks && b in m.blocks[k] }

  lemma PlaceByLife(s: State, e: Event, z: State, k: Chunk, b: Block, p: Place)
    requires MemOk(s.m) && LifeStep(s, e, z) && IsBlock(z.m, k, b) && Matches(s.m, b, p)
    requires s.ids.Keys == s.m.queue.Keys && forall c :: c in s.ids ==> c in s.names
    ensures IsBlock(s.m, k, b) && Matches(z.m, b, p)
  {
    hide Recyclable;
    hide HandsOk;
    hide Accounted;
    if e.Destroy? {
      assert IsBlock(s.m, k, b) && ChunkOk(s.m, k);
      if p.Queued? { assert Out(s.m, b, p.c); }
    }
    if e.New? { assert e.c !in s.ids.Keys; }
  }

  lemma PlaceByMove(s: State, e: Event, z: State, b: Block, p: Place)
    requires BlockStep(s, e, z) && !e.Fetch? && !e.Recycle? && Matches(s.m, b, p)
    ensures z.m.owner == s.m.owner && z.m.blocks == s.m.blocks && Matches(z.m, b, PlaceAfter(s, e, b, p))
  {
    if e.Pop? {
      var q := s.m.queue[s.threads[e.t].c];
      assert q == [q[0]] + q[1..];
    }
  }

  lemma PlaceByFetch(s: State, t: Thread, k: Chunk, bs: set<Block>, z: State, j: Chunk, b: Block, p: Place)
    requires MemOk(s.m) && BlockStep(s, Fetch(t, k, bs), z) && IsBlock(z.m, j, b) && (IsBlock(s.m, j, b) ==> Matches(s.m, b, p))
    ensures Matches(z.m, b, PlaceAfter(s, Fetch(t, k, bs), b, p))
  {
    hide HandsOk;
    hide QueuesOk;
    hide Accounted;
    if b !in bs { assert IsBlock(s.m, j, b) && ChunkOk(s.m, j); }
  }

  lemma PlaceByRecycle(s: State, t: Thread, k: Chunk, z: State, j: Chunk, b: Block, p: Place)
    requires MemOk(s.m) && BlockStep(s, Recycle(t, k), z) && IsBlock(z.m, j, b) && Matches(s.m, b, p)
    ensures IsBlock(s.m, j, b) && Matches(z.m, b, p)
  {
    hide HandsOk;
    hide QueuesOk;
    hide Accounted;
    assert ChunkOk(s.m, j);
  }

  lemma PlaceByStep(s: State, e: Event, z: State, k: Chunk, b: Block, p: Place)
    requires Inv(s) && Step(s, e, z) && IsBlock(z.m, k, b) && (IsBlock(s.m, k, b) ==> Matches(s.m, b, p))
    ensures Matches(z.m, b, PlaceAfter(s, e, b, p))
  {
    hide Inv;
    hide LifeStep;
    hide BlockStep;
    hide Matches;
    InvMem(s);
    hide MemOk;
    if LifeStep(s, e, z) {
      LifeBlocks(s, e, z, k, b);
      NamesKnown(s);
      PlaceByLife(s, e, z, k, b, p);
      LifeIsLife(s, e, z);
    } else if e.Fetch? {
      PlaceByFetch(s, e.t, e.k, e.bs, z, k, b, p);
    } else if e.Recycle? {
      RecycleBlocks(s, e.t, e.k, z, k, b);
      PlaceByRecycle(s, e.t, e.k, z, k, b, p);
    } else {
      MoveBlocks(s, e, z, k, b);
      PlaceByMove(s, e, z, b, p);
    }
  }

  lemma LifeIsLife(s: State, e: Event, z: State)
    requires LifeStep(s, e, z)
    ensures !e.Fetch? && !e.Alloc? && !e.Pass? && !e.LocalPut? && !e.PushExchange? && !e.Pop?
  {
  }

  lemma LifeBlocks(s: State, e: Event, z: State, k: Chunk, b: Block)
    requires LifeStep(s, e, z) && IsBlock(z.m, k, b)
    ensures IsBlock(s.m, k, b)
  {
    hide Recyclable;
  }

  lemma RecycleBlocks(s: State, t: Thread, j: Chunk, z: State, k: Chunk, b: Block)
    requires BlockStep(s, Recycle(t, j), z) && IsBlock(z.m, k, b)
    ensures IsBlock(s.m, k, b)
  {
  }

  lemma MoveBlocks(s: State, e: Event, z: State, k: Chunk, b: Block)
    requires BlockStep(s, e, z) && !e.Fetch? && !e.Recycle? && IsBlock(z.m, k, b)
    ensures IsBlock(s.m, k, b)
  {
    hide Counted;
  }

  lemma NamesKnown(s: State)
    requires Inv(s)
    ensures s.ids.Keys == s.m.queue.Keys && forall c :: c in s.ids ==> c in s.names
  {
    hide MemOk;
    hide Stages;
    hide SizesOk;
    hide OrphansOk;
    hide CachesKept;
  }

  /** In every interleaving a block is where the last step that moved it has put it: with the thread that allocated it, was
   *  handed it or popped it, in the queue it was exchanged into, or free. */
  lemma {:induction false} PlaceByEvents(ss: seq<State>, es: seq<Event>, i: nat, k: Chunk, b: Block)
    requires Run(ss, es) && i < |ss| && IsBlock(ss[i].m, k, b)
    ensures Matches(ss[i].m, b, PlaceAt(ss, es, i, b))
  {
    hide Inv;
    hide Step;
    hide Matches;
    hide PlaceAfter;
    if i > 0 {
      RunKeepsInv(ss, es, i - 1);
      if IsBlock(ss[i - 1].m, k, b) { PlaceByEvents(ss, es, i - 1, k, b); }
      PlaceByStep(ss[i - 1], es[i - 1], ss[i], k, b, PlaceAt(ss, es, i - 1, b));
    }
  }

  // The block a thread has begun to free: the one it was asked to, or the one it popped.
  ghost function Begun(ss: seq<State>, es: seq<Event>, i: nat, t: Thread): Option<Block>
    requires i <= |es| <= |ss|
  {
    if i == 0 then None
    else if es[i - 1].FreeRead? && es[i - 1].t == t then Some(es[i - 1].b)
    else if es[i - 1].Pop? && es[i - 1].t == t then FirstOf(ss[i - 1], t)
    else Begun(ss, es, i - 1, t)
  }

  /** What a thread returns or exchanges is the block it has begun to free: in place exactly if its own cache has the id of the
   *  block's owner, else into the queue of the owner. */
  lemma {:induction false} FreesWhatItBegan(ss: seq<State>, es: seq<Event>, i: nat, t: Thread)
    requires Run(ss, es) && i < |ss| && t in ss[i].threads
    ensures var g := ss[i].threads[t];
      g.FreeingLocal? || g.FreeingRemote? ==>
        && Begun(ss, es, i, t) == Some(g.b) && OwnerOf(ss[i].m, g.b) == if g.FreeingLocal? then g.c else g.target
  {
    hide Inv;
    hide Step;
    RunKeepsInv(ss, es, i);
    StageKnown(ss[i], t);
    if i > 0 && (ss[i].threads[t].FreeingLocal? || ss[i].threads[t].FreeingRemote?) {
      assert Step(ss[i - 1], es[i - 1], ss[i]);
      FreeingFrom(ss[i - 1], es[i - 1], ss[i], t);
      if t in ss[i - 1].threads && ss[i].threads[t] == ss[i - 1].threads[t] { FreesWhatItBegan(ss, es, i - 1, t); }
    }
  }

  // Two ways to begin.
  lemma FreeingFrom(s: State, e: Event, z: State, t: Thread)
    requires Step(s, e, z) && t in z.threads && (z.threads[t].FreeingLocal? || z.threads[t].FreeingRemote?)
    ensures
      || (e.FreeRead? && e.t == t && z.threads[t].b == e.b)
      || (e.Pop? && e.t == t && FirstOf(s, t) == Some(z.threads[t].b))
      || (!(e.FreeRead? && e.t == t) && !(e.Pop? && e.t == t) && t in s.threads && z.threads[t] == s.threads[t])
  {
    hide Recyclable;
    hide Destroyed;
  }

  // The cache that has chunk k, if it is not in the central pool.
  ghost function OwnerAt(ss: seq<State>, es: seq<Event>, i: nat, k: Chunk): Option<Cache>
    requires i <= |es| <= |ss|
  {
    if i == 0 then None else
      var s, e, o := ss[i - 1], es[i - 1], OwnerAt(ss, es, i - 1, k);
      if e.Fetch? && e.k == k && e.t in s.threads then Some(s.threads[e.t].c)
      else if e.Recycle? && e.k == k then None
      else if e.Destroy? && e.t in s.threads && o == Some(s.threads[e.t].c) then None
      else o
  }

  /** In every interleaving a chunk belongs to the cache that fetched it, until it is recycled or that cache is destroyed. */
  lemma {:induction false} OwnerByEvents(ss: seq<State>, es: seq<Event>, i: nat, k: Chunk)
    requires Run(ss, es) && i < |ss|
    ensures OwnerAt(ss, es, i, k) == if k in ss[i].m.owner then Some(ss[i].m.owner[k]) else None
  {
    hide Step;
    if i > 0 {
      OwnerByEvents(ss, es, i - 1, k);
      OwnerStep(ss[i - 1], es[i - 1], ss[i], k);
    }
  }

  // Chunk k leaves cache s.m.owner[k].
  ghost predicate LeavesCache(s: State, e: Event, k: Chunk) {
    || (e.Recycle? && e.k == k)
    || (e.Destroy? && e.t in s.threads && k in s.m.owner && s.m.owner[k] == s.threads[e.t].c)
  }

  lemma OwnerStep(s: State, e: Event, z: State, k: Chunk)
    requires Step(s, e, z)
    ensures e.Fetch? || e.Destroy? ==> e.t in s.threads
    ensures e.Fetch? && e.k == k ==> k in z.m.owner && z.m.owner[k] == s.threads[e.t].c
    ensures LeavesCache(s, e, k) ==> k !in z.m.owner
    ensures !(e.Fetch? && e.k == k) && !LeavesCache(s, e, k) ==>
      (k in z.m.owner <==> k in s.m.owner) && (k in z.m.owner ==> z.m.owner[k] == s.m.owner[k])
  {
    hide BlockStep;
    hide LifeStep;
    if LifeStep(s, e, z) { OwnerByLife(s, e, z, k); } else { OwnerByBlock(s, e, z, k); }
  }

  lemma OwnerByLife(s: State, e: Event, z: State, k: Chunk)
    requires LifeStep(s, e, z)
    ensures !e.Fetch? && (e.Destroy? ==> e.t in s.threads)
    ensures (k in z.m.owner <==> k in s.m.owner && !LeavesCache(s, e, k)) && (k in z.m.owner ==> z.m.owner[k] == s.m.owner[k])
  {
    hide Recyclable;
  }

  lemma OwnerByBlock(s: State, e: Event, z: State, k: Chunk)
    requires BlockStep(s, e, z)
    ensures !e.Destroy? && (e.Fetch? ==> e.t in s.threads)
    ensures e.Fetch? && e.k == k ==> k in z.m.owner && z.m.owner[k] == s.threads[e.t].c
    ensures LeavesCache(s, e, k) ==> k !in z.m.owner
    ensures !(e.Fetch? && e.k == k) && !LeavesCache(s, e, k) ==>
      (k in z.m.owner <==> k in s.m.owner) && (k in z.m.owner ==> z.m.owner[k] == s.m.owner[k])
  {
    hide Counted;
    hide Unlinked;
  }

  // The queue of cache c: blocks are exchanged in at the back and popped from the front.
  ghost function QueueAt(ss: seq<State>, es: seq<Event>, i: nat, c: Cache): seq<Block>
    requires i <= |es| <= |ss|
  {
    if i == 0 then [] else
      var s, e, q := ss[i - 1], es[i - 1], QueueAt(ss, es, i - 1, c);
      if Exchanges(s, e, c) then q + [s.threads[e.t].b]
      else if PopsFrom(s, e, c) && q != [] then q[1..]
      else q
  }

  /** In every interleaving the queue of a cache holds what was exchanged into it and not yet popped, in that order. */
  lemma {:induction false} QueueByEvents(ss: seq<State>, es: seq<Event>, i: nat, c: Cache)
    requires Run(ss, es) && i < |ss|
    ensures c in ss[i].m.queue ==> ss[i].m.queue[c] == QueueAt(ss, es, i, c)
    ensures c !in ss[i].names ==> QueueAt(ss, es, i, c) == []
  {
    hide Inv;
    hide Step;
    if i > 0 {
      QueueByEvents(ss, es, i - 1, c);
      RunKeepsInv(ss, es, i - 1);
      NamesKnown(ss[i - 1]);
      QueueStep(ss[i - 1], es[i - 1], ss[i], c);
    }
  }

  ghost predicate Exchanges(s: State, e: Event, c: Cache) {
    e.PushExchange? && e.t in s.threads && s.threads[e.t].FreeingRemote? && s.threads[e.t].target == c
  }

  ghost predicate PopsFrom(s: State, e: Event, c: Cache) { e.Pop? && e.t in s.threads && s.threads[e.t].c == c }

  lemma QueueStep(s: State, e: Event, z: State, c: Cache)
    requires Step(s, e, z) && s.ids.Keys == s.m.queue.Keys && forall d :: d in s.ids ==> d in s.names
    ensures s.names <= z.names
    ensures c in z.m.queue && c !in s.m.queue ==> c !in s.names && z.m.queue[c] == []
    ensures Exchanges(s, e, c) || PopsFrom(s, e, c) ==> c in s.m.queue && c in s.names
    ensures PopsFrom(s, e, c) ==> s.m.queue[c] != []
    ensures c in z.m.queue && c in s.m.queue ==> (z.m.queue[c] ==
              if Exchanges(s, e, c) then s.m.queue[c] + [s.threads[e.t].b]
              else if PopsFrom(s, e, c) then s.m.queue[c][1..] else s.m.queue[c])
  {
    hide LifeStep;
    hide BlockStep;
    if LifeStep(s, e, z) { QueueByLife(s, e, z, c); } else { QueueByBlock(s, e, z, c); }
    if c in s.m.queue { assert c in s.ids.Keys; }
  }

  lemma QueueByLife(s: State, e: Event, z: State, c: Cache)
    requires LifeStep(s, e, z)
    ensures s.names <= z.names && !e.PushExchange? && !e.Pop?
    ensures c in z.m.queue && c !in s.m.queue ==> c !in s.names && z.m.queue[c] == []
    ensures c in z.m.queue && c in s.m.queue && c in s.names ==> z.m.queue[c] == s.m.queue[c]
  {
    hide Recyclable;
    hide ChunksOf;
  }

  lemma QueueByBlock(s: State, e: Event, z: State, c: Cache)
    requires BlockStep(s, e, z)
    ensures s.names == z.names && (c in z.m.queue ==> c in s.m.queue)
    ensures Exchanges(s, e, c) || PopsFrom(s, e, c) ==> c in s.m.queue
    ensures PopsFrom(s, e, c) ==> s.m.queue[c] != []
    ensures c in z.m.queue ==> (z.m.queue[c] ==
              if Exchanges(s, e, c) then s.m.queue[c] + [s.threads[e.t].b]
              else if PopsFrom(s, e, c) then s.m.queue[c][1..] else s.m.queue[c])
  {
    hide Counted;
    hide Unlinked;
  }

  /** No block is handed out twice: what `Alloc` gives away nobody holds, and it is in no queue. */
  lemma NeverHandedOutTwice(s: State, t: Thread, k: Chunk, b: Block, z: State)
    requires Reachable(s) && BlockStep(s, Alloc(t, k, b), z)
    ensures forall u :: (u, b) !in s.m.hands
    ensures forall c :: !Pending(s.m, c, b)
  {
    ReachableInv(s);
    GivenKeeps(s.m, t, k, b);
    assert forall u :: (u, b) in s.m.hands ==> Held(s.m, b);
  }

  /** A cache is destroyed only when none of its blocks is held or queued, nobody has it, and nobody is about to
   *  exchange or to link on its queue. */
  lemma DestroyedOnlyIdle(s: State, t: Thread, z: State)
    requires Reachable(s) && LifeStep(s, Destroy(t), z)
    ensures var c := s.threads[t].c;
      && c in s.m.queue && s.m.queue[c] == []
      && (forall u, b :: (u, b) in s.m.hands ==> OwnerOf(s.m, b) != c)
      && (forall u :: u in s.threads && (s.threads[u].FreeingRemote? || s.threads[u].Linking?) ==> s.threads[u].target != c)
      && (forall u :: u in s.threads && u != t ==> s.threads[u].c != c)
  {
    hide Inv;
    hide Reachable;
    hide Destroyed;
    hide Recyclable;
    hide Out;
    ReachableInv(s);
    var c := s.threads[t].c;
    StageKnown(s, t);
    InvMem(s);
    hide MemOk;
    CacheHasQueue(s, t);
    RecyclableIsIdle(s.m, c);
    forall u | u in s.threads && (s.threads[u].FreeingRemote? || s.threads[u].Linking?) ensures s.threads[u].target != c {
      StageKnown(s, u);
      assert s.threads[u].FreeingRemote? ==> !Out(s.m, s.threads[u].b, c);
    }
    forall u | u in s.threads && u != t ensures s.threads[u].c != c { OwnParts(s); hide HandsOk; OwnCaches(s, t, u); }
  }

  // ----- every access finds what it needs, but for the count -----

  // The next access of a thread that is freeing finds the queue, or the chunk, it is made to.
  ghost predicate AccessOk(s: State, t: Thread)
    requires t in s.threads
  {
    match s.threads[t]
    case FreeingLocal(c, b, _) => OwnerOf(s.m, b) == c && b in s.m.chunkOf && s.m.chunkOf[b] in s.m.free
    case FreeingRemote(_, _, target) => target in s.m.queue
    case Linking(_, _, target) => target in s.m.queue
    case Counting(_, target) => target in s.m.queue
    case _ => true
  }

  // Someone is about to count on the queue of c.
  ghost predicate CountedOn(s: State, c: Cache) {
    exists u :: u in s.threads && s.threads[u].Counting? && s.threads[u].target == c
  }

  /** A thread's own cache exists and carries its id; the exchange, the link and the return in place always find what
   *  they need; so the count alone can be late. */
  lemma FreeingIsSafe(s: State, t: Thread)
    requires Reachable(s) && t in s.threads
    ensures !s.threads[t].Counting? ==> AccessOk(s, t)
    ensures s.threads[t].c in s.m.queue && s.threads[t].c in s.ids
    ensures s.threads[t].Running? ==> s.ids[s.threads[t].c] == Some(t)
  {
    ReachableInv(s);
    assert StageOk(s, t);
    if s.threads[t].FreeingRemote? { assert ChunkOk(s.m, s.m.chunkOf[s.threads[t].b]); }
    assert s.threads[t].c in s.ids.Keys;
  }

  // Every freeing thread finds what its next access needs.
  ghost predicate Safe(s: State) { forall t :: t in s.threads ==> AccessOk(s, t) }

  // The step that makes a count too late: a cache is destroyed while someone is about to count on its queue.
  ghost predicate DestroysEarly(s: State, e: Event) {
    e.Destroy? && e.t in s.threads && CountedOn(s, s.threads[e.t].c)
  }

  // Queues come and go with caches only.
  lemma QueuesByStep(s: State, e: Event, z: State, c: Cache)
    requires Inv(s) && Step(s, e, z) && c in s.m.queue
    ensures c in z.m.queue <==> !(e.Destroy? && s.threads[e.t].c == c)
  {
    hide Inv;
    hide LifeStep;
    hide BlockStep;
    if BlockStep(s, e, z) {
      BlockStepQueues(s, e, z);
      assert c in s.m.queue.Keys;
      BlockIsNotLife(s, e, z);
    } else {
      QueuesByLife(s, e, z, c);
    }
  }

  lemma BlockIsNotLife(s: State, e: Event, z: State)
    requires BlockStep(s, e, z)
    ensures !e.Destroy?
  {
  }

  lemma QueuesByLife(s: State, e: Event, z: State, c: Cache)
    requires LifeStep(s, e, z) && c in s.m.queue
    ensures c in z.m.queue <==> !(e.Destroy? && s.threads[e.t].c == c)
  {
    hide Recyclable;
    hide Destroyed;
    if e.Destroy? { QueueKeys(s.m, s.threads[e.t].c); }
  }

  // Before its link is made the queue is there: the block is queued and not yet poppable.
  lemma CountBegins(s: State, e: Event, z: State, u: Thread)
    requires Inv(s) && Step(s, e, z) && u in z.threads && z.threads[u].Counting?
    requires u in s.threads ==> s.threads[u] != z.threads[u]
    ensures e == PushLink(u) && z.threads[u].target in z.m.queue
  {
    hide Inv;
    hide LifeStep;
    hide BlockStep;
    if LifeStep(s, e, z) {
      NoCountByLife(s, e, z, u);
    } else {
      BlockThreads(s, e, z);
      StageKnown(s, u);
    }
  }

  lemma NoCountByLife(s: State, e: Event, z: State, u: Thread)
    requires LifeStep(s, e, z) && u in z.threads && z.threads[u].Counting?
    ensures u in s.threads && s.threads[u] == z.threads[u]
  {
    hide Destroyed;
    hide NewQueue;
    hide Recyclable;
  }

  /** From a state where all is safe, one step leads to an unsafe one if and only if it destroys a cache that someone is
   *  about to count on. */
  lemma StaysSafeIff(s: State, e: Event, z: State)
    requires Inv(s) && Safe(s) && Step(s, e, z)
    ensures Safe(z) <==> !DestroysEarly(s, e)
  {
    StepKeepsInv(s, e, z);
    hide Inv;
    hide Step;
    if DestroysEarly(s, e) {
      EarlyIsUnsafe(s, e, z);
    } else {
      hide AccessOk;
      hide DestroysEarly;
      forall u | u in z.threads ensures AccessOk(z, u) { StaysSafe(s, e, z, u); }
    }
  }

  lemma EarlyIsUnsafe(s: State, e: Event, z: State)
    requires Inv(s) && Step(s, e, z) && DestroysEarly(s, e)
    ensures !Safe(z)
  {
    hide Inv;
    hide Step;
    var u :| u in s.threads && s.threads[u].Counting? && s.threads[u].target == s.threads[e.t].c;
    DestroyedUnder(s, e, z, u);
    assert !AccessOk(z, u);
  }

  lemma StaysSafe(s: State, e: Event, z: State, u: Thread)
    requires Inv(s) && Inv(z) && Safe(s) && Step(s, e, z) && !DestroysEarly(s, e) && u in z.threads
    ensures AccessOk(z, u)
  {
    hide Inv;
    hide Step;
    if !z.threads[u].Counting? {
      InvIsSafe(z, u);
    } else if u in s.threads && s.threads[u] == z.threads[u] {
      assert AccessOk(s, u);
      DestroyHasThread(s, e, z);
      QueuesByStep(s, e, z, z.threads[u].target);
    } else {
      CountBegins(s, e, z, u);
    }
  }

  lemma DestroyHasThread(s: State, e: Event, z: State)
    requires Step(s, e, z)
    ensures e.Destroy? ==> e.t in s.threads
  {
  }

  lemma DestroyedUnder(s: State, e: Event, z: State, u: Thread)
    requires Inv(s) && Step(s, e, z) && DestroysEarly(s, e)
    requires u in s.threads && s.threads[u].Counting? && s.threads[u].target == s.threads[e.t].c
    ensures u in z.threads && z.threads[u] == s.threads[u] && z.threads[u].target !in z.m.queue
  {
    hide MemOk;
    hide ThreadsOk;
    assert s.threads[e.t].Dying? && u != e.t;
  }

  lemma InvIsSafe(s: State, t: Thread)
    requires Inv(s) && t in s.threads && !s.threads[t].Counting?
    ensures AccessOk(s, t)
  {
    assert StageOk(s, t);
    if s.threads[t].FreeingRemote? { assert ChunkOk(s.m, s.m.chunkOf[s.threads[t].b]); }
  }

  /** In every run: every access of every freeing thread finds the queue or chunk it is made to if and only if no cache
   *  is destroyed while a thread is about to count on its queue. */
  lemma SafeRunIff(ss: seq<State>, es: seq<Event>)
    requires Run(ss, es)
    ensures (forall i :: 0 <= i < |ss| ==> Safe(ss[i])) <==> (forall i :: 0 <= i < |es| ==> !DestroysEarly(ss[i], es[i]))
  {
    hide Inv;
    hide Step;
    hide Safe;
    hide DestroysEarly;
    if forall i :: 0 <= i < |es| ==> !DestroysEarly(ss[i], es[i]) {
      forall i | 0 <= i < |ss| ensures Safe(ss[i]) { SafeUpTo(ss, es, i); }
    }
    if forall i :: 0 <= i < |ss| ==> Safe(ss[i]) {
      forall i | 0 <= i < |es| ensures !DestroysEarly(ss[i], es[i]) {
        RunKeepsInv(ss, es, i);
        assert Safe(ss[i]) && Safe(ss[i + 1]);
        StaysSafeIff(ss[i], es[i], ss[i + 1]);
      }
    }
  }

  lemma {:induction false} SafeUpTo(ss: seq<State>, es: seq<Event>, n: nat)
    requires Run(ss, es) && n < |ss| && (forall i :: 0 <= i < n && i < |es| ==> !DestroysEarly(ss[i], es[i]))
    ensures Safe(ss[n])
  {
    hide Inv;
    hide Step;
    hide DestroysEarly;
    if n > 0 {
      SafeUpTo(ss, es, n - 1);
      RunKeepsInv(ss, es, n - 1);
      StaysSafeIff(ss[n - 1], es[n - 1], ss[n]);
    }
  }

  /** A test that the destroyer can make: someone is still about to count on its queue if and only if the queue's own counter
   *  is not 0. */
  lemma EarlyIffUncounted(s: State, t: Thread, z: State)
    requires Reachable(s) && LifeStep(s, Destroy(t), z) && |s.threads.Keys| < TWO_64
    ensures s.threads[t].c in s.sizes
    ensures DestroysEarly(s, Destroy(t)) <==> s.sizes[s.threads[t].c] != 0
  {
    hide Inv;
    hide Reachable;
    hide Destroyed;
    hide IdsMatch;
    hide CountedOn;
    DestroyedOnlyIdle(s, t, z);
    ReachableInv(s);
    OwnCacheIn(s, t);
    var c := s.threads[t].c;
    SizeKnown(s, c);
    OwingIsCounting(s, c);
    OwingFew(s, c);
    hide Owing;
    WrapMinus(|Owing(s, c)|);
    hide Wrap;
  }

  lemma OwingFew(s: State, c: Cache)
    ensures |Owing(s, c)| <= |s.threads.Keys|
  {
    SubsetCount(Owing(s, c), s.threads.Keys);
  }

  lemma OwnCacheIn(s: State, t: Thread)
    requires Inv(s) && t in s.threads
    ensures s.threads[t].c in s.ids
  {
    InvIds(s);
    hide Inv;
  }

  lemma OwingIsCounting(s: State, c: Cache)
    requires forall u :: u in s.threads && s.threads[u].Linking? ==> s.threads[u].target != c
    ensures CountedOn(s, c) <==> |Owing(s, c)| > 0
  {
    if u :| u in s.threads && s.threads[u].Counting? && s.threads[u].target == c { assert u in Owing(s, c); }
    if Owing(s, c) != {} {
      var u :| u in Owing(s, c);
      assert s.threads[u].Counting? && s.threads[u].target == c;
    }
  }

  lemma WrapMinus(n: nat)
    requires n < TWO_64
    ensures Wrap(0 - n) == 0 <==> n == 0
  {
  }

  // ----- a run in which the count is late -----

  lemma Reaches(s: State, e: Event, z: State)
    requires Reachable(s) && Step(s, e, z)
    ensures Reachable(z)
  {
    hide Step;
    hide Init;
    var ss: seq<State>, es: seq<Event> :| Run(ss, es) && s == ss[|ss| - 1];
    var us, fs := ss + [z], es + [e];
    forall i | 0 <= i < |fs| ensures Step(us[i], fs[i], us[i + 1]) {
      if i < |es| { assert Step(ss[i], es[i], ss[i + 1]); }
    }
    assert Run(us, fs);
  }

  // Thread 1 has cache 1 and thread 2 cache 2; the one chunk in use is 5, with the one block 7.
  ghost predicate Two(s: State, a: Stage, b: Stage, id: Option<Thread>, q: seq<Block>, free: set<Block>,
                      hands: set<(Thread, Block)>)
  {
    && s.threads == map[1 := a, 2 := b] && s.ids == map[1 := id, 2 := Some(2)]
    && s.m.owner == map[5 := 1] && s.m.blocks == map[5 := {7}] && s.m.chunkOf == map[7 := 5]
    && 1 in s.m.queue && s.m.queue[1] == q && 5 in s.m.free && s.m.free[5] == free && s.m.hands == hands
  }

  lemma BothAttached() returns (z: State)
    ensures Reachable(z) && z.threads == map[1 := Running(1, false), 2 := Running(2, false)]
    ensures z.ids == map[1 := Some(1), 2 := Some(2)] && 1 in z.m.queue && z.m.queue[1] == [] && z.m.owner == map[]
    ensures z.m.hands == {} && z.m.blocks == map[] && z.m.chunkOf == map[]
  {
    hide Init;
    hide Run;
    var s0 := State(map[], map[], [], {}, map[], Mem(map[], map[], map[], map[], map[], {}));
    NoStep(s0);
    var s1 := s0.(threads := s0.threads[1 := Attaching(1)], ids := s0.ids[1 := None], names := s0.names + {1},
                  sizes := s0.sizes[1 := 0], m := NewQueue(s0.m, 1));
    Reaches(s0, New(1, 1), s1);
    var s2 := s1.(threads := s1.threads[1 := Running(1, false)], ids := s1.ids[1 := Some(1)]);
    Reaches(s1, Attach(1), s2);
    var s3 := s2.(threads := s2.threads[2 := Attaching(2)], ids := s2.ids[2 := None], names := s2.names + {2},
                  sizes := s2.sizes[2 := 0], m := NewQueue(s2.m, 2));
    Reaches(s2, New(2, 2), s3);
    z := s3.(threads := s3.threads[2 := Running(2, false)], ids := s3.ids[2 := Some(2)]);
    Reaches(s3, Attach(2), z);
  }

  lemma NoStep(s: State)
    requires Init(s)
    ensures Reachable(s)
  {
    assert Run([s], []);
  }

  // Thread 1 fetches the chunk, allocates the block and passes it on; thread 2 begins to free it.
  lemma FreedRemotely() returns (z: State)
    ensures Reachable(z) && Two(z, Running(1, false), FreeingRemote(2, 7, 1), Some(1), [], {}, {(2, 7)})
  {
    hide Run;
    hide Reachable;
    z := BothAttached();
    z := Fetches(z);
    z := Allocates(z);
    z := PassedOn(z);
  }

  lemma Fetches(s: State) returns (z: State)
    requires Reachable(s) && s.threads == map[1 := Running(1, false), 2 := Running(2, false)]
    requires s.ids == map[1 := Some(1), 2 := Some(2)] && 1 in s.m.queue && s.m.queue[1] == [] && s.m.owner == map[]
    requires s.m.hands == {} && s.m.blocks == map[] && s.m.chunkOf == map[]
    ensures Reachable(z) && Two(z, Running(1, false), Running(2, false), Some(1), [], {7}, {})
  {
    hide Run;
    hide Reachable;
    z := s.(m := Fetched(s.m, 1, 5, {7}));
    assert BlockStep(s, Fetch(1, 5, {7}), z);
    hide LifeStep;
    hide BlockStep;
    Reaches(s, Fetch(1, 5, {7}), z);
  }

  lemma Allocates(s: State) returns (z: State)
    requires Reachable(s) && Two(s, Running(1, false), Running(2, false), Some(1), [], {7}, {})
    ensures Reachable(z) && Two(z, Running(1, false), Running(2, false), Some(1), [], {}, {(1, 7)})
  {
    hide Run;
    hide Reachable;
    z := s.(m := Given(s.m, 1, 5, 7));
    assert BlockStep(s, Alloc(1, 5, 7), z);
    hide LifeStep;
    hide BlockStep;
    Reaches(s, Alloc(1, 5, 7), z);
  }

  lemma PassedOn(s: State) returns (z: State)
    requires Reachable(s) && Two(s, Running(1, false), Running(2, false), Some(1), [], {}, {(1, 7)})
    ensures Reachable(z) && Two(z, Running(1, false), FreeingRemote(2, 7, 1), Some(1), [], {}, {(2, 7)})
  {
    hide Run;
    hide Reachable;
    var s1 := s.(m := Passed(s.m, 1, 2, 7));
    assert BlockStep(s, Pass(1, 2, 7), s1);
    assert Two(s1, Running(1, false), Running(2, false), Some(1), [], {}, {(2, 7)});
    hide Two;
    hide LifeStep;
    hide BlockStep;
    Reaches(s, Pass(1, 2, 7), s1);
    z := BeginsToFree(s1);
  }

  lemma BeginsToFree(s: State) returns (z: State)
    requires Reachable(s) && Two(s, Running(1, false), Running(2, false), Some(1), [], {}, {(2, 7)})
    ensures Reachable(z) && Two(z, Running(1, false), FreeingRemote(2, 7, 1), Some(1), [], {}, {(2, 7)})
  {
    hide Run;
    hide Reachable;
    z := s.(threads := s.threads[2 := FreeingRemote(2, 7, 1)]);
    assert BlockStep(s, FreeRead(2, 7), z);
    hide LifeStep;
    hide BlockStep;
    Reaches(s, FreeRead(2, 7), z);
  }

  // Thread 2 exchanges and links.
  lemma Pushes(s: State) returns (z: State)
    requires Reachable(s) && Two(s, Running(1, false), FreeingRemote(2, 7, 1), Some(1), [], {}, {(2, 7)})
    ensures Reachable(z) && Two(z, Running(1, false), Counting(2, 1), Some(1), [7], {}, {})
  {
    hide Run;
    hide Reachable;
    var s1 := s.(threads := s.threads[2 := Linking(2, 7, 1)], m := Pushed(s.m, 2, 1, 7));
    Reaches(s, PushExchange(2), s1);
    z := s1.(threads := s1.threads[2 := Counting(2, 1)]);
    Reaches(s1, PushLink(2), z);
  }

  // Thread 1 exits; it pops the block and returns it.
  lemma Drains(s: State) returns (z: State)
    requires Reachable(s) && Two(s, Running(1, false), Counting(2, 1), Some(1), [7], {}, {})
    ensures Reachable(z) && Two(z, Running(1, true), Counting(2, 1), Some(1), [], {7}, {})
  {
    hide Run;
    hide Reachable;
    hide Two;
    z := Exits(s);
    z := Pops(z);
    z := PutsBack(z);
  }

  lemma Exits(s: State) returns (z: State)
    requires Reachable(s) && Two(s, Running(1, false), Counting(2, 1), Some(1), [7], {}, {})
    ensures Reachable(z) && Two(z, Running(1, true), Counting(2, 1), Some(1), [7], {}, {})
  {
    hide Run;
    hide Reachable;
    z := s.(threads := s.threads[1 := Running(1, true)]);
    assert LifeStep(s, Exit(1), z);
    hide LifeStep;
    hide BlockStep;
    Reaches(s, Exit(1), z);
  }

  lemma Pops(s: State) returns (z: State)
    requires Reachable(s) && Two(s, Running(1, true), Counting(2, 1), Some(1), [7], {}, {})
    ensures Reachable(z) && Two(z, FreeingLocal(1, 7, true), Counting(2, 1), Some(1), [], {}, {(1, 7)})
  {
    hide Run;
    hide Reachable;
    hide Counted;
    assert !Unlinked(s, 7);
    z := s.(threads := s.threads[1 := FreeingLocal(1, 7, true)], sizes := Counted(s.sizes, 1, -1), m := Popped(s.m, 1, 1));
    assert BlockStep(s, Pop(1), z);
    hide LifeStep;
    hide BlockStep;
    Reaches(s, Pop(1), z);
  }

  lemma PutsBack(s: State) returns (z: State)
    requires Reachable(s) && Two(s, FreeingLocal(1, 7, true), Counting(2, 1), Some(1), [], {}, {(1, 7)})
    ensures Reachable(z) && Two(z, Running(1, true), Counting(2, 1), Some(1), [], {7}, {})
  {
    hide Run;
    hide Reachable;
    z := s.(threads := s.threads[1 := Running(1, true)], m := Returned(s.m, 1, 7));
    assert BlockStep(s, LocalPut(1), z);
    hide LifeStep;
    hide BlockStep;
    Reaches(s, LocalPut(1), z);
  }

  // It finds its queue empty and detaches; it finds its cache recyclable.
  lemma Leaves(s: State) returns (z: State)
    requires Reachable(s) && Two(s, Running(1, true), Counting(2, 1), Some(1), [], {7}, {})
    ensures Reachable(z) && Two(z, Leaving(1), Counting(2, 1), Some(1), [], {7}, {})
  {
    hide Run;
    hide Reachable;
    z := s.(threads := s.threads[1 := Leaving(1)]);
    assert LifeStep(s, SawEmpty(1), z);
    hide LifeStep;
    hide BlockStep;
    Reaches(s, SawEmpty(1), z);
  }

  lemma Detaches(s: State) returns (z: State)
    requires Reachable(s) && Two(s, Leaving(1), Counting(2, 1), Some(1), [], {7}, {})
    ensures Reachable(z) && Two(z, Detached(1), Counting(2, 1), None, [], {7}, {})
  {
    hide Run;
    hide Reachable;
    z := s.(threads := s.threads[1 := Detached(1)], ids := s.ids[1 := None]);
    assert LifeStep(s, Detach(1), z);
    hide LifeStep;
    hide BlockStep;
    Reaches(s, Detach(1), z);
  }

  lemma Decides(s: State) returns (z: State)
    requires Reachable(s) && Two(s, Detached(1), Counting(2, 1), None, [], {7}, {})
    ensures Reachable(z) && Two(z, Dying(1), Counting(2, 1), None, [], {7}, {})
  {
    hide Run;
    hide Reachable;
    assert Recyclable(s.m, 1);
    z := s.(threads := s.threads[1 := Dying(1)]);
    Reaches(s, Decide(1), z);
  }

  /** The code does not ensure it: thread 2 frees a block of thread 1, which exits, drains its queue, finds its cache
   *  recyclable and destroys it before thread 2 has counted. */
  lemma CountCanBeLate() returns (s: State, z: State)
    ensures Reachable(s) && Safe(s) && Step(s, Destroy(1), z) && DestroysEarly(s, Destroy(1))
    ensures Reachable(z) && 2 in z.threads && z.threads[2] == Counting(2, 1) && 1 !in z.m.queue && !AccessOk(z, 2)
  {
    hide Run;
    hide Reachable;
    hide Two;
    hide Step;
    hide Safe;
    hide DestroysEarly;
    hide AccessOk;
    s := FreedRemotely();
    s := Pushes(s);
    s := Drains(s);
    s := Leaves(s);
    s := Detaches(s);
    s := Decides(s);
    z := DestroysLate(s);
  }

  lemma DestroysLate(s: State) returns (z: State)
    requires Reachable(s) && Two(s, Dying(1), Counting(2, 1), None, [], {7}, {})
    ensures Safe(s) && Step(s, Destroy(1), z) && DestroysEarly(s, Destroy(1))
    ensures Reachable(z) && 2 in z.threads && z.threads[2] == Counting(2, 1) && 1 !in z.m.queue && !AccessOk(z, 2)
  {
    hide Run;
    hide Reachable;
    z := s.(threads := s.threads - {1}, ids := s.ids - {1}, sizes := s.sizes - {1}, m := Destroyed(s.m, 1));
    Reaches(s, Destroy(1), z);
    assert s.threads[2].Counting? && s.threads[2].target == 1;
  }

  /** No cache is lost: each one that exists is some one thread's or is an orphan waiting to be adopted, and
   *  every carved chunk and every queued block belongs to a cache that exists. */
  lemma NoCacheLost(s: State, c: Cache)
    requires Reachable(s) && c in s.ids
    ensures c in s.orphans <==> !Has(s, c)
    ensures forall k :: k in s.m.owner ==> s.m.owner[k] in s.ids
  {
    ReachableInv(s);
    forall k | k in s.m.owner ensures s.m.owner[k] in s.ids { assert ChunkOk(s.m, k) && s.m.owner[k] in s.m.queue.Keys; }
  }
}
