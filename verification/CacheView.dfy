/** What a thread's cache holds, as values: the headers in memory, the per-class lists and counters, and for
 *  every chunk it owns which blocks are free and which are out.  Each step of `GetBlock`, `PutBlock` and
 *  `Recycle` is a function on such views that keeps the invariant.
 */
module CacheView {
  import opened BlockLayout
  import opened Common
  import opened ChunkMemory

  datatype BlockCache = BlockCache(recyclable: Addr, available: Addr, totalSize: nat, recyclableSize: nat,
                                   inUseSize: nat)

  datatype View = View(
    h: Chunks, m: BlockMap, caches: seq<BlockCache>, total: nat, recyclable: nat,
    avail: seq<seq<Addr>>, recyc: seq<seq<Addr>>,  // the lists of each class
    owned: map<Addr, nat>,                         // chunk -> class
    free: map<Addr, seq<Addr>>,                    // chunk -> its free blocks
    held: seq<set<Addr>>)                          // per class, the blocks that are not free

  ghost predicate Shape(v: View) {
    |v.caches| == |v.avail| == |v.recyc| == |v.held| == CLASSES
  }

  ghost predicate Owns(v: View, i: nat, c: Addr) { c in v.owned && v.owned[c] == i && c in v.h }

  ghost predicate ChunkOk(v: View, o: object, c: Addr) {
    && c in v.owned && c in v.h && c != 0 && v.owned[c] < CLASSES && c in v.free
    && Carved(v.h[c], v.m, c, v.owned[c], o, v.free[c])
  }

  ghost predicate ChunksOk(v: View, o: object) {
    && (forall c :: c in v.owned ==> ChunkOk(v, o, c))
    && (forall c, d :: c in v.owned && d in v.owned && c != d ==> Apart(c, d))
  }

  ghost predicate ListOk(v: View, i: nat)
    requires Shape(v) && i < CLASSES
  {
    Chain(v.h, v.avail[i], v.caches[i].available) && Chain(v.h, v.recyc[i], v.caches[i].recyclable)
  }

  ghost predicate ListsOk(v: View)
    requires Shape(v)
  {
    forall i :: 0 <= i < CLASSES ==> ListOk(v, i)
  }

  // A chunk is in `available` iff some but not all of its blocks are free, in `recyclable` iff all are.  The
  // chunk `hot`, if not null, is on its way from the one list to the other.
  ghost predicate Placed(v: View, hot: Addr, i: nat, c: Addr)
    requires Shape(v) && i < CLASSES
  {
    && (c in v.avail[i] <==> Owns(v, i, c) && (0 < v.h[c].avail < v.h[c].total || c == hot))
    && (c in v.recyc[i] <==> Owns(v, i, c) && v.h[c].avail == v.h[c].total && c != hot)
  }

  ghost predicate PlacesOk(v: View, hot: Addr)
    requires Shape(v)
  {
    forall i, c :: 0 <= i < CLASSES ==> Placed(v, hot, i, c)
  }

  ghost predicate HeldBlock(v: View, i: nat, b: Addr) {
    && b in v.m && v.m[b].chunk in v.owned && v.owned[v.m[b].chunk] == i
    && b in Blocks(v.m[b].chunk, i) && v.m[b].chunk in v.free && b !in v.free[v.m[b].chunk]
  }

  ghost predicate FreeOrHeld(v: View, c: Addr, b: Addr)
    requires Shape(v) && c in v.owned
  {
    c in v.free && v.owned[c] < CLASSES && (b in v.free[c] || b in v.held[v.owned[c]])
  }

  ghost predicate HeldOk(v: View)
    requires Shape(v)
  {
    && (forall i, b :: 0 <= i < CLASSES && b in v.held[i] ==> HeldBlock(v, i, b))
    && (forall c, b :: c in v.owned && b in Blocks(c, v.owned[c]) ==> FreeOrHeld(v, c, b))
  }

  ghost function ClassSet(owned: map<Addr, nat>, i: nat): set<Addr> { set c | c in owned && owned[c] == i }

  ghost function OfClass(v: View, i: nat): set<Addr> { ClassSet(v.owned, i) }

  lemma GrowClass(owned: map<Addr, nat>, s: seq<Addr>, i: nat, more: map<Addr, nat>)
    requires Distinct(s) && (forall c :: c in s ==> c !in owned)
    requires more == owned + (map c | c in s :: i)
    ensures |more.Keys| == |owned.Keys| + |s|
    ensures |ClassSet(more, i)| == |ClassSet(owned, i)| + |s|
    ensures forall j :: j != i ==> ClassSet(more, j) == ClassSet(owned, j)
  {
    hide Distinct;
    hide ClassSet;
    hide Elements;
    DistinctCount(s);
    GrowClassSets(owned, s, i, more);
  }

  lemma GrowClassSets(owned: map<Addr, nat>, s: seq<Addr>, i: nat, more: map<Addr, nat>)
    requires (forall c :: c in s ==> c !in owned) && more == owned + (map c | c in s :: i)
    ensures owned.Keys !! Elements(s) && more.Keys == owned.Keys + Elements(s)
    ensures ClassSet(owned, i) !! Elements(s) && ClassSet(more, i) == ClassSet(owned, i) + Elements(s)
    ensures forall j :: j != i ==> ClassSet(more, j) == ClassSet(owned, j)
  {
  }

  lemma ShrinkClass(owned: map<Addr, nat>, s: seq<Addr>, i: nat, less: map<Addr, nat>)
    requires Distinct(s) && Elements(s) <= ClassSet(owned, i) && less == owned - Elements(s)
    ensures |owned.Keys| == |less.Keys| + |s|
    ensures |ClassSet(owned, i)| == |ClassSet(less, i)| + |s|
    ensures forall j :: j != i ==> ClassSet(less, j) == ClassSet(owned, j)
  {
    hide Distinct;
    hide ClassSet;
    hide Elements;
    DistinctCount(s);
    ShrinkClassSets(owned, Elements(s), i, less);
  }

  lemma ShrinkClassSets(owned: map<Addr, nat>, e: set<Addr>, i: nat, less: map<Addr, nat>)
    requires e <= ClassSet(owned, i) && less == owned - e
    ensures less.Keys !! e && owned.Keys == less.Keys + e
    ensures ClassSet(less, i) !! e && ClassSet(owned, i) == ClassSet(less, i) + e
    ensures forall j :: j != i ==> ClassSet(less, j) == ClassSet(owned, j)
  {
  }

  function SumLen(s: seq<seq<Addr>>): nat {
    if s == [] then 0 else |s[0]| + SumLen(s[1..])
  }

  ghost predicate ClassSize(v: View, i: nat)
    requires Shape(v) && i < CLASSES
  {
    && v.caches[i].totalSize == CHUNK_SIZE * |OfClass(v, i)|
    && v.caches[i].recyclableSize == CHUNK_SIZE * |v.recyc[i]|
    && v.caches[i].inUseSize == BlockSize(i) * |v.held[i]|
  }

  lemma ClassSizeFrame(v: View, w: View, j: nat)
    requires Shape(v) && Shape(w) && j < CLASSES && ClassSize(v, j)
    requires w.owned == v.owned && w.caches[j] == v.caches[j] && w.held[j] == v.held[j] && w.recyc[j] == v.recyc[j]
    ensures ClassSize(w, j)
  {
    assert OfClass(w, j) == OfClass(v, j);
  }

  // Every size and count field is what the lists imply.
  ghost predicate SizesOk(v: View)
    requires Shape(v)
  {
    && v.total == |v.owned.Keys| && v.recyclable == SumLen(v.recyc)
    && forall i :: 0 <= i < CLASSES ==> ClassSize(v, i)
  }

  ghost predicate InvHot(v: View, o: object, hot: Addr) {
    && Shape(v) && ChunksOk(v, o) && ListsOk(v) && PlacesOk(v, hot) && HeldOk(v) && SizesOk(v)
    && (hot != 0 ==> hot in v.h && v.h[hot].avail == v.h[hot].total)
  }

  ghost predicate Inv(v: View, o: object) { InvHot(v, o, 0) }

  // ----- GetBlock: the first recyclable chunk becomes the only available one -----

  function Promote(v: View, i: nat): View
    requires Shape(v) && i < CLASSES && v.recyc[i] != [] && v.recyc[i][0] in v.h
  {
    var c := v.recyc[i][0];
    var n := v.h[c].next;
    var bc := v.caches[i];
    v.(h := SetNext(SetPrev(v.h, n, 0), c, 0),
       caches := v.caches[i := bc.(available := c, recyclable := n,
                   recyclableSize := if bc.recyclableSize >= CHUNK_SIZE then bc.recyclableSize - CHUNK_SIZE else 0)],
       recyclable := if v.recyclable > 0 then v.recyclable - 1 else 0,
       avail := v.avail[i := [c]], recyc := v.recyc[i := v.recyc[i][1..]])
  }

  // ----- list lengths -----

  lemma {:induction false} SumLenUpdate(s: seq<seq<Addr>>, i: nat, t: seq<Addr>)
    requires i < |s|
    ensures SumLen(s[i := t]) == SumLen(s) - |s[i]| + |t|
    ensures SumLen(s) >= |s[i]|
  {
    if i > 0 {
      SumLenUpdate(s[1..], i - 1, t);
      assert s[i := t][1..] == s[1..][i - 1 := t];
    }
  }

  // ----- frames -----

  lemma ChainInMap(h: Chunks, s: seq<Addr>, first: Addr)
    requires Chain(h, s, first)
    ensures forall c :: c in s ==> c in h
  {
    forall c | c in s ensures c in h {
      var k :| 0 <= k < |s| && s[k] == c;
      assert Linked(h, s, k);
    }
  }

  // Only links and lists of class i changed, and only on chunks of that class.
  ghost predicate OnlyClass(v: View, w: View, i: nat)
    requires Shape(v) && Shape(w)
  {
    && v.owned == w.owned
    && (forall c :: c in v.h <==> c in w.h)
    && (forall c :: c in v.h && !Owns(v, i, c) ==> w.h[c] == v.h[c])
    && (forall j :: 0 <= j < CLASSES && j != i ==>
         w.avail[j] == v.avail[j] && w.recyc[j] == v.recyc[j] && w.caches[j] == v.caches[j] && w.held[j] == v.held[j])
  }

  lemma OtherLists(v: View, w: View, hot: Addr, i: nat, j: nat)
    requires Shape(v) && Shape(w) && i < CLASSES && j < CLASSES && i != j
    requires ListOk(v, j) && PlacesOk(v, hot) && OnlyClass(v, w, i)
    ensures ListOk(w, j)
  {
    forall c | c in v.avail[j] || c in v.recyc[j] ensures c in v.h && c in w.h && w.h[c] == v.h[c] {
      assert Placed(v, hot, j, c);
    }
    ChainFrame(v.h, w.h, v.avail[j], v.caches[j].available);
    ChainFrame(v.h, w.h, v.recyc[j], v.caches[j].recyclable);
  }

  lemma OtherPlaces(v: View, w: View, hot: Addr, hot': Addr, i: nat, j: nat, c: Addr)
    requires Shape(v) && Shape(w) && i < CLASSES && j < CLASSES && i != j
    requires Placed(v, hot, j, c) && OnlyClass(v, w, i)
    requires hot != 0 ==> Owns(v, i, hot)
    requires hot' != 0 ==> Owns(v, i, hot')
    requires 0 !in v.owned
    ensures Placed(w, hot', j, c)
  {
  }

  lemma NoNull(v: View, o: object)
    requires ChunksOk(v, o)
    ensures 0 !in v.owned
  {
    forall c | c in v.owned ensures c != 0 { assert ChunkOk(v, o, c); }
  }

  // The lists of class i being right, those of all classes are.
  lemma ListsFromClass(v: View, o: object, w: View, hot: Addr, hot': Addr, i: nat)
    requires InvHot(v, o, hot) && Shape(w) && i < CLASSES && OnlyClass(v, w, i)
    requires hot != 0 ==> Owns(v, i, hot)
    requires hot' != 0 ==> Owns(v, i, hot')
    requires ListOk(w, i)
    requires forall c :: Placed(w, hot', i, c)
    ensures ListsOk(w) && PlacesOk(w, hot')
  {
    NoNull(v, o);
    hide Placed;
    hide OnlyClass;
    hide ListOk;
    hide Owns;
    hide ChunksOk;
    hide HeldOk;
    hide SizesOk;
    forall j | 0 <= j < CLASSES ensures ListOk(w, j) { if j != i { OtherLists(v, w, hot, i, j); } }
    forall j, c | 0 <= j < CLASSES ensures Placed(w, hot', j, c) {
      assert Placed(v, hot, j, c);
      if j != i { OtherPlaces(v, w, hot, hot', i, j, c); }
    }
  }

  // Links do not matter to the chunks' own state.
  lemma LinksKeepChunks(v: View, o: object, w: View, touched: set<Addr>)
    requires Shape(v) && ChunksOk(v, o) && HeldOk(v) && LinksOnly(v.h, w.h, touched)
    requires w == v.(h := w.h, caches := w.caches, recyclable := w.recyclable, avail := w.avail, recyc := w.recyc)
    requires Shape(w)
    ensures ChunksOk(w, o) && HeldOk(w)
  {
    forall c | c in v.owned ensures ChunkOk(w, o, c) { assert ChunkOk(v, o, c); }
    hide Blocks;
    forall i, b | 0 <= i < CLASSES && b in w.held[i] ensures HeldBlock(w, i, b) { assert HeldBlock(v, i, b); }
    forall c, b | c in w.owned && b in Blocks(c, w.owned[c]) ensures FreeOrHeld(w, c, b) {
      assert FreeOrHeld(v, c, b);
    }
  }

  // The first chunk of a list, on its own.
  lemma FirstCut(h: Chunks, s: seq<Addr>, c: Addr)
    requires Chain(h, s, c) && s != []
    ensures c == s[0] != 0 && c in h
    ensures var n := h[c].next; var g := SetNext(SetPrev(h, n, 0), c, 0);
      && Chain(g, [c], c) && Chain(g, s[1..], n) && LinksOnly(h, g, Elements(s))
    ensures forall x :: x in s[1..] <==> x in s && x != c
  {
    assert Linked(h, s, 0);
    CutChain(h, s, c, 1);
    assert s[..1] == [c];
    RestOf(s);
  }

  lemma RestOf(s: seq<Addr>)
    requires Distinct(s) && s != []
    ensures forall x :: x in s[1..] <==> x in s && x != s[0]
  {
    forall x ensures x in s[1..] <==> x in s && x != s[0] {
      assert Without(s, 0) == s[1..];
      InWithout(s, 0, x);
    }
  }

  lemma PromoteLists(v: View, o: object, i: nat, w: View)
    requires Inv(v, o) && i < CLASSES && v.recyc[i] != [] && v.avail[i] == [] && v.recyc[i][0] in v.h
    requires w == Promote(v, i)
    ensures Shape(w) && LinksOnly(v.h, w.h, Elements(v.recyc[i])) && OnlyClass(v, w, i)
    ensures ListOk(w, i)
    ensures forall x :: Placed(w, v.recyc[i][0], i, x)
  {
    hide ChunksOk;
    hide HeldOk;
    hide SizesOk;
    hide Chain;
    hide SetNext;
    hide SetPrev;
    var s := v.recyc[i];
    var c := s[0];
    assert ListOk(v, i);
    FirstCut(v.h, s, v.caches[i].recyclable);
    LinksOnlyElsewhere(v.h, w.h, Elements(s));
    hide LinksOnly;
    forall x | x in s ensures Owns(v, i, x) { assert Placed(v, 0, i, x); }
    forall x ensures Placed(w, c, i, x) { assert Placed(v, 0, i, x); }
  }

  lemma PromoteSizes(v: View, i: nat, w: View)
    requires Shape(v) && SizesOk(v) && i < CLASSES && v.recyc[i] != [] && v.recyc[i][0] in v.h
    requires w == Promote(v, i)
    ensures SizesOk(w)
  {
    hide BlockSize;
    assert ClassSize(v, i);
    forall j | 0 <= j < CLASSES && j != i ensures ClassSize(w, j) { ClassSizeFrame(v, w, j); }
    assert OfClass(w, i) == OfClass(v, i);
    SumLenUpdate(v.recyc, i, v.recyc[i][1..]);
    assert v.recyclable > 0 && v.caches[i].recyclableSize >= CHUNK_SIZE;
  }

  lemma PromoteKeeps(v: View, o: object, i: nat)
    requires Inv(v, o) && i < CLASSES && v.recyc[i] != [] && v.avail[i] == [] && v.recyc[i][0] in v.h
    ensures InvHot(Promote(v, i), o, v.recyc[i][0]) && OnlyClass(v, Promote(v, i), i)
  {
    var w, c := Promote(v, i), v.recyc[i][0];
    PromoteLists(v, o, i, w);
    assert Placed(v, 0, i, c);
    LinksKeepChunks(v, o, w, Elements(v.recyc[i]));
    ListsFromClass(v, o, w, 0, c, i);
    PromoteSizes(v, i, w);
  }

  // ----- GetBlock: the first free block of the first available chunk -----

  ghost predicate CanTake(v: View, i: nat) {
    && Shape(v) && i < CLASSES && v.avail[i] != []
    && var c := v.avail[i][0];
    && c in v.h && c in v.owned && c in v.free && v.free[c] != [] && v.h[c].head == v.free[c][0]
    && v.h[c].head in v.m && v.h[c].avail > 0
  }

  ghost function Took(v: View, i: nat): View
    requires CanTake(v, i)
  {
    var c := v.avail[i][0];
    var b := v.h[c].head;
    var h := v.h[c := v.h[c].(head := v.m[b].next, avail := v.h[c].avail - 1)];
    var bc := v.caches[i].(inUseSize := v.caches[i].inUseSize + BlockSize(i));
    var w := v.(h := h, free := v.free[c := v.free[c][1..]], held := v.held[i := v.held[i] + {b}],
                caches := v.caches[i := bc]);
    if h[c].avail > 0 then w
    else w.(h := SetPrev(h, h[c].next, 0), caches := v.caches[i := bc.(available := h[c].next)],
            avail := v.avail[i := v.avail[i][1..]])
  }

  // What an operation needs to know of the class it works on.
  ghost predicate ClassOk(v: View, hot: Addr, i: nat) {
    && Shape(v) && i < CLASSES && ListOk(v, i)
    && (forall c :: Placed(v, hot, i, c))
    && !Owns(v, i, 0) && (hot != 0 ==> hot in v.h && v.h[hot].avail == v.h[hot].total)
  }

  // A chunk's counts change but not its links, and its lists stay.
  lemma CountsKeepLists(v: View, hot: Addr, i: nat, c: Addr, w: View)
    requires ClassOk(v, hot, i) && Owns(v, i, c) && Shape(w)
    requires c in w.h && w.h == v.h[c := w.h[c]] && w.h[c].prev == v.h[c].prev && w.h[c].next == v.h[c].next
    requires w.avail == v.avail && w.recyc == v.recyc && w.owned == v.owned && w.h[c].total == v.h[c].total
    requires w.caches[i].available == v.caches[i].available && w.caches[i].recyclable == v.caches[i].recyclable
    ensures ListOk(w, i)
    ensures forall x :: x != c ==> Placed(w, hot, i, x)
  {
    assert Placed(v, hot, i, c);
    ChainInMap(v.h, v.avail[i], v.caches[i].available);
    ChainInMap(v.h, v.recyc[i], v.caches[i].recyclable);
    ChainFrame(v.h, w.h, v.avail[i], v.caches[i].available);
    ChainFrame(v.h, w.h, v.recyc[i], v.caches[i].recyclable);
    forall x | x != c ensures Placed(w, hot, i, x) { assert Placed(v, hot, i, x); }
  }

  // Dropping the j-th chunk from `available`.
  lemma DropAvailable(v: View, hot: Addr, i: nat, j: nat, w: View)
    requires Shape(v) && i < CLASSES && ListOk(v, i) && j < |v.avail[i]| && Shape(w)
    requires forall x :: x in v.avail[i] ==> x !in v.recyc[i]
    requires var c := v.avail[i][j]; c in v.h && w.h == Unlinked(v.h, v.h[c].prev, v.h[c].next)
    requires w.avail[i] == Without(v.avail[i], j) && w.recyc[i] == v.recyc[i]
    requires var c := v.avail[i][j];
      w.caches[i].available == if v.h[c].prev == 0 then v.h[c].next else v.caches[i].available
    requires w.caches[i].recyclable == v.caches[i].recyclable
    ensures ListOk(w, i)
    ensures LinksOnly(v.h, w.h, Elements(v.avail[i]) - {v.avail[i][j]})
    ensures forall x :: x in w.avail[i] <==> x in v.avail[i] && x != v.avail[i][j]
  {
    var s := v.avail[i];
    UnlinkChain(v.h, s, v.caches[i].available, j);
    ChainInMap(v.h, v.recyc[i], v.caches[i].recyclable);
    ChainFrame(v.h, w.h, v.recyc[i], v.caches[i].recyclable);
    forall x ensures x in w.avail[i] <==> x in s && x != s[j] { InWithout(s, j, x); }
  }

  lemma TookLists(v: View, hot: Addr, i: nat, w: View)
    requires ClassOk(v, hot, i) && CanTake(v, i) && w == Took(v, i)
    requires hot != 0 ==> v.avail[i] == [hot]
    requires v.h[v.avail[i][0]].total >= 3
    ensures Shape(w) && ListOk(w, i)
    ensures forall x :: Placed(w, 0, i, x)
  {
    var c := v.avail[i][0];
    assert Placed(v, hot, i, c) && Linked(v.h, v.avail[i], 0);
    var h := v.h[c := v.h[c].(head := v.m[v.h[c].head].next, avail := v.h[c].avail - 1)];
    var u := v.(h := h);
    CountsKeepLists(v, hot, i, c, u);
    if h[c].avail > 0 {
      CountsKeepLists(v, hot, i, c, w);
      forall x ensures Placed(w, 0, i, x) { if x != c { assert Placed(v, hot, i, x); } }
    } else {
      assert Without(v.avail[i], 0) == v.avail[i][1..];
      forall x | x in v.avail[i] ensures x !in v.recyc[i] { assert Placed(v, hot, i, x); }
      DropAvailable(u, hot, i, 0, w);
      forall x ensures Placed(w, 0, i, x) { assert Placed(v, hot, i, x); }
    }
  }

  lemma TookOnlyClass(v: View, hot: Addr, i: nat, w: View)
    requires ClassOk(v, hot, i) && CanTake(v, i) && w == Took(v, i)
    ensures OnlyClass(v, w, i)
  {
    var s := v.avail[i];
    var c := s[0];
    assert Placed(v, hot, i, c) && Linked(v.h, s, 0);
    if |s| > 1 { assert s[1] in s && Placed(v, hot, i, s[1]); }
  }

  ghost predicate SameCounts(v: View, w: View, x: Addr)
    requires x in v.h
  {
    x in w.h && SameBut(w.h[x], v.h[x])
  }

  lemma ChunkFrame(v: View, o: object, w: View, x: Addr)
    requires ChunkOk(v, o, x) && SameCounts(v, w, x)
    requires w.owned == v.owned && w.m == v.m && x in w.free && w.free[x] == v.free[x]
    ensures ChunkOk(w, o, x)
  {
  }

  lemma TookChunk(v: View, o: object, i: nat, w: View)
    requires CanTake(v, i) && ChunkOk(v, o, v.avail[i][0]) && w == Took(v, i) && Owns(v, i, v.avail[i][0])
    requires v.h[v.avail[i][0]].next != v.avail[i][0]
    ensures ChunkOk(w, o, v.avail[i][0])
    ensures var c := v.avail[i][0]; var b := v.h[c].head;
      && b in Blocks(c, i) && v.m[b].chunk == c && b !in w.free[c]
      && forall x :: x in v.free[c] <==> x in w.free[c] || x == b
  {
    var c := v.avail[i][0];
    hide Blocks;
    hide BlocksPer;
    PopFree(v.m, v.free[c], v.h[c].head);
    assert v.h[c].head in v.free[c];
    assert forall x :: x in v.free[c][1..] ==> x in v.free[c];
  }

  lemma TookFirst(v: View, hot: Addr, i: nat)
    requires ClassOk(v, hot, i) && CanTake(v, i)
    ensures var c := v.avail[i][0]; Owns(v, i, c) && v.h[c].next != c
  {
    var s := v.avail[i];
    assert Placed(v, hot, i, s[0]) && Linked(v.h, s, 0);
    if |s| > 1 { Differ(s, 0, 1); }
  }

  lemma TookOther(v: View, o: object, i: nat, w: View, x: Addr)
    requires CanTake(v, i) && w == Took(v, i) && x != v.avail[i][0] && ChunkOk(v, o, x)
    ensures ChunkOk(w, o, x)
  {
    hide Carved;
    hide CanTake;
    ChunkFrame(v, o, w, x);
  }

  lemma TookChunks(v: View, o: object, hot: Addr, i: nat, w: View)
    requires ChunksOk(v, o) && ClassOk(v, hot, i) && CanTake(v, i) && w == Took(v, i)
    ensures ChunksOk(w, o)
    ensures var c := v.avail[i][0]; var b := v.h[c].head;
      && b in Blocks(c, i) && v.m[b].chunk == c && b !in w.free[c]
      && forall x :: x in v.free[c] <==> x in w.free[c] || x == b
  {
    hide Blocks;
    hide ChunkOk;
    hide ClassOk;
    TookFirst(v, hot, i);
    var c := v.avail[i][0];
    assert ChunkOk(v, o, c);
    TookChunk(v, o, i, w);
    forall x | x in v.owned ensures ChunkOk(w, o, x) {
      if x != c { assert ChunkOk(v, o, x); TookOther(v, o, i, w, x); }
    }
  }

  // The block that has just been taken.
  lemma TookHeld(v: View, i: nat, w: View)
    requires Shape(v) && HeldOk(v) && CanTake(v, i) && w == Took(v, i) && Shape(w)
    requires Owns(v, i, v.avail[i][0])
    requires var c := v.avail[i][0]; var b := v.h[c].head;
      && b in Blocks(c, i) && v.m[b].chunk == c && b !in w.free[c]
      && forall x :: x in v.free[c] <==> x in w.free[c] || x == b
    ensures HeldOk(w)
  {
    hide Blocks;
    var c := v.avail[i][0];
    forall j, b | 0 <= j < CLASSES && b in w.held[j] ensures HeldBlock(w, j, b) {
      if b in v.held[j] { assert HeldBlock(v, j, b); }
    }
    forall x, b | x in w.owned && b in Blocks(x, w.owned[x]) ensures FreeOrHeld(w, x, b) {
      assert FreeOrHeld(v, x, b);
    }
  }

  lemma TookSizes(v: View, i: nat, w: View)
    requires Shape(v) && SizesOk(v) && CanTake(v, i) && w == Took(v, i) && Shape(w)
    requires v.h[v.avail[i][0]].head !in v.held[i]
    ensures SizesOk(w)
  {
    hide BlockSize;
    assert ClassSize(v, i);
    forall j | 0 <= j < CLASSES && j != i ensures ClassSize(w, j) { ClassSizeFrame(v, w, j); }
    assert OfClass(w, i) == OfClass(v, i);
    var n := |v.held[i]|;
    assert |w.held[i]| == n + 1;
    assert BlockSize(i) * (n + 1) == BlockSize(i) * n + BlockSize(i);
  }

  lemma TookKeeps(v: View, o: object, hot: Addr, i: nat)
    requires InvHot(v, o, hot) && CanTake(v, i)
    requires hot != 0 ==> v.avail[i] == [hot]
    ensures Inv(Took(v, i), o) && OnlyClass(v, Took(v, i), i)
    ensures v.h[v.avail[i][0]].head !in v.held[i]
  {
    var w := Took(v, i);
    var c := v.avail[i][0];
    var b := v.h[c].head;
    assert ListOk(v, i) && Placed(v, hot, i, c) && ChunkOk(v, o, c);
    NoNull(v, o);
    ClassSizes(i);
    assert ClassOk(v, hot, i);
    hide Blocks;
    hide BlocksPer;
    hide Placed;
    hide ListOk;
    hide FreeOrHeld;
    hide ClassSize;
    hide Carved;
    TookLists(v, hot, i, w);
    TookOnlyClass(v, hot, i, w);
    ListsFromClass(v, o, w, hot, 0, i);
    TookChunks(v, o, hot, i, w);
    TookHeld(v, i, w);
    assert b in v.held[i] ==> HeldBlock(v, i, b);
    TookSizes(v, i, w);
  }

  // ----- PutBlock -----

  ghost predicate CanGive(v: View, i: nat, c: Addr, b: Addr) {
    && Shape(v) && i < CLASSES && Owns(v, i, c) && c in v.free && b in v.m && v.m[b].chunk == c
    && b in v.held[i] && b in Blocks(c, i)
  }

  // The block goes to the front of its chunk's free list.
  ghost function Freed(v: View, i: nat, c: Addr, b: Addr): View
    requires CanGive(v, i, c, b)
  {
    var used := v.caches[i].inUseSize;
    v.(h := v.h[c := v.h[c].(head := b, avail := v.h[c].avail + 1)],
       m := v.m[b := v.m[b].(next := v.h[c].head)],
       free := v.free[c := [b] + v.free[c]], held := v.held[i := v.held[i] - {b}],
       caches := v.caches[i := v.caches[i].(inUseSize := if used >= BlockSize(i) then used - BlockSize(i) else 0)])
  }

  // A chunk that was full comes back into `available`.
  ghost function Listed(v: View, i: nat, c: Addr): View
    requires Shape(v) && i < CLASSES
  {
    v.(h := Pushed(v.h, c, v.caches[i].available), avail := v.avail[i := [c] + v.avail[i]],
       caches := v.caches[i := v.caches[i].(available := c)])
  }

  ghost function IndexOf(s: seq<Addr>, c: Addr): (j: nat)
    requires c in s
    ensures j < |s| && s[j] == c
  {
    if s[0] == c then 0 else 1 + IndexOf(s[1..], c)
  }

  // A chunk whose blocks are all free moves from `available` to `recyclable`.
  ghost function Moved(v: View, i: nat, c: Addr): View
    requires Shape(v) && i < CLASSES && c in v.h && c in v.avail[i]
  {
    var p, n := v.h[c].prev, v.h[c].next;
    var bc := v.caches[i];
    v.(h := Pushed(Unlinked(v.h, p, n), c, bc.recyclable),
       avail := v.avail[i := Without(v.avail[i], IndexOf(v.avail[i], c))],
       recyc := v.recyc[i := [c] + v.recyc[i]], recyclable := v.recyclable + 1,
       caches := v.caches[i := bc.(available := if p == 0 then n else bc.available, recyclable := c,
                                   recyclableSize := bc.recyclableSize + CHUNK_SIZE)])
  }

  ghost predicate CanPut(v: View, i: nat, c: Addr, b: Addr) {
    CanGive(v, i, c, b) && (0 < v.h[c].avail ==> c in v.avail[i]) && c != 0
  }

  ghost function Put(v: View, i: nat, c: Addr, b: Addr): View
    requires CanPut(v, i, c, b)
  {
    var u := Freed(v, i, c, b);
    var w := if u.h[c].avail == 1 then Listed(u, i, c) else u;
    if w.h[c].avail == w.h[c].total then Moved(w, i, c) else w
  }

  // Everything but the placement of c.
  ghost predicate AllButOne(v: View, i: nat, c: Addr) {
    && Shape(v) && i < CLASSES && ListOk(v, i) && Owns(v, i, c) && c != 0 && !Owns(v, i, 0)
    && forall x :: x != c ==> Placed(v, 0, i, x)
  }

  ghost function Around(v: View, i: nat, c: Addr): set<Addr>
    requires Shape(v) && i < CLASSES
  {
    {c} + Elements(v.avail[i]) + Elements(v.recyc[i])
  }

  lemma ListedOk(v: View, i: nat, c: Addr)
    requires AllButOne(v, i, c) && c !in v.avail[i] && c !in v.recyc[i] && 0 < v.h[c].avail < v.h[c].total
    ensures ListOk(Listed(v, i, c), i) && LinksOnly(v.h, Listed(v, i, c).h, Around(v, i, c))
    ensures forall x :: Placed(Listed(v, i, c), 0, i, x)
  {
    hide Pushed;
    hide Chain;
    var w := Listed(v, i, c);
    forall x | x in v.recyc[i] ensures x !in v.avail[i] && x != c { assert Placed(v, 0, i, x); }
    PushedOnto(v.h, v.avail[i], v.caches[i].available, v.recyc[i], v.caches[i].recyclable, c);
    forall x ensures Placed(w, 0, i, x) { if x != c { assert Placed(v, 0, i, x); } }
  }

  lemma MovedChains(v: View, i: nat, c: Addr)
    requires Shape(v) && i < CLASSES && ListOk(v, i) && c != 0 && c in v.h && c in v.avail[i]
    requires forall x :: x in v.avail[i] ==> x !in v.recyc[i]
    ensures ListOk(Moved(v, i, c), i) && LinksOnly(v.h, Moved(v, i, c).h, Around(v, i, c))
    ensures forall x :: x in Moved(v, i, c).avail[i] <==> x in v.avail[i] && x != c
  {
    hide Pushed;
    hide Unlinked;
    hide Without;
    hide Chain;
    var s, w := v.avail[i], Moved(v, i, c);
    var j := IndexOf(s, c);
    var bc := v.caches[i];
    var p, n := v.h[c].prev, v.h[c].next;
    var u := v.(h := Unlinked(v.h, p, n), avail := v.avail[i := Without(s, j)],
                caches := v.caches[i := bc.(available := if p == 0 then n else bc.available)]);
    DropAvailable(v, 0, i, j, u);
    PushedOnto(u.h, u.recyc[i], bc.recyclable, u.avail[i], u.caches[i].available, c);
    LinksTwice(v.h, u.h, w.h, Elements(s) - {c}, {c} + Elements(v.recyc[i]), Around(v, i, c));
  }

  lemma LinksTwice(h: Chunks, g: Chunks, k: Chunks, a: set<Addr>, b: set<Addr>, all: set<Addr>)
    requires LinksOnly(h, g, a) && LinksOnly(g, k, b) && a + b <= all
    ensures LinksOnly(h, k, all)
  {
  }

  // A chunk in neither list goes to the front of one of them.
  lemma PushedOnto(h: Chunks, s: seq<Addr>, first: Addr, other: seq<Addr>, start: Addr, c: Addr)
    requires Chain(h, s, first) && Chain(h, other, start) && c != 0 && c in h && c !in s && c !in other
    requires forall x :: x in other ==> x !in s
    ensures Chain(Pushed(h, c, first), [c] + s, c) && Chain(Pushed(h, c, first), other, start)
    ensures LinksOnly(h, Pushed(h, c, first), {c} + Elements(s))
  {
    hide Linked;
    hide Distinct;
    PushChain(h, s, first, c);
    ChainInMap(h, other, start);
    ChainFrame(h, Pushed(h, c, first), other, start);
  }

  lemma MovedOk(v: View, i: nat, c: Addr)
    requires AllButOne(v, i, c) && c in v.avail[i] && c !in v.recyc[i] && v.h[c].avail == v.h[c].total
    ensures ListOk(Moved(v, i, c), i) && LinksOnly(v.h, Moved(v, i, c).h, Around(v, i, c))
    ensures forall x :: Placed(Moved(v, i, c), 0, i, x)
  {
    var w := Moved(v, i, c);
    forall x | x in v.avail[i] ensures x !in v.recyc[i] { if x != c { assert Placed(v, 0, i, x); } }
    MovedChains(v, i, c);
    LinksOnlyElsewhere(v.h, w.h, Around(v, i, c));
    hide Chain;
    hide LinksOnly;
    hide Pushed;
    hide Unlinked;
    hide Without;
    hide Around;
    forall x ensures Placed(w, 0, i, x) { if x != c { assert Placed(v, 0, i, x); } }
  }

  lemma PutLists(v: View, i: nat, c: Addr, b: Addr, w: View)
    requires ClassOk(v, 0, i) && CanPut(v, i, c, b) && w == Put(v, i, c, b)
    requires v.h[c].avail < v.h[c].total && v.h[c].total >= 3
    ensures Shape(w) && ListOk(w, i)
    ensures forall x :: Placed(w, 0, i, x)
    ensures LinksOnly(Freed(v, i, c, b).h, w.h, Around(v, i, c))
  {
    var u := Freed(v, i, c, b);
    assert Placed(v, 0, i, c);
    CountsKeepLists(v, 0, i, c, u);
    if u.h[c].avail == 1 {
      ListedOk(u, i, c);
    } else if u.h[c].avail == u.h[c].total {
      MovedOk(u, i, c);
    } else {
      forall x ensures Placed(u, 0, i, x) { if x != c { assert Placed(v, 0, i, x); } }
    }
  }

  // What `Put` leaves alone, and what it does to the rest but the lists.
  lemma PutOthers(v: View, i: nat, c: Addr, b: Addr, w: View)
    requires CanPut(v, i, c, b) && w == Put(v, i, c, b) && v.h[c].total >= 3
    ensures Shape(w)
    ensures forall j :: 0 <= j < CLASSES && j != i ==>
      w.avail[j] == v.avail[j] && w.recyc[j] == v.recyc[j] && w.caches[j] == v.caches[j] && w.held[j] == v.held[j]
    ensures w == Freed(v, i, c, b).(h := w.h, caches := w.caches, recyclable := w.recyclable,
                                    avail := w.avail, recyc := w.recyc)
  {
    hide Pushed;
    hide Unlinked;
    hide Without;
    hide Owns;
    hide BlockSize;
    hide Blocks;
  }

  lemma PutOnlyClass(v: View, i: nat, c: Addr, b: Addr, w: View)
    requires ClassOk(v, 0, i) && CanPut(v, i, c, b) && w == Put(v, i, c, b) && v.h[c].total >= 3
    requires Shape(w) && LinksOnly(Freed(v, i, c, b).h, w.h, Around(v, i, c))
    ensures OnlyClass(v, w, i)
  {
    PutOthers(v, i, c, b, w);
    forall x | x in Around(v, i, c) ensures Owns(v, i, x) { assert Placed(v, 0, i, x); }
    LinksOnlyElsewhere(Freed(v, i, c, b).h, w.h, Around(v, i, c));
    hide LinksOnly;
    hide ClassOk;
    hide Put;
    hide Around;
    hide Blocks;
    hide BlockSize;
  }

  lemma LinksOnlyElsewhere(h: Chunks, g: Chunks, touched: set<Addr>)
    requires LinksOnly(h, g, touched)
    ensures forall c :: c in h <==> c in g
    ensures forall c :: c in h && c !in touched ==> g[c] == h[c]
    ensures forall c :: c in h ==> SameBut(g[c], h[c])
  {
    forall c ensures c in h <==> c in g { assert c in h.Keys <==> c in g.Keys; }
  }

  lemma FreedChunk(v: View, o: object, i: nat, c: Addr, b: Addr, w: View)
    requires CanGive(v, i, c, b) && ChunkOk(v, o, c) && b !in v.free[c] && w == Freed(v, i, c, b)
    ensures ChunkOk(w, o, c)
  {
    BlocksInside(c, i, b);
    hide Blocks;
    hide BlocksPer;
    PushFree(v.m, v.free[c], v.h[c].head, b);
  }

  lemma FreedOther(v: View, o: object, i: nat, c: Addr, b: Addr, w: View, x: Addr)
    requires CanGive(v, i, c, b) && ChunkOk(v, o, x) && Apart(c, x) && w == Freed(v, i, c, b) && x != c
    ensures ChunkOk(w, o, x)
  {
    BlocksDisjoint(c, i, x, v.owned[x]);
    hide Blocks;
    hide BlocksPer;
    FreeListFrame(v.m, w.m, v.free[x], v.h[x].head);
  }

  lemma FreedChunks(v: View, o: object, i: nat, c: Addr, b: Addr, w: View)
    requires CanGive(v, i, c, b) && ChunksOk(v, o) && b !in v.free[c] && w == Freed(v, i, c, b)
    ensures ChunksOk(w, o)
  {
    hide ChunkOk;
    hide Blocks;
    forall x | x in v.owned ensures ChunkOk(w, o, x) {
      assert ChunkOk(v, o, x);
      if x == c { FreedChunk(v, o, i, c, b, w); } else { FreedOther(v, o, i, c, b, w, x); }
    }
  }

  lemma FreedHeld(v: View, o: object, i: nat, c: Addr, b: Addr, w: View)
    requires CanGive(v, i, c, b) && ChunksOk(v, o) && HeldOk(v) && w == Freed(v, i, c, b)
    ensures HeldOk(w)
  {
    hide Blocks;
    forall j, x | 0 <= j < CLASSES && x in w.held[j] ensures HeldBlock(w, j, x) {
      assert HeldBlock(v, j, x) && HeldBlock(v, i, b);
    }
    forall y, x | y in w.owned && x in Blocks(y, w.owned[y]) ensures FreeOrHeld(w, y, x) {
      assert FreeOrHeld(v, y, x) && ChunkOk(v, o, y);
    }
  }

  lemma PutCounts(v: View, i: nat, c: Addr, b: Addr, w: View)
    requires CanPut(v, i, c, b) && w == Put(v, i, c, b) && Shape(w) && v.h[c].total >= 3
    ensures w.caches[i].totalSize == v.caches[i].totalSize && w.held[i] == v.held[i] - {b}
    ensures w.caches[i].inUseSize == Freed(v, i, c, b).caches[i].inUseSize
    ensures
      || (w.recyc == v.recyc && w.recyclable == v.recyclable
          && w.caches[i].recyclableSize == v.caches[i].recyclableSize)
      || (w.recyc == v.recyc[i := [c] + v.recyc[i]] && w.recyclable == v.recyclable + 1
          && w.caches[i].recyclableSize == v.caches[i].recyclableSize + CHUNK_SIZE)
  {
    hide Pushed;
    hide Unlinked;
    hide Without;
    hide BlockSize;
  }

  lemma Decrement(x: nat, n: nat)
    requires n > 0
    ensures x * n == x * (n - 1) + x && x * (n - 1) >= 0
  {
  }

  lemma FreedUse(v: View, i: nat, c: Addr, b: Addr)
    requires CanGive(v, i, c, b) && ClassSize(v, i)
    ensures Freed(v, i, c, b).caches[i].inUseSize == BlockSize(i) * |v.held[i] - {b}|
  {
    hide BlockSize;
    hide Blocks;
    hide Owns;
    hide OfClass;
    OneApart(v.held[i], v.held[i] - {b}, b);
    Decrement(BlockSize(i), |v.held[i]|);
  }

  lemma PutClassSize(v: View, i: nat, c: Addr, b: Addr, w: View)
    requires CanPut(v, i, c, b) && ClassSize(v, i) && w == Put(v, i, c, b) && Shape(w) && v.h[c].total >= 3
    ensures ClassSize(w, i)
  {
    hide Put;
    hide Freed;
    hide BlockSize;
    hide Blocks;
    hide Owns;
    PutOthers(v, i, c, b, w);
    PutCounts(v, i, c, b, w);
    FreedUse(v, i, c, b);
    FreedOwned(v, i, c, b);
  }

  lemma FreedOwned(v: View, i: nat, c: Addr, b: Addr)
    requires CanGive(v, i, c, b)
    ensures Freed(v, i, c, b).owned == v.owned && Freed(v, i, c, b).total == v.total
  {
    hide BlockSize;
    hide Blocks;
  }

  lemma PutSizes(v: View, i: nat, c: Addr, b: Addr, w: View)
    requires CanPut(v, i, c, b) && SizesOk(v) && w == Put(v, i, c, b) && Shape(w)
    requires v.h[c].total >= 3
    ensures SizesOk(w)
  {
    hide Put;
    hide Freed;
    hide Blocks;
    hide Owns;
    hide ClassSize;
    hide SumLen;
    PutOthers(v, i, c, b, w);
    PutCounts(v, i, c, b, w);
    FreedOwned(v, i, c, b);
    assert ClassSize(v, i);
    PutClassSize(v, i, c, b, w);
    forall j | 0 <= j < CLASSES && j != i ensures ClassSize(w, j) { ClassSizeFrame(v, w, j); }
    SumLenUpdate(v.recyc, i, [c] + v.recyc[i]);
  }

  lemma PutKeeps(v: View, o: object, i: nat, c: Addr, b: Addr)
    requires Inv(v, o) && CanGive(v, i, c, b)
    ensures CanPut(v, i, c, b) && Inv(Put(v, i, c, b), o) && OnlyClass(v, Put(v, i, c, b), i)
  {
    assert ListOk(v, i) && Placed(v, 0, i, c) && ChunkOk(v, o, c) && HeldBlock(v, i, b);
    NoNull(v, o);
    ClassSizes(i);
    AllFree(v.h[c], v.m, c, i, o, v.free[c]);
    assert ClassOk(v, 0, i);
    hide Carved;
    hide Blocks;
    hide BlocksPer;
    hide ListOk;
    hide Placed;
    hide Freed;
    hide Put;
    hide HeldBlock;
    hide FreeOrHeld;
    hide OfClass;
    var u, w := Freed(v, i, c, b), Put(v, i, c, b);
    PutLists(v, i, c, b, w);
    PutOthers(v, i, c, b, w);
    PutOnlyClass(v, i, c, b, w);
    ListsFromClass(v, o, w, 0, 0, i);
    FreedChunks(v, o, i, c, b, u);
    FreedHeld(v, o, i, c, b, u);
    LinksKeepChunks(u, o, w, Around(v, i, c));
    PutSizes(v, i, c, b, w);
  }

  // ----- GetBlock: chunks fetched from the pool and carved -----

  function BlockList(c: Addr, i: nat): (s: seq<Addr>)
    ensures |s| == BlocksPer(i)
  {
    seq(BlocksPer(i), k requires k >= 0 => BlockAt(c, i, k))
  }

  lemma InBlockList(c: Addr, i: nat, b: Addr)
    ensures b in BlockList(c, i) <==> b in Blocks(c, i)
  {
    if b in Blocks(c, i) {
      var k :| 0 <= k < BlocksPer(i) && b == BlockAt(c, i, k);
      assert BlockList(c, i)[k] == b;
    }
  }

  // The headers the two views share agree: those of the chunks v owns and of their blocks.
  ghost predicate Untouched(v: View, w: View) {
    && (forall c :: c in v.owned && c in v.h ==> c in w.h && w.h[c] == v.h[c])
    && (forall c, b :: c in v.owned && b in Blocks(c, v.owned[c]) && b in v.m ==> b in w.m && w.m[b] == v.m[b])
  }

  ghost predicate NewChunks(v: View, w: View, o: object, i: nat, s: seq<Addr>, first: Addr) {
    && Chain(w.h, s, first)
    && (forall c :: c in s ==>
         && c !in v.owned && c != 0 && c in w.h && Carved(w.h[c], w.m, c, i, o, BlockList(c, i))
         && (forall d :: (d in s && d != c) || d in v.owned ==> Apart(c, d)))
  }

  ghost predicate FetchedMaps(v: View, w: View, i: nat, s: seq<Addr>) {
    && w.owned == v.owned + (map c | c in s :: i)
    && w.free == v.free + (map c | c in s :: BlockList(c, i))
  }

  ghost predicate FetchedNumbers(v: View, w: View, i: nat, s: seq<Addr>, first: Addr)
    requires Shape(v) && i < CLASSES
  {
    && w.held == v.held && w.avail == v.avail && w.recyc == v.recyc[i := s]
    && w.total == v.total + |s| && w.recyclable == v.recyclable + |s|
    && var bc := v.caches[i];
    && w.caches == v.caches[i := bc.(recyclable := first, totalSize := bc.totalSize + |s| * CHUNK_SIZE,
                                     recyclableSize := bc.recyclableSize + |s| * CHUNK_SIZE)]
  }

  ghost predicate Fetched(v: View, w: View, o: object, i: nat, s: seq<Addr>, first: Addr) {
    && Shape(v) && i < CLASSES && v.avail[i] == [] && v.recyc[i] == []
    && Untouched(v, w) && NewChunks(v, w, o, i, s, first)
    && FetchedMaps(v, w, i, s) && FetchedNumbers(v, w, i, s, first)
  }

  lemma UntouchedChunk(v: View, o: object, w: View, c: Addr)
    requires ChunkOk(v, o, c) && Untouched(v, w) && c in w.owned && w.owned[c] == v.owned[c]
    requires c in w.free && w.free[c] == v.free[c]
    ensures ChunkOk(w, o, c)
  {
    hide BlocksPer;
    hide Blocks;
    FreeListFrame(v.m, w.m, v.free[c], v.h[c].head);
  }

  lemma FetchedChunks(v: View, o: object, w: View, i: nat, s: seq<Addr>, first: Addr)
    requires ChunksOk(v, o) && Fetched(v, w, o, i, s, first)
    ensures ChunksOk(w, o)
  {
    hide Carved;
    hide Blocks;
    hide Chain;
    forall c | c in w.owned ensures ChunkOk(w, o, c) {
      if c !in s { assert ChunkOk(v, o, c); UntouchedChunk(v, o, w, c); }
    }
  }

  lemma FetchedLists(v: View, o: object, w: View, i: nat, s: seq<Addr>, first: Addr)
    requires Inv(v, o) && Fetched(v, w, o, i, s, first)
    ensures Shape(w) && ListsOk(w)
  {
    hide Carved;
    hide Blocks;
    forall j | 0 <= j < CLASSES ensures ListOk(w, j) {
      assert ListOk(v, j);
      forall c | c in v.avail[j] || c in v.recyc[j] ensures c in v.h && c in w.h && w.h[c] == v.h[c] {
        assert Placed(v, 0, j, c);
      }
      ChainFrame(v.h, w.h, v.avail[j], v.caches[j].available);
      if j != i { ChainFrame(v.h, w.h, v.recyc[j], v.caches[j].recyclable); }
    }
  }

  lemma FetchedPlace(v: View, o: object, w: View, i: nat, s: seq<Addr>, first: Addr, j: nat, c: Addr)
    requires Shape(v) && Fetched(v, w, o, i, s, first) && Shape(w) && j < CLASSES
    requires Placed(v, 0, j, c) && 0 !in v.owned && BlocksPer(i) >= 3
    requires c in v.owned ==> c in v.h
    ensures Placed(w, 0, j, c)
  {
    hide Blocks;
    hide Chain;
    hide FreeList;
    hide BlocksPer;
    if c in s { assert Carved(w.h[c], w.m, c, i, o, BlockList(c, i)); }
    hide Carved;
  }

  lemma FetchedPlaces(v: View, o: object, w: View, i: nat, s: seq<Addr>, first: Addr)
    requires Inv(v, o) && Fetched(v, w, o, i, s, first) && Shape(w)
    ensures PlacesOk(w, 0)
  {
    ClassSizes(i);
    NoNull(v, o);
    hide Placed;
    hide Fetched;
    hide BlocksPer;
    hide ListsOk;
    hide HeldOk;
    hide SizesOk;
    forall j, c | 0 <= j < CLASSES ensures Placed(w, 0, j, c) {
      assert Placed(v, 0, j, c);
      assert c in v.owned ==> ChunkOk(v, o, c);
      FetchedPlace(v, o, w, i, s, first, j, c);
    }
  }

  lemma FetchedHeld(v: View, o: object, w: View, i: nat, s: seq<Addr>, first: Addr)
    requires ChunksOk(v, o) && Shape(v) && HeldOk(v) && Fetched(v, w, o, i, s, first) && Shape(w)
    ensures HeldOk(w)
  {
    hide Blocks;
    hide Chain;
    hide Carved;
    hide BlockList;
    forall j, b | 0 <= j < CLASSES && b in w.held[j] ensures HeldBlock(w, j, b) {
      assert HeldBlock(v, j, b);
      assert v.m[b].chunk !in s;
    }
    forall c, b | c in w.owned && b in Blocks(c, w.owned[c]) ensures FreeOrHeld(w, c, b) {
      if c in s { InBlockList(c, i, b); } else { assert FreeOrHeld(v, c, b); }
    }
  }

  lemma FetchedClassSize(v: View, w: View, j: nat, n: nat)
    requires Shape(v) && Shape(w) && j < CLASSES && ClassSize(v, j)
    requires |OfClass(w, j)| == |OfClass(v, j)| + n && w.held[j] == v.held[j] && |w.recyc[j]| == |v.recyc[j]| + n
    requires w.caches[j].totalSize == v.caches[j].totalSize + n * CHUNK_SIZE
    requires w.caches[j].recyclableSize == v.caches[j].recyclableSize + n * CHUNK_SIZE
    requires w.caches[j].inUseSize == v.caches[j].inUseSize
    ensures ClassSize(w, j)
  {
    hide BlockSize;
  }

  lemma FetchedCounts(v: View, w: View, o: object, i: nat, s: seq<Addr>, first: Addr)
    requires NewChunks(v, w, o, i, s, first) && FetchedMaps(v, w, i, s)
    ensures |w.owned.Keys| == |v.owned.Keys| + |s|
    ensures |OfClass(w, i)| == |OfClass(v, i)| + |s|
    ensures forall j :: j != i ==> |OfClass(w, j)| == |OfClass(v, j)|
  {
    GrowClass(v.owned, s, i, w.owned);
  }

  lemma FetchedClass(v: View, w: View, i: nat, s: seq<Addr>, first: Addr, j: nat)
    requires Shape(v) && Shape(w) && i < CLASSES && j < CLASSES && ClassSize(v, j) && v.recyc[i] == []
    requires FetchedNumbers(v, w, i, s, first)
    requires |OfClass(w, j)| == |OfClass(v, j)| + if j == i then |s| else 0
    ensures ClassSize(w, j)
  {
    if j == i { FetchedClassSize(v, w, j, |s|); } else { FetchedClassSize(v, w, j, 0); }
  }

  lemma FetchedTotals(v: View, w: View, i: nat, s: seq<Addr>, first: Addr)
    requires Shape(v) && i < CLASSES && v.recyc[i] == [] && FetchedNumbers(v, w, i, s, first)
    ensures w.total == v.total + |s| && w.recyclable == v.recyclable + |s|
    ensures SumLen(w.recyc) == SumLen(v.recyc) + |s|
  {
    SumLenUpdate(v.recyc, i, s);
  }

  lemma FetchedSizes(v: View, o: object, w: View, i: nat, s: seq<Addr>, first: Addr)
    requires Shape(v) && SizesOk(v) && Fetched(v, w, o, i, s, first) && Shape(w)
    ensures SizesOk(w)
  {
    hide FetchedNumbers;
    hide NewChunks;
    hide Untouched;
    hide FetchedMaps;
    hide OfClass;
    hide ClassSize;
    hide SumLen;
    FetchedCounts(v, w, o, i, s, first);
    FetchedTotals(v, w, i, s, first);
    forall j | 0 <= j < CLASSES ensures ClassSize(w, j) {
      assert ClassSize(v, j);
      FetchedClass(v, w, i, s, first, j);
    }
  }

  lemma FetchedKeeps(v: View, o: object, w: View, i: nat, s: seq<Addr>, first: Addr)
    requires Inv(v, o) && Fetched(v, w, o, i, s, first)
    ensures Inv(w, o)
  {
    FetchedChunks(v, o, w, i, s, first);
    FetchedLists(v, o, w, i, s, first);
    FetchedPlaces(v, o, w, i, s, first);
    FetchedHeld(v, o, w, i, s, first);
    FetchedSizes(v, o, w, i, s, first);
  }

  // ----- Recycle: the recyclable chunks of one class go back to the pool -----

  ghost predicate DroppedMaps(v: View, w: View, i: nat)
    requires Shape(v) && i < CLASSES
  {
    var gone := Elements(v.recyc[i]);
    && (forall c :: c in v.h <==> c in w.h)
    && (forall c :: c in v.owned && c in v.h && c !in gone ==> w.h[c] == v.h[c])
    && w.m == v.m && w.owned == v.owned - gone && w.free == v.free - gone
  }

  ghost predicate DroppedNumbers(v: View, w: View, i: nat)
    requires Shape(v) && i < CLASSES
  {
    && w.held == v.held && w.avail == v.avail && w.recyc == v.recyc[i := []]
    && v.total >= |v.recyc[i]| && v.recyclable >= |v.recyc[i]|
    && w.total == v.total - |v.recyc[i]| && w.recyclable == v.recyclable - |v.recyc[i]|
    && var bc := v.caches[i];
    && bc.totalSize >= bc.recyclableSize
    && w.caches == v.caches[i := bc.(recyclable := 0, totalSize := bc.totalSize - bc.recyclableSize,
                                     recyclableSize := 0)]
  }

  ghost predicate Dropped(v: View, w: View, i: nat) {
    Shape(v) && i < CLASSES && DroppedMaps(v, w, i) && DroppedNumbers(v, w, i)
  }

  // Enough is counted to be subtracted.
  lemma DropCounts(v: View, o: object, i: nat)
    requires Inv(v, o) && i < CLASSES
    ensures v.total >= |v.recyc[i]| && v.recyclable >= |v.recyc[i]|
    ensures v.caches[i].totalSize >= v.caches[i].recyclableSize
    ensures Elements(v.recyc[i]) <= OfClass(v, i)
  {
    var e := Elements(v.recyc[i]);
    assert ListOk(v, i) && ClassSize(v, i);
    DistinctCount(v.recyc[i]);
    forall c | c in v.recyc[i] ensures c in OfClass(v, i) { assert Placed(v, 0, i, c); }
    SubsetCount(e, OfClass(v, i));
    SubsetCount(e, v.owned.Keys);
    SumLenUpdate(v.recyc, i, []);
  }

  lemma DroppedChunks(v: View, o: object, w: View, i: nat)
    requires ChunksOk(v, o) && Dropped(v, w, i)
    ensures ChunksOk(w, o)
  {
    hide Blocks;
    hide BlocksPer;
    forall c | c in w.owned ensures ChunkOk(w, o, c) { assert ChunkOk(v, o, c); }
  }

  lemma DroppedLists(v: View, o: object, w: View, i: nat)
    requires Inv(v, o) && Dropped(v, w, i)
    ensures Shape(w) && ListsOk(w)
  {
    hide Carved;
    forall j | 0 <= j < CLASSES ensures ListOk(w, j) {
      assert ListOk(v, j);
      forall c | c in v.avail[j] || (j != i && c in v.recyc[j])
        ensures c in v.h && c in w.h && w.h[c] == v.h[c]
      {
        assert Placed(v, 0, j, c) && Placed(v, 0, i, c);
        assert ChunkOk(v, o, c);
      }
      ChainFrame(v.h, w.h, v.avail[j], v.caches[j].available);
      if j != i { ChainFrame(v.h, w.h, v.recyc[j], v.caches[j].recyclable); }
    }
  }

  lemma DroppedPlace(v: View, w: View, i: nat, j: nat, c: Addr)
    requires Dropped(v, w, i) && Shape(w) && j < CLASSES && 0 !in v.owned
    requires Placed(v, 0, j, c) && Placed(v, 0, i, c)
    ensures Placed(w, 0, j, c)
  {
  }

  lemma DroppedPlaces(v: View, o: object, w: View, i: nat)
    requires Inv(v, o) && Dropped(v, w, i) && Shape(w)
    ensures PlacesOk(w, 0)
  {
    NoNull(v, o);
    hide Placed;
    hide Dropped;
    forall j, c | 0 <= j < CLASSES ensures Placed(w, 0, j, c) {
      assert Placed(v, 0, j, c) && Placed(v, 0, i, c);
      DroppedPlace(v, w, i, j, c);
    }
  }

  // A chunk with a block out is not recyclable.
  lemma HeldNotDropped(v: View, o: object, w: View, i: nat, j: nat, b: Addr)
    requires Dropped(v, w, i) && HeldBlock(v, j, b) && ChunkOk(v, o, v.m[b].chunk) && Placed(v, 0, i, v.m[b].chunk)
    ensures HeldBlock(w, j, b)
  {
    hide Blocks;
    hide BlocksPer;
    var c := v.m[b].chunk;
    AllFree(v.h[c], v.m, c, j, o, v.free[c]);
  }

  lemma DroppedHeld(v: View, o: object, w: View, i: nat)
    requires Inv(v, o) && Dropped(v, w, i) && Shape(w)
    ensures HeldOk(w)
  {
    hide Blocks;
    hide Placed;
    hide ListsOk;
    hide SizesOk;
    forall j, b | 0 <= j < CLASSES && b in w.held[j] ensures HeldBlock(w, j, b) {
      assert HeldBlock(v, j, b) && ChunkOk(v, o, v.m[b].chunk) && Placed(v, 0, i, v.m[b].chunk);
      HeldNotDropped(v, o, w, i, j, b);
    }
    hide HeldBlock;
    hide ChunkOk;
    forall c, b | c in w.owned && b in Blocks(c, w.owned[c]) ensures FreeOrHeld(w, c, b) {
      assert FreeOrHeld(v, c, b);
    }
  }

  lemma DroppedClassSize(v: View, w: View, j: nat, n: nat)
    requires Shape(v) && Shape(w) && j < CLASSES && ClassSize(v, j)
    requires |OfClass(v, j)| == |OfClass(w, j)| + n && w.held[j] == v.held[j] && |v.recyc[j]| == n && w.recyc[j] == []
    requires w.caches[j].recyclableSize == 0 && v.caches[j].totalSize >= v.caches[j].recyclableSize
    requires w.caches[j].totalSize == v.caches[j].totalSize - v.caches[j].recyclableSize
    requires w.caches[j].inUseSize == v.caches[j].inUseSize
    ensures ClassSize(w, j)
  {
    hide BlockSize;
  }

  lemma DroppedCounts(v: View, o: object, w: View, i: nat)
    requires Inv(v, o) && Dropped(v, w, i)
    ensures |v.owned.Keys| == |w.owned.Keys| + |v.recyc[i]|
    ensures |OfClass(v, i)| == |OfClass(w, i)| + |v.recyc[i]|
    ensures forall j :: j != i ==> |OfClass(v, j)| == |OfClass(w, j)|
  {
    DropCounts(v, o, i);
    RecycDistinct(v, i);
    hide Inv;
    hide Distinct;
    hide ClassSet;
    ShrinkClass(v.owned, v.recyc[i], i, w.owned);
  }

  lemma DroppedClass(v: View, w: View, i: nat, j: nat)
    requires Shape(v) && Shape(w) && i < CLASSES && j < CLASSES && ClassSize(v, j)
    requires DroppedNumbers(v, w, i)
    requires |OfClass(v, j)| == |OfClass(w, j)| + if j == i then |v.recyc[i]| else 0
    ensures ClassSize(w, j)
  {
    if j == i { DroppedClassSize(v, w, j, |v.recyc[i]|); } else { FetchedClassSize(v, w, j, 0); }
  }

  lemma DroppedTotals(v: View, w: View, i: nat)
    requires Shape(v) && i < CLASSES && DroppedNumbers(v, w, i)
    ensures w.total == v.total - |v.recyc[i]| && w.recyclable == v.recyclable - |v.recyc[i]|
    ensures SumLen(w.recyc) == SumLen(v.recyc) - |v.recyc[i]|
  {
    SumLenUpdate(v.recyc, i, []);
  }

  lemma DroppedSizes(v: View, o: object, w: View, i: nat)
    requires Inv(v, o) && Dropped(v, w, i) && Shape(w)
    ensures SizesOk(w)
  {
    hide DroppedNumbers;
    hide DroppedMaps;
    hide ListsOk;
    hide PlacesOk;
    hide ChunksOk;
    hide HeldOk;
    hide OfClass;
    hide ClassSize;
    hide SumLen;
    DroppedCounts(v, o, w, i);
    DroppedTotals(v, w, i);
    forall j | 0 <= j < CLASSES ensures ClassSize(w, j) {
      assert ClassSize(v, j);
      DroppedClass(v, w, i, j);
    }
  }

  lemma RecycDistinct(v: View, i: nat)
    requires Shape(v) && ListsOk(v) && i < CLASSES
    ensures Distinct(v.recyc[i])
  {
    assert ListOk(v, i);
  }

  lemma DroppedKeeps(v: View, o: object, w: View, i: nat)
    requires Inv(v, o) && Dropped(v, w, i)
    ensures Inv(w, o)
  {
    DroppedChunks(v, o, w, i);
    DroppedLists(v, o, w, i);
    DroppedPlaces(v, o, w, i);
    DroppedHeld(v, o, w, i);
    DroppedSizes(v, o, w, i);
  }
}
