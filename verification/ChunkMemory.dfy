/** Chunk and block headers as they lie in memory, by address, and the intrusive lists threaded
 *  through them: doubly linked lists of chunks and singly linked lists of free blocks.
 */
module ChunkMemory {
  import opened BlockLayout
  import opened Common

  datatype ChunkHeader = ChunkHeader(prev: Addr, next: Addr, head: Addr, owner: object?, index: nat,
                                     avail: nat, total: nat)

  datatype BlockHeader = BlockHeader(chunk: Addr, next: Addr)

  type Chunks = map<Addr, ChunkHeader>
  type BlockMap = map<Addr, BlockHeader>

  ghost predicate Linked(h: Chunks, s: seq<Addr>, k: nat)
    requires k < |s|
  {
    s[k] in h && s[k] != 0 && h[s[k]].next == At(s, k + 1) && h[s[k]].prev == At(s, k - 1)
  }

  // A doubly linked list of chunks that starts at `first`.
  ghost predicate Chain(h: Chunks, s: seq<Addr>, first: Addr) {
    first == At(s, 0) && Distinct(s) && forall k :: 0 <= k < |s| ==> Linked(h, s, k)
  }

  // The two headers agree except for the list links.
  ghost predicate SameBut(a: ChunkHeader, b: ChunkHeader) { a == b.(prev := a.prev, next := a.next) }

  // Only links changed, and only those of the given chunks.
  ghost predicate LinksOnly(h: Chunks, g: Chunks, touched: set<Addr>) {
    && h.Keys == g.Keys
    && forall c :: c in h ==> SameBut(g[c], h[c]) && (c !in touched ==> g[c] == h[c])
  }

  lemma ChainFrame(h: Chunks, g: Chunks, s: seq<Addr>, first: Addr)
    requires Chain(h, s, first)
    requires forall c :: c in s ==> c in h && c in g && g[c].prev == h[c].prev && g[c].next == h[c].next
    ensures Chain(g, s, first)
  {
    hide Distinct;
    forall k | 0 <= k < |s| ensures Linked(g, s, k) {
      assert Linked(h, s, k) && s[k] in s;
    }
  }

  function SetPrev(h: Chunks, c: Addr, p: Addr): Chunks {
    if c in h && c != 0 then h[c := h[c].(prev := p)] else h
  }

  function SetNext(h: Chunks, c: Addr, n: Addr): Chunks {
    if c in h && c != 0 then h[c := h[c].(next := n)] else h
  }

  // Insertion at the front.
  function Pushed(h: Chunks, c: Addr, first: Addr): Chunks {
    SetPrev(SetNext(SetPrev(h, c, 0), c, first), first, c)
  }

  lemma PushChain(h: Chunks, s: seq<Addr>, first: Addr, c: Addr)
    requires Chain(h, s, first) && c in h && c != 0 && c !in s
    ensures Chain(Pushed(h, c, first), [c] + s, c)
    ensures LinksOnly(h, Pushed(h, c, first), {c} + Elements(s))
  {
    var g := Pushed(h, c, first);
    if s != [] { assert first == s[0] && s[0] in s; }
    forall k | 0 <= k < |s| ensures s[k] != c { assert s[k] in s; }
    var t := [c] + s;
    forall k | 0 <= k < |t| ensures Linked(g, t, k) {
      if k > 0 { assert Linked(h, s, k - 1); }
      if k > 1 { Differ(s, k - 1, 0); }
    }
  }

  // Taking out the element between p and n.
  function Unlinked(h: Chunks, p: Addr, n: Addr): Chunks { SetPrev(SetNext(h, p, n), n, p) }

  lemma UnlinkAt(h: Chunks, s: seq<Addr>, j: nat, k: nat, p: Addr, n: Addr)
    requires j < |s| && Distinct(s) && k < |s| - 1 && p == At(s, j - 1) && n == At(s, j + 1)
    requires Linked(h, s, if k < j then k else k + 1)
    ensures Linked(Unlinked(h, p, n), Without(s, j), k)
  {
    var x := if k < j then k else k + 1;
    if j > 0 && x != j - 1 { Differ(s, x, j - 1); }
    if j + 1 < |s| && x != j + 1 { Differ(s, x, j + 1); }
    hide Distinct;
    var t := Without(s, j);
    assert forall i :: 0 <= i < |t| ==> t[i] == if i < j then s[i] else s[i + 1];
  }

  lemma UnlinkChain(h: Chunks, s: seq<Addr>, first: Addr, j: nat)
    requires Chain(h, s, first) && j < |s| && s[j] in h
    ensures var p, n := h[s[j]].prev, h[s[j]].next;
      Chain(Unlinked(h, p, n), Without(s, j), if p == 0 then n else first)
    ensures LinksOnly(h, Unlinked(h, h[s[j]].prev, h[s[j]].next), Elements(s) - {s[j]})
  {
    assert Linked(h, s, j);
    var p, n := h[s[j]].prev, h[s[j]].next;
    var g := Unlinked(h, p, n);
    var t := Without(s, j);
    WithoutDistinct(s, j);
    forall k | 0 <= k < |t| ensures Linked(g, t, k) {
      assert Linked(h, s, if k < j then k else k + 1);
      UnlinkAt(h, s, j, k, p, n);
    }
    if j > 0 { assert Linked(h, s, j - 1) && s[j - 1] in s; Differ(s, j - 1, j); }
    if j + 1 < |s| { assert Linked(h, s, j + 1) && s[j + 1] in s; Differ(s, j + 1, j); }
  }

  // Joining two lists: `last` is the last chunk of the first.
  function Joined(h: Chunks, last: Addr, first: Addr): Chunks { SetPrev(SetNext(h, last, first), first, last) }

  lemma JoinDistinct(s: seq<Addr>, t: seq<Addr>)
    requires Distinct(s) && Distinct(t) && (forall c :: c in s ==> c !in t)
    ensures Distinct(s + t)
  {
    var u := s + t;
    forall i, j | 0 <= i < j < |u| ensures u[i] != u[j] {
      if i < |s| <= j { assert u[i] == s[i] && s[i] in s && u[j] == t[j - |s|] && t[j - |s|] in t; }
    }
  }

  lemma JoinChain(h: Chunks, s: seq<Addr>, a: Addr, t: seq<Addr>, b: Addr)
    requires Chain(h, s, a) && Chain(h, t, b) && s != [] && (forall c :: c in s ==> c !in t)
    ensures Chain(Joined(h, s[|s| - 1], b), s + t, a)
    ensures LinksOnly(h, Joined(h, s[|s| - 1], b), Elements(s) + Elements(t))
  {
    var l := s[|s| - 1];
    var g := Joined(h, l, b);
    var u := s + t;
    JoinDistinct(s, t);
    assert l in s && Linked(h, s, |s| - 1);
    if t != [] { assert b == t[0] && t[0] in t && Linked(h, t, 0); }
    forall k | 0 <= k < |u| ensures Linked(g, u, k) {
      if k < |s| {
        assert Linked(h, s, k) && s[k] in s;
        if k != |s| - 1 { Differ(s, k, |s| - 1); }
      } else {
        assert Linked(h, t, k - |s|) && t[k - |s|] in t;
        if k != |s| { Differ(t, k - |s|, 0); }
      }
    }
  }

  // Cutting a list after the chunk `last`.
  function Cut(h: Chunks, last: Addr, rest: Addr): Chunks { SetNext(SetPrev(h, rest, 0), last, 0) }

  lemma CutFirst(h: Chunks, s: seq<Addr>, n: nat, k: nat)
    requires Distinct(s) && 0 < n <= |s| && k < n && Linked(h, s, k)
    ensures Linked(Cut(h, s[n - 1], At(s, n)), s[..n], k)
  {
    if k != n - 1 { Differ(s, k, n - 1); }
    if n < |s| { Differ(s, k, n); }
  }

  lemma CutRest(h: Chunks, s: seq<Addr>, n: nat, k: nat)
    requires Distinct(s) && 0 < n <= |s| && n <= k < |s| && Linked(h, s, k)
    ensures Linked(Cut(h, s[n - 1], At(s, n)), s[n..], k - n)
  {
    Differ(s, k, n - 1);
    if k != n { Differ(s, k, n); }
  }

  lemma CutChain(h: Chunks, s: seq<Addr>, first: Addr, n: nat)
    requires Chain(h, s, first) && 0 < n <= |s| && s[n - 1] in h
    ensures h[s[n - 1]].next == At(s, n)
    ensures Chain(Cut(h, s[n - 1], At(s, n)), s[..n], first)
    ensures Chain(Cut(h, s[n - 1], At(s, n)), s[n..], At(s, n))
    ensures LinksOnly(h, Cut(h, s[n - 1], At(s, n)), Elements(s))
  {
    var g := Cut(h, s[n - 1], At(s, n));
    assert Linked(h, s, n - 1) && s[n - 1] in s;
    if n < |s| { assert Linked(h, s, n) && s[n] in s; }
    forall k | 0 <= k < n ensures Linked(g, s[..n], k) { assert Linked(h, s, k); CutFirst(h, s, n, k); }
    forall k | 0 <= k < |s| - n ensures Linked(g, s[n..], k) { assert Linked(h, s, k + n); CutRest(h, s, n, k + n); }
  }

  // ----- free blocks -----

  // A singly linked list of blocks that starts at `first`.
  ghost predicate FreeList(m: BlockMap, s: seq<Addr>, first: Addr) {
    && first == At(s, 0) && Distinct(s)
    && forall k :: 0 <= k < |s| ==> s[k] in m && s[k] != 0 && m[s[k]].next == At(s, k + 1)
  }

  lemma FreeListFrame(m: BlockMap, n: BlockMap, s: seq<Addr>, first: Addr)
    requires FreeList(m, s, first) && (forall b :: b in s ==> b in n && n[b] == m[b])
    ensures FreeList(n, s, first)
  {
    forall k | 0 <= k < |s| ensures s[k] in n && n[s[k]] == m[s[k]] { assert s[k] in s; }
  }

  lemma PopFree(m: BlockMap, s: seq<Addr>, first: Addr)
    requires FreeList(m, s, first) && s != []
    ensures FreeList(m, s[1..], m[first].next)
    ensures first !in s[1..]
  {
    var t := s[1..];
    forall k | 0 <= k < |t| ensures t[k] in m && t[k] != 0 && m[t[k]].next == At(t, k + 1) { }
  }

  lemma PushFree(m: BlockMap, s: seq<Addr>, first: Addr, b: Addr)
    requires FreeList(m, s, first) && b in m && b != 0 && b !in s
    ensures FreeList(m[b := m[b].(next := first)], [b] + s, b)
  {
    var n, t := m[b := m[b].(next := first)], [b] + s;
    forall k | 0 <= k < |s| ensures s[k] != b { assert s[k] in s; }
    forall k | 0 <= k < |t| ensures t[k] in n && t[k] != 0 && n[t[k]].next == At(t, k + 1) { }
  }

  // One carved chunk: its blocks know it, its free ones are listed and counted.
  ghost predicate Carved(h: ChunkHeader, m: BlockMap, c: Addr, i: nat, owner: object, free: seq<Addr>) {
    && h.owner == owner && h.index == i && h.total == BlocksPer(i) && h.avail == |free|
    && FreeList(m, free, h.head)
    && (forall b :: b in free ==> b in Blocks(c, i))
    && (forall b :: b in Blocks(c, i) ==> b in m && m[b].chunk == c)
  }

  /** The count is exact: all blocks are free exactly when as many are listed as the chunk holds. */
  lemma AllFree(h: ChunkHeader, m: BlockMap, c: Addr, i: nat, owner: object, free: seq<Addr>)
    requires Carved(h, m, c, i, owner, free)
    ensures |free| <= BlocksPer(i)
    ensures |free| == BlocksPer(i) <==> (forall b :: b in Blocks(c, i) ==> b in free)
    ensures h.avail == h.total <==> (forall b :: b in Blocks(c, i) ==> b in free)
  {
    hide Blocks;
    hide BlocksPer;
    hide Distinct;
    DistinctCount(free);
    CountBlocks(c, i);
    SubsetCount(Elements(free), Blocks(c, i));
    if forall b :: b in Blocks(c, i) ==> b in free { assert Elements(free) == Blocks(c, i); }
  }
}
