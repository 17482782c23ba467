/** The thread-local object pool: chunks of equal objects, a bounded stack of returned objects in front of them, and
 *  chunks that are reused or released when all their objects have come back.
 */
module ObjectPool {
  import opened Common

  type Addr = nat  // 0 is the null pointer

  const HEADER: nat := 16          // size of a chunk header
  const MAX_CHUNK: nat := 32768
  const MAX_NUM: nat := 256
  const FREE_CHUNKS: nat := 128

  // ----- sizes -----

  function ObjectsWanted(size: nat): (n: nat)
    requires size > 0
  {
    if MAX_CHUNK / size > MAX_NUM then MAX_NUM else MAX_CHUNK / size
  }

  // The position of the highest bit.
  function HighBit(n: nat): (i: nat)
    requires n > 0
    ensures i < n
  {
    if n == 1 then 0 else 1 + HighBit(n / 2)
  }

  function SizeClass(i: nat): nat {
    if i == 0 then 2048 else if i == 1 then 4096 else if i == 2 then 8192 else if i == 3 then 16384 else 32768
  }

  function ClassIndex(size: nat): nat
    requires size > 0
  {
    var b := ObjectsWanted(size) * size;
    var n := (if b > 0 then b - 1 else 0) / 2048;
    if n == 0 then 0 else HighBit(2 * n)
  }

  function ChunkSize(size: nat): (n: nat)
    requires size > 0
    ensures 2048 <= n <= MAX_CHUNK
  {
    SizeClass(ClassIndex(size))
  }

  function ObjectNum(size: nat): nat
    requires size > 0
  {
    (ChunkSize(size) - HEADER) / size
  }

  predicate Admissible(size: nat) { 8 <= size <= MAX_CHUNK - HEADER }

  lemma Wanted(size: nat)
    requires Admissible(size)
    ensures var b := ObjectsWanted(size) * size; size <= b <= MAX_CHUNK && (size > 128 ==> b > MAX_CHUNK - size)
  {
    var n := MAX_CHUNK / size;
    assert n >= 1 && n * size <= MAX_CHUNK < n * size + size;
    if n > MAX_NUM {
      assert size * MAX_NUM <= size * n;
      assert size * 257 <= MAX_CHUNK;
    }
  }

  // The class index of b bytes: the least class that holds them.
  lemma IndexOfBytes(b: nat)
    requires 0 < b <= MAX_CHUNK
    ensures var n := (b - 1) / 2048; var i := if n == 0 then 0 else HighBit(2 * n);
      i <= 4 && b <= SizeClass(i) && (i > 0 ==> SizeClass(i) < 2 * b)
  {
    var n := (b - 1) / 2048;
    assert n <= 15;
    if n > 0 {
      assert HighBit(1) == 0;
      assert HighBit(2) == 1 && HighBit(3) == 1;
      assert HighBit(4) == 2 && HighBit(5) == 2 && HighBit(6) == 2 && HighBit(7) == 2;
      if n == 1 {
      } else if n <= 3 {
        assert HighBit(2 * n) == 2;
      } else if n <= 7 {
        HighBitOf(n, 2);
      } else {
        HighBitOf(n, 3);
      }
    }
  }

  lemma HighBitOf(n: nat, k: nat)
    requires (k == 2 && 4 <= n <= 7) || (k == 3 && 8 <= n <= 15)
    ensures HighBit(2 * n) == k + 1
  {
    var m := n / 2;
    assert HighBit(2 * n) == 1 + HighBit(n) && HighBit(n) == 1 + HighBit(m);
    if k == 3 {
      assert HighBit(m) == 1 + HighBit(m / 2);
      assert HighBit(2) == 1 && HighBit(3) == 1;
    } else {
      assert HighBit(2) == 1 && HighBit(3) == 1;
    }
  }

  /** For every admissible object size at least one object fits behind the chunk header, all objects end within
   *  the chunk, and their number fits the 16-bit counters. */
  lemma Sizing(size: nat)
    requires Admissible(size)
    ensures 2048 <= ChunkSize(size) <= MAX_CHUNK
    ensures 1 <= ObjectNum(size) < 0x1_0000
    ensures HEADER + ObjectNum(size) * size <= ChunkSize(size) < HEADER + (ObjectNum(size) + 1) * size
    ensures var b := ObjectsWanted(size) * size; b <= ChunkSize(size) && (ChunkSize(size) > 2048 ==> ChunkSize(size) < 2 * b)
  {
    Wanted(size);
    var b := ObjectsWanted(size) * size;
    IndexOfBytes(b);
    hide HighBit;
    hide ObjectsWanted;
    RoomForOne(size, b, ClassIndex(size));
    Fits(ChunkSize(size) - HEADER, size);
  }

  // Larger objects fill more than half of the largest chunk, or are alone in it.
  lemma RoomForOne(size: nat, b: nat, i: nat)
    requires Admissible(size) && size <= b <= MAX_CHUNK && (size > 128 ==> b > MAX_CHUNK - size) && b <= SizeClass(i)
    ensures size <= SizeClass(i) - HEADER
  {
  }

  lemma Fits(room: nat, size: nat)
    requires 8 <= size <= room < 0x8_0000
    ensures 1 <= room / size < 0x1_0000 && (room / size) * size <= room < (room / size + 1) * size
  {
  }

  // ----- objects -----

  function Obj(size: nat, c: Addr, k: nat): (o: Addr)
    ensures o > 0
  {
    c + HEADER + k * size
  }

  // The chunk of an object: its address with the low bits cleared.
  function Base(size: nat, o: Addr): Addr
    requires size > 0
  {
    o - o % ChunkSize(size)
  }

  /** Masking an object's address recovers its chunk. */
  lemma BaseOfObj(size: nat, c: Addr, k: nat)
    requires Admissible(size) && c % ChunkSize(size) == 0 && k < ObjectNum(size)
    ensures Base(size, Obj(size, c, k)) == c
  {
    hide ObjectNum;
    hide ChunkSize;
    hide Obj;
    ObjectInside(size, c, k);
    MaskOff(c, Obj(size, c, k) - c, ChunkSize(size));
  }

  lemma MaskOff(c: nat, off: nat, n: nat)
    requires n > 0 && c % n == 0 && off < n
    ensures (c + off) - (c + off) % n == c
  {
    ModIs(c + off, n, c / n, off);
  }

  lemma ObjInjective(size: nat, c: Addr, k: nat, d: Addr, j: nat)
    requires Admissible(size) && c % ChunkSize(size) == 0 && d % ChunkSize(size) == 0
    requires k < ObjectNum(size) && j < ObjectNum(size) && Obj(size, c, k) == Obj(size, d, j)
    ensures c == d && k == j
  {
    BaseOfObj(size, c, k);
    BaseOfObj(size, d, j);
    assert k * size == j * size;
    assert (k - j) * size == 0;
  }

  /** Objects lie behind the chunk header, inside the chunk, and do not overlap, in one chunk or in two. */
  lemma ObjectsApart(size: nat, c: Addr, k: nat, d: Addr, j: nat)
    requires Admissible(size) && c % ChunkSize(size) == 0 && d % ChunkSize(size) == 0
    requires k < ObjectNum(size) && j < ObjectNum(size) && (c, k) != (d, j)
    ensures c + HEADER <= Obj(size, c, k) && Obj(size, c, k) + size <= c + ChunkSize(size)
    ensures Obj(size, c, k) + size <= Obj(size, d, j) || Obj(size, d, j) + size <= Obj(size, c, k)
  {
    ObjectInside(size, c, k);
    ObjectInside(size, d, j);
    if c == d {
      if k < j { StrideApart(size, k, j); } else { StrideApart(size, j, k); }
    } else {
      var n := ChunkSize(size);
      hide ChunkSize;
      hide ObjectNum;
      MultiplesApart(c, d, n);
    }
  }

  lemma ObjectInside(size: nat, c: Addr, k: nat)
    requires Admissible(size) && k < ObjectNum(size)
    ensures c + HEADER <= Obj(size, c, k) && Obj(size, c, k) + size <= c + ChunkSize(size)
  {
    hide ChunkSize;
    hide ObjectNum;
    hide ObjectsWanted;
    Sizing(size);
    StrideApart(size, k, ObjectNum(size));
  }

  lemma StrideApart(size: nat, j: nat, k: nat)
    requires j < k
    ensures j * size + size <= k * size
  {
    Times(j + 1, k, size);
    assert (j + 1) * size == j * size + size;
  }

  lemma MultiplesApart(c: nat, d: nat, n: nat)
    requires n > 0 && c % n == 0 && d % n == 0 && c != d
    ensures c + n <= d || d + n <= c
  {
    var p, q := c / n, d / n;
    assert c == p * n && d == q * n;
    if p < q { StrideApart(n, p, q); } else if q < p { StrideApart(n, q, p); }
  }

  // ----- the pool's state -----

  datatype Chunk = Chunk(used: nat, free: nat)

  datatype State = State(
    chunks: map<Addr, Chunk>, current: Addr, cache: seq<Addr>, spare: seq<Addr>,
    live: set<Addr>,      // in the hands of users
    freed: set<Addr>)     // returned past the cache; not handed out again before their chunk starts over

  ghost predicate OnePlace(p: State, o: Addr) {
    && (o in p.live || o in p.cache || o in p.freed)
    && !(o in p.live && o in p.cache) && !(o in p.live && o in p.freed) && !(o in p.cache && o in p.freed)
  }

  ghost predicate IsObject(p: State, size: nat, o: Addr, c: Addr, k: nat) {
    c in p.chunks && k < p.chunks[c].used && o == Obj(size, c, k)
  }

  ghost predicate Known(p: State, size: nat, o: Addr) { exists c, k :: IsObject(p, size, o, c, k) }

  ghost function FreedOf(p: State, size: nat, c: Addr): set<nat>
    requires c in p.chunks
  {
    set k | 0 <= k < p.chunks[c].used && Obj(size, c, k) in p.freed
  }

  ghost predicate ChunkOk(p: State, size: nat, c: Addr)
    requires Admissible(size)
  {
    && c in p.chunks && c > 0 && c % ChunkSize(size) == 0 && p.chunks[c].used <= ObjectNum(size)
    && p.chunks[c].free == |FreedOf(p, size, c)|
    && (forall k :: 0 <= k < p.chunks[c].used ==> OnePlace(p, Obj(size, c, k)))
  }

  ghost predicate ListsOk(p: State) {
    && Distinct(p.cache) && Distinct(p.spare)
    && (p.current != 0 ==> p.current in p.chunks)
    && (forall c :: c in p.spare ==> c in p.chunks && p.chunks[c].used == 0 && c != p.current)
  }

  ghost predicate Inv(p: State, size: nat)
    requires Admissible(size)
  {
    && (forall c :: c in p.chunks ==> ChunkOk(p, size, c))
    && (forall o :: o in p.live || o in p.cache || o in p.freed ==> Known(p, size, o))
    && ListsOk(p)
  }

  // ----- the operations -----

  function FromCache(p: State): State
    requires p.cache != []
  {
    var n := |p.cache| - 1;
    p.(cache := p.cache[..n], live := p.live + {p.cache[n]})
  }

  // One object changes hands between users and the cache.
  lemma HandedOver(p: State, z: State, size: nat, o: Addr)
    requires Admissible(size) && Inv(p, size) && z.chunks == p.chunks && z.freed == p.freed
    requires forall x :: x != o ==> (x in z.live <==> x in p.live) && (x in z.cache <==> x in p.cache)
    requires (o in p.live || o in p.cache) && (o in z.live <==> o !in z.cache)
    ensures forall c :: c in z.chunks ==> ChunkOk(z, size, c)
    ensures forall x :: x in z.live || x in z.cache || x in z.freed ==> Known(z, size, x)
  {
    ObjectPlace(p, size, o);
    forall c | c in z.chunks ensures ChunkOk(z, size, c) { HandedOverChunk(p, z, size, o, c); }
    forall x | x in z.live || x in z.cache || x in z.freed ensures Known(z, size, x) { KnownFrame(p, z, size, x); }
  }

  lemma ObjectPlace(p: State, size: nat, o: Addr)
    requires Admissible(size) && Inv(p, size) && Known(p, size, o)
    ensures OnePlace(p, o)
  {
    var c, k :| IsObject(p, size, o, c, k);
    assert ChunkOk(p, size, c);
  }

  lemma HandedOverChunk(p: State, z: State, size: nat, o: Addr, c: Addr)
    requires Admissible(size) && ChunkOk(p, size, c) && z.chunks == p.chunks && z.freed == p.freed && OnePlace(p, o)
    requires forall x :: x != o ==> (x in z.live <==> x in p.live) && (x in z.cache <==> x in p.cache)
    requires (o in p.live || o in p.cache) && (o in z.live <==> o !in z.cache)
    ensures ChunkOk(z, size, c)
  {
    hide ObjectNum;
    hide ChunkSize;
    hide Obj;
    assert FreedOf(z, size, c) == FreedOf(p, size, c);
    forall k | 0 <= k < z.chunks[c].used ensures OnePlace(z, Obj(size, c, k)) { assert OnePlace(p, Obj(size, c, k)); }
  }

  lemma KnownFrame(p: State, z: State, size: nat, x: Addr)
    requires Known(p, size, x) && forall c :: c in p.chunks ==> c in z.chunks && z.chunks[c].used >= p.chunks[c].used
    ensures Known(z, size, x)
  {
    var c, k :| IsObject(p, size, x, c, k);
    assert IsObject(z, size, x, c, k);
  }

  lemma FromCacheKeeps(p: State, size: nat)
    requires Admissible(size) && Inv(p, size) && p.cache != []
    ensures Inv(FromCache(p), size) && p.cache[|p.cache| - 1] !in p.live
  {
    var z, n := FromCache(p), |p.cache| - 1;
    var o := p.cache[n];
    assert p.cache == z.cache + [o] && o !in z.cache;
    ObjectPlace(p, size, o);
    HandedOver(p, z, size, o);
  }

  function FromChunk(p: State, size: nat, c: Addr): State
    requires c in p.chunks
  {
    var u := p.chunks[c];
    p.(chunks := p.chunks[c := u.(used := u.used + 1)], current := c, live := p.live + {Obj(size, c, u.used)})
  }

  // The next object of a chunk is one nobody has.
  lemma NextIsNew(p: State, size: nat, c: Addr)
    requires Admissible(size) && Inv(p, size) && c in p.chunks && p.chunks[c].used < ObjectNum(size)
    ensures var o := Obj(size, c, p.chunks[c].used); o !in p.live && o !in p.cache && o !in p.freed
  {
    var o := Obj(size, c, p.chunks[c].used);
    assert ChunkOk(p, size, c);
    hide ObjectNum;
    hide ChunkSize;
    hide Obj;
    if o in p.live || o in p.cache || o in p.freed {
      assert Known(p, size, o);
      var d, j :| IsObject(p, size, o, d, j);
      assert ChunkOk(p, size, d);
      ObjInjective(size, c, p.chunks[c].used, d, j);
    }
  }

  lemma FromChunkOther(p: State, size: nat, c: Addr, d: Addr)
    requires Admissible(size) && c in p.chunks && p.chunks[c].used < ObjectNum(size) && ChunkOk(p, size, d)
    requires var o := Obj(size, c, p.chunks[c].used); o !in p.live && o !in p.cache && o !in p.freed
    ensures ChunkOk(FromChunk(p, size, c), size, d)
  {
    hide ObjectNum;
    hide ChunkSize;
    hide Obj;
    var z := FromChunk(p, size, c);
    assert FreedOf(z, size, d) == FreedOf(p, size, d);
    forall k | 0 <= k < z.chunks[d].used ensures OnePlace(z, Obj(size, d, k)) {
      if k < p.chunks[d].used { assert OnePlace(p, Obj(size, d, k)); }
    }
  }

  lemma FromChunkKeeps(p: State, size: nat, c: Addr)
    requires Admissible(size) && Inv(p, size) && c in p.chunks && p.chunks[c].used < ObjectNum(size) && c !in p.spare
    ensures Inv(FromChunk(p, size, c), size)
  {
    NextIsNew(p, size, c);
    hide ObjectNum;
    hide ChunkSize;
    hide Obj;
    hide ChunkOk;
    var z := FromChunk(p, size, c);
    var o := Obj(size, c, p.chunks[c].used);
    forall d | d in z.chunks ensures ChunkOk(z, size, d) { assert ChunkOk(p, size, d); FromChunkOther(p, size, c, d); }
    assert IsObject(z, size, o, c, p.chunks[c].used);
    forall x | x in z.live || x in z.cache || x in z.freed ensures Known(z, size, x) {
      if x != o { KnownFrame(p, z, size, x); }
    }
  }

  function WithChunk(p: State, c: Addr): State { p.(chunks := p.chunks[c := Chunk(0, 0)], current := c) }

  lemma WithChunkKeeps(p: State, size: nat, c: Addr)
    requires Admissible(size) && Inv(p, size) && c !in p.chunks && c > 0 && c % ChunkSize(size) == 0
    ensures Inv(WithChunk(p, c), size)
  {
    hide ObjectNum;
    hide ChunkSize;
    hide Obj;
    var z := WithChunk(p, c);
    assert FreedOf(z, size, c) == {};
    forall d | d in z.chunks ensures ChunkOk(z, size, d) {
      if d != c {
        assert ChunkOk(p, size, d) && FreedOf(z, size, d) == FreedOf(p, size, d);
        forall k | 0 <= k < z.chunks[d].used ensures OnePlace(z, Obj(size, d, k)) { assert OnePlace(p, Obj(size, d, k)); }
      }
    }
    forall x | x in z.live || x in z.cache || x in z.freed ensures Known(z, size, x) {
      assert Known(p, size, x);
      var d, k :| IsObject(p, size, x, d, k);
      assert IsObject(z, size, x, d, k);
    }
  }

  function ToCache(p: State, o: Addr): State { p.(cache := p.cache + [o], live := p.live - {o}) }

  lemma ToCacheKeeps(p: State, size: nat, o: Addr)
    requires Admissible(size) && Inv(p, size) && o in p.live
    ensures Inv(ToCache(p, o), size)
  {
    ObjectPlace(p, size, o);
    HandedOver(p, ToCache(p, o), size, o);
  }

  // An object is returned past the cache.
  function Retired(p: State, size: nat, o: Addr, c: Addr): State
    requires c in p.chunks
  {
    var u := p.chunks[c];
    p.(chunks := p.chunks[c := u.(free := u.free + 1)], live := p.live - {o}, freed := p.freed + {o})
  }

  lemma RetiredChunk(p: State, size: nat, o: Addr, c: Addr, k: nat, d: Addr)
    requires Admissible(size) && ChunkOk(p, size, c) && ChunkOk(p, size, d) && IsObject(p, size, o, c, k) && o in p.live
    ensures ChunkOk(Retired(p, size, o, c), size, d)
  {
    var z := Retired(p, size, o, c);
    forall j | 0 <= j < p.chunks[d].used && Obj(size, d, j) == o ensures d == c && j == k { ObjInjective(size, d, j, c, k); }
    hide ObjectNum;
    hide ChunkSize;
    hide Obj;
    assert OnePlace(p, Obj(size, c, k));
    if d == c {
      assert FreedOf(z, size, d) == FreedOf(p, size, d) + {k};
    } else {
      assert FreedOf(z, size, d) == FreedOf(p, size, d);
    }
    forall j | 0 <= j < z.chunks[d].used ensures OnePlace(z, Obj(size, d, j)) { assert OnePlace(p, Obj(size, d, j)); }
  }

  // Where an object belongs.
  lemma HomeOf(p: State, size: nat, o: Addr) returns (c: Addr, k: nat)
    requires Admissible(size) && Inv(p, size) && (o in p.live || o in p.cache)
    ensures IsObject(p, size, o, c, k) && ChunkOk(p, size, c) && Base(size, o) == c
  {
    assert Known(p, size, o);
    c, k :| IsObject(p, size, o, c, k);
    assert ChunkOk(p, size, c);
    BaseOfObj(size, c, k);
  }

  lemma RetiredKeeps(p: State, size: nat, o: Addr)
    requires Admissible(size) && Inv(p, size) && o in p.live
    ensures var c := Base(size, o); c in p.chunks && Inv(Retired(p, size, o, c), size)
  {
    hide Base;
    hide ObjectNum;
    hide ChunkSize;
    hide Obj;
    hide ChunkOk;
    var c, k := HomeOf(p, size, o);
    var z := Retired(p, size, o, c);
    forall d | d in z.chunks ensures ChunkOk(z, size, d) { assert ChunkOk(p, size, d); RetiredChunk(p, size, o, c, k, d); }
    forall x | x in z.live || x in z.cache || x in z.freed ensures Known(z, size, x) { KnownFrame(p, z, size, x); }
  }

  ghost function FirstN(n: nat): (s: set<nat>)
    ensures forall k :: k in s <==> 0 <= k < n
  {
    if n == 0 then {} else FirstN(n - 1) + {n - 1}
  }

  lemma {:induction false} CountFirst(n: nat)
    ensures |FirstN(n)| == n
  {
    if n > 0 {
      CountFirst(n - 1);
    }
  }

  /** A chunk's count is exact: objects ever handed out are live, cached or retired; and when as many have been
   *  retired as the chunk holds, none is live or cached. */
  lemma AllRetired(p: State, size: nat, c: Addr)
    requires Admissible(size) && ChunkOk(p, size, c)
    ensures p.chunks[c].free <= p.chunks[c].used <= ObjectNum(size)
    ensures p.chunks[c].free == ObjectNum(size) ==>
      forall k :: 0 <= k < p.chunks[c].used ==> Obj(size, c, k) in p.freed && Obj(size, c, k) !in p.live && Obj(size, c, k) !in p.cache
  {
    hide ObjectNum;
    hide ChunkSize;
    hide Obj;
    var n := p.chunks[c].used;
    CountFirst(n);
    SubsetCount(FreedOf(p, size, c), FirstN(n));
    if p.chunks[c].free == ObjectNum(size) {
      forall k | 0 <= k < n ensures Obj(size, c, k) in p.freed && Obj(size, c, k) !in p.live && Obj(size, c, k) !in p.cache {
        assert k in FirstN(n) && k in FreedOf(p, size, c) && OnePlace(p, Obj(size, c, k));
      }
    }
  }

  ghost function CachedOf(p: State, size: nat, c: Addr): set<nat>
    requires c in p.chunks
  {
    set k | 0 <= k < p.chunks[c].used && Obj(size, c, k) in p.cache
  }

  ghost function LiveOf(p: State, size: nat, c: Addr): set<nat>
    requires c in p.chunks
  {
    set k | 0 <= k < p.chunks[c].used && Obj(size, c, k) in p.live
  }

  /** used_num = live + cached + free_num. */
  lemma UsedIsSum(p: State, size: nat, c: Addr)
    requires Admissible(size) && ChunkOk(p, size, c)
    ensures p.chunks[c].used == |LiveOf(p, size, c)| + |CachedOf(p, size, c)| + p.chunks[c].free
  {
    hide ObjectNum;
    hide ChunkSize;
    hide Obj;
    var n := p.chunks[c].used;
    CountFirst(n);
    var l, h, f := LiveOf(p, size, c), CachedOf(p, size, c), FreedOf(p, size, c);
    forall k | 0 <= k < n ensures (k in l || k in h || k in f) && !(k in l && k in h) && !(k in l && k in f) && !(k in h && k in f) {
      assert OnePlace(p, Obj(size, c, k));
    }
    assert FirstN(n) == l + h + f;
  }

  // A chunk starts over, or goes away (stays = false).
  ghost function Emptied(p: State, size: nat, c: Addr, stays: bool): State
    requires c in p.chunks
  {
    var gone := set k | 0 <= k < p.chunks[c].used :: Obj(size, c, k);
    p.(chunks := if stays then p.chunks[c := Chunk(0, 0)] else p.chunks - {c}, freed := p.freed - gone)
  }

  lemma EmptiedChunk(p: State, size: nat, c: Addr, stays: bool, d: Addr)
    requires Admissible(size) && ChunkOk(p, size, c) && ChunkOk(p, size, d) && d != c
    ensures ChunkOk(Emptied(p, size, c, stays), size, d)
  {
    var z := Emptied(p, size, c, stays);
    forall j, k | 0 <= j < p.chunks[d].used && 0 <= k < p.chunks[c].used ensures Obj(size, d, j) != Obj(size, c, k) {
      if Obj(size, d, j) == Obj(size, c, k) { ObjInjective(size, d, j, c, k); }
    }
    hide ObjectNum;
    hide ChunkSize;
    hide Obj;
    assert FreedOf(z, size, d) == FreedOf(p, size, d);
    forall j | 0 <= j < z.chunks[d].used ensures OnePlace(z, Obj(size, d, j)) { assert OnePlace(p, Obj(size, d, j)); }
  }

  lemma EmptiedKnown(p: State, size: nat, c: Addr, stays: bool, x: Addr)
    requires Admissible(size) && Inv(p, size) && c in p.chunks && p.chunks[c].free == ObjectNum(size)
    requires var z := Emptied(p, size, c, stays); x in z.live || x in z.cache || x in z.freed
    ensures Known(Emptied(p, size, c, stays), size, x)
  {
    var z := Emptied(p, size, c, stays);
    assert ChunkOk(p, size, c) && Known(p, size, x);
    AllRetired(p, size, c);
    hide ObjectNum;
    hide ChunkSize;
    hide Obj;
    var d, k :| IsObject(p, size, x, d, k);
    assert d != c;
    assert IsObject(z, size, x, d, k);
  }

  lemma EmptiedChunks(p: State, size: nat, c: Addr, stays: bool, d: Addr)
    requires Admissible(size) && Inv(p, size) && ChunkOk(p, size, c) && d in Emptied(p, size, c, stays).chunks
    ensures ChunkOk(Emptied(p, size, c, stays), size, d)
  {
    hide ObjectNum;
    hide ChunkSize;
    hide Obj;
    var z := Emptied(p, size, c, stays);
    if d == c {
      assert FreedOf(z, size, c) == {};
    } else {
      assert ChunkOk(p, size, d);
      EmptiedChunk(p, size, c, stays, d);
    }
  }

  lemma EmptiedLists(p: State, size: nat, c: Addr, stays: bool)
    requires ListsOk(p) && c in p.chunks && p.chunks[c].used > 0 && (!stays ==> p.current != c)
    ensures ListsOk(Emptied(p, size, c, stays)) && c !in p.spare
  {
    hide Distinct;
  }

  lemma EmptiedKeeps(p: State, size: nat, c: Addr, stays: bool)
    requires Admissible(size) && Inv(p, size) && c in p.chunks && p.chunks[c].free == ObjectNum(size)
    requires !stays ==> p.current != c
    ensures Inv(Emptied(p, size, c, stays), size) && c !in p.spare
  {
    hide ObjectNum;
    hide ObjectsWanted;
    hide Emptied;
    hide ListsOk;
    hide Known;
    Sizing(size);
    assert ChunkOk(p, size, c);
    hide ChunkOk;
    AllRetired(p, size, c);
    var z := Emptied(p, size, c, stays);
    EmptiedLists(p, size, c, stays);
    forall d | d in z.chunks ensures ChunkOk(z, size, d) { EmptiedChunks(p, size, c, stays, d); }
    forall x | x in z.live || x in z.cache || x in z.freed ensures Known(z, size, x) { EmptiedKnown(p, size, c, stays, x); }
  }

  // A chunk that has started over waits among the spare ones.
  function Spared(p: State, c: Addr): State { p.(spare := p.spare + [c]) }

  function Unspared(p: State): State
    requires p.spare != []
  {
    p.(spare := p.spare[..|p.spare| - 1])
  }

  // The lists may change as long as they name the right chunks.
  lemma ListsChange(p: State, z: State, size: nat)
    requires Admissible(size) && Inv(p, size) && ListsOk(z)
    requires z == p.(spare := z.spare, current := z.current)
    ensures Inv(z, size)
  {
    forall c | c in z.chunks ensures ChunkOk(z, size, c) {
      assert ChunkOk(p, size, c);
      assert FreedOf(z, size, c) == FreedOf(p, size, c);
      forall k | 0 <= k < z.chunks[c].used ensures OnePlace(z, Obj(size, c, k)) { assert OnePlace(p, Obj(size, c, k)); }
    }
    forall x | x in z.live || x in z.cache || x in z.freed ensures Known(z, size, x) { KnownFrame(p, z, size, x); }
  }

  // Every chunk can still be used: it is the current one or a spare one, or all its objects have been handed out and not all
  // retired.  None stays behind with all of them retired.
  ghost predicate NoChunkLost(p: State, size: nat)
    requires size > 0
  {
    forall c :: c in p.chunks ==>
      && p.chunks[c].free < ObjectNum(size)
      && (c == p.current || c in p.spare || p.chunks[c].used == ObjectNum(size))
  }

  /** A chunk that is neither current nor spare has an object that is live or cached. */
  lemma ChunkInUse(p: State, size: nat, c: Addr)
    requires Admissible(size) && Inv(p, size) && NoChunkLost(p, size) && c in p.chunks && c != p.current && c !in p.spare
    ensures LiveOf(p, size, c) + CachedOf(p, size, c) != {}
  {
    assert ChunkOk(p, size, c);
    hide Inv;
    UsedIsSum(p, size, c);
  }

  class TlsObjectPool {
    const size: nat
    const limit: nat            // room in the cache of returned objects
    var chunks: map<Addr, Chunk>
    var current: Addr
    var cache: seq<Addr>
    var spare: seq<Addr>
    ghost var live: set<Addr>
    ghost var freed: set<Addr>

    constructor (objectSize: nat, cacheSize: nat)
      requires Admissible(objectSize)
      ensures Valid() && size == objectSize && limit == cacheSize && live == {}
    {
      size, limit := objectSize, cacheSize;
      chunks, current, cache, spare, live, freed := map[], 0, [], [], {}, {};
    }

    ghost function Abs(): State
      reads this
    {
      State(chunks, current, cache, spare, live, freed)
    }

    ghost predicate Valid()
      reads this
    {
      Admissible(size) && Inv(Abs(), size) && NoChunkLost(Abs(), size) && |cache| <= limit && |spare| <= FREE_CHUNKS
    }

    /** An object nobody holds, or null when a new chunk is needed and cannot be had; mem is what the allocator returns:
     *  null, or an unused address aligned to the chunk size. */
    method GetOrNewObject(mem: Addr) returns (o: Addr)
      requires Valid() && (mem != 0 ==> mem !in chunks && mem % ChunkSize(size) == 0)
      modifies this
      ensures Valid()
      ensures o == 0 ==> Abs() == old(Abs())
      ensures o == 0 <==> old(cache == [] && spare == [] && (current == 0 || chunks[current].used == ObjectNum(size))) && mem == 0
      ensures o != 0 ==> o !in old(live) && live == old(live) + {o}
      ensures old(cache) != [] ==> o == old(cache)[|old(cache)| - 1] && chunks == old(chunks)
    {
      hide Inv;
      hide NoChunkLost;
      hide ChunkSize;
      hide ObjectNum;
      Sizing(size);
      ghost var p := Abs();
      SameChunksKept(p, size);
      NoNullChunk(p, size);
      if |cache| > 0 {
        FromCacheKeeps(p, size);
        CachedNotNull(p, size);
        o := cache[|cache| - 1];
        assert o in p.cache;
        cache := cache[..|cache| - 1];
        live := live + {o};
        return;
      }
      CurrentInChunks(p, size);
      if current != 0 && chunks[current].used < ObjectNum(size) {
        o := AllocObject();
        return;
      }
      if spare != [] {
        TakeSpare(p, size);
        current := spare[|spare| - 1];
        spare := spare[..|spare| - 1];
        assert Abs() == Unspared(p).(current := p.spare[|p.spare| - 1]);
        assert p.spare == spare + [current];
        SwitchKeeps(p, Abs(), size);
        o := AllocObject();
        return;
      }
      if mem == 0 { return 0; }
      WithChunkKeeps(p, size, mem);
      chunks := chunks[mem := Chunk(0, 0)];
      current := mem;
      assert Abs() == WithChunk(p, mem);
      SwitchKeeps(p, Abs(), size);
      o := AllocObject();
    }

    // The next unused object of the current chunk.
    method AllocObject() returns (o: Addr)
      requires Valid() && current in chunks && chunks[current].used < ObjectNum(size) && current !in spare
      modifies this`chunks, this`live
      ensures Valid() && o != 0 && o !in old(live) && live == old(live) + {o}
    {
      hide Inv;
      hide ChunkSize;
      hide ObjectNum;
      hide Obj;
      hide NoChunkLost;
      ghost var p := Abs();
      AllocKeeps(p, size);
      FromChunkKeeps(p, size, current);
      NextIsNew(p, size, current);
      o := Obj(size, current, chunks[current].used);
      chunks := chunks[current := chunks[current].(used := chunks[current].used + 1)];
      live := live + {o};
      assert Abs() == FromChunk(p, size, current);
    }

    /** A user gives an object back: to the cache while there is room, else to its chunk; a chunk all of whose objects have
     *  come back that way starts over or is released. */
    method ReturnOrFreeObject(o: Addr)
      requires Valid() && o in live
      modifies this
      ensures Valid() && live == old(live) - {o} && current == old(current)
      ensures |old(cache)| < limit ==> cache == old(cache) + [o] && chunks == old(chunks) && spare == old(spare)
      ensures |old(cache)| >= limit ==>
        && cache == old(cache)
        && var c := Base(size, o);
        && c in old(chunks) && (forall d :: d != c ==> (d in chunks <==> d in old(chunks)) && (d in chunks ==> chunks[d] == old(chunks)[d]))
        && (c in chunks ==> chunks[c] == old(chunks)[c].(free := old(chunks)[c].free + 1) || chunks[c] == Chunk(0, 0))
        && (old(chunks)[c].free + 1 == ObjectNum(size) ==>
             && (c in chunks <==> c == current || |old(spare)| < FREE_CHUNKS)
             && (c in chunks ==> chunks[c] == Chunk(0, 0)) && (c in chunks && c != current ==> spare == old(spare) + [c]))
    {
      hide Inv;
      hide ChunkSize;
      hide ObjectNum;
      ghost var p := Abs();
      var c := Base(size, o);
      if |cache| < limit {
        ToCacheKeeps(p, size, o);
        cache := cache + [o];
        live := live - {o};
        return;
      }
      RetiredKeeps(p, size, o);
      live, freed := live - {o}, freed + {o};
      chunks := chunks[c := chunks[c].(free := chunks[c].free + 1)];
      ghost var q := Abs();
      assert q == Retired(p, size, o, c);
      if chunks[c].free == ObjectNum(size) {
        EmptiedKeeps(q, size, c, current == c || |spare| < FREE_CHUNKS);
        freed := Emptied(q, size, c, true).freed;
        if current == c {
          chunks := chunks[c := Chunk(0, 0)];
          assert Abs() == Emptied(q, size, c, true);
        } else if |spare| < FREE_CHUNKS {
          chunks := chunks[c := Chunk(0, 0)];
          assert Abs() == Emptied(q, size, c, true);
          SparedKeeps(Abs(), size, c);
          spare := spare + [c];
        } else {
          chunks := chunks - {c};
          assert Abs() == Emptied(q, size, c, false);
        }
      }
    }
  }

  lemma CachedNotNull(p: State, size: nat)
    requires Admissible(size) && Inv(p, size)
    ensures forall o :: o in p.cache ==> o != 0
  {
    hide Obj;
    hide ObjectNum;
    hide ChunkSize;
    forall o | o in p.cache ensures o != 0 {
      assert Known(p, size, o);
      var c, k :| IsObject(p, size, o, c, k);
    }
  }

  lemma CurrentInChunks(p: State, size: nat)
    requires Admissible(size) && Inv(p, size)
    ensures p.current != 0 ==>
      p.current in p.chunks && p.current !in p.spare && p.chunks[p.current].used <= ObjectNum(size)
  {
    hide ObjectNum;
    assert p.current != 0 ==> ChunkOk(p, size, p.current);
  }

  lemma SameChunksKept(p: State, size: nat)
    requires size > 0 && NoChunkLost(p, size)
    ensures forall z: State :: z.chunks == p.chunks && z.current == p.current && z.spare == p.spare ==> NoChunkLost(z, size)
  {
    hide ObjectNum;
  }

  // Another chunk becomes the current one, the one before having been used up.
  lemma SwitchKeeps(p: State, z: State, size: nat)
    requires size > 0 && NoChunkLost(p, size) && ObjectNum(size) > 0
    requires p.current != 0 ==> p.current in p.chunks && p.chunks[p.current].used == ObjectNum(size)
    requires 0 !in p.chunks && z == p.(chunks := z.chunks, current := z.current, spare := z.spare)
    requires forall c :: c in z.chunks ==> if c in p.chunks then z.chunks[c] == p.chunks[c] else c == z.current && z.chunks[c].free == 0
    requires forall c :: c in p.spare ==> c in z.spare || c == z.current
    ensures NoChunkLost(z, size)
  {
    hide ObjectNum;
  }

  lemma NoNullChunk(p: State, size: nat)
    requires Admissible(size) && Inv(p, size)
    ensures 0 !in p.chunks
  {
    hide ObjectNum;
    hide ChunkSize;
    forall c | c in p.chunks ensures c != 0 { assert ChunkOk(p, size, c); }
  }

  lemma AllocKeeps(p: State, size: nat)
    requires size > 0 && NoChunkLost(p, size) && p.current in p.chunks && p.current !in p.spare
    ensures NoChunkLost(FromChunk(p, size, p.current), size)
  {
    hide ObjectNum;
    hide Obj;
  }

  lemma TakeSpare(p: State, size: nat)
    requires Admissible(size) && Inv(p, size) && p.spare != []
    ensures var c := p.spare[|p.spare| - 1];
      && c in p.chunks && p.chunks[c].used == 0 && c !in Unspared(p).spare
      && Inv(Unspared(p).(current := c), size)
  {
    var n := |p.spare| - 1;
    var c := p.spare[n];
    assert p.spare == p.spare[..n] + [c] && c in p.spare;
    ListsChange(p, Unspared(p).(current := c), size);
  }

  lemma SparedKeeps(p: State, size: nat, c: Addr)
    requires Admissible(size) && Inv(p, size) && c in p.chunks && p.chunks[c].used == 0 && c != p.current && c !in p.spare
    ensures Inv(Spared(p, c), size)
  {
    ListsChange(p, Spared(p, c), size);
  }
}
