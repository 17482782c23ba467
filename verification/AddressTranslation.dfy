/** Virtual to physical addresses: a global table of pages of four sizes, a table per thread in front of it, and
 *  the loop that splits a buffer at page boundaries.
 */
module AddressTranslation {
  import opened BlockLayout
  import opened Common

  datatype AlignType = Page4Kb | Page2Mb | Page1Gb | Page512Mb

  datatype PhysChunk = PhysChunk(start: Addr, phys: nat, typ: AlignType)

  type Table = map<Addr, PhysChunk>
  type Thread = nat

  function PageSize(typ: AlignType): (n: nat)
    ensures n > 0
  {
    match typ
    case Page4Kb => 0x1000
    case Page2Mb => 0x20_0000
    case Page512Mb => 0x2000_0000
    case Page1Gb => 0x4000_0000
  }

  function TypeOfSize(size: nat): Option<AlignType> {
    if size == 0x1000 then Some(Page4Kb)
    else if size == 0x20_0000 then Some(Page2Mb)
    else if size == 0x4000_0000 then Some(Page1Gb)
    else if size == 0x2000_0000 then Some(Page512Mb)
    else None
  }

  function AlignPage(a: Addr, typ: AlignType): Addr { a - a % PageSize(typ) }

  function End(p: PhysChunk): Addr { p.start + PageSize(p.typ) }

  predicate Covers(p: PhysChunk, a: Addr) { p.start <= a < End(p) }

  predicate Disjoint(p: PhysChunk, q: PhysChunk) { End(p) <= q.start || End(q) <= p.start }

  predicate Aligned(p: PhysChunk) { p.start % PageSize(p.typ) == 0 && p.phys > 0 }

  ghost predicate WellFormed(tb: Table) {
    && (forall k :: k in tb ==> tb[k].start == k && Aligned(tb[k]))
    && (forall j, k :: j in tb && k in tb && j != k ==> Disjoint(tb[j], tb[k]))
  }

  predicate Has(tb: Table, p: PhysChunk) { p.start in tb && tb[p.start] == p }

  // Pointwise translation: a is q, by some page of the table.
  ghost predicate Translates(tb: Table, a: Addr, q: nat) {
    exists p :: Has(tb, p) && Covers(p, a) && q == p.phys + (a - p.start)
  }

  ghost predicate Covered(tb: Table, a: Addr) { exists p :: Has(tb, p) && Covers(p, a) }

  lemma OnePage(tb: Table, a: Addr, p: PhysChunk, q: PhysChunk)
    requires WellFormed(tb) && Has(tb, p) && Has(tb, q) && Covers(p, a) && Covers(q, a)
    ensures p == q
  {
  }

  lemma TranslationIsUnique(tb: Table, a: Addr, q: nat, r: nat)
    requires WellFormed(tb) && Translates(tb, a, q) && Translates(tb, a, r)
    ensures q == r
  {
    var p :| Has(tb, p) && Covers(p, a) && q == p.phys + (a - p.start);
    var s :| Has(tb, s) && Covers(s, a) && r == s.phys + (a - s.start);
    OnePage(tb, a, p, s);
  }

  // A page is found where its own size puts it.
  lemma AlignFinds(p: PhysChunk, a: Addr)
    requires Aligned(p)
    ensures Covers(p, a) <==> AlignPage(a, p.typ) == p.start
  {
    AlignTo(p.start, a, PageSize(p.typ));
  }

  lemma AlignTo(start: Addr, a: Addr, n: nat)
    requires n > 0 && start % n == 0
    ensures start <= a < start + n <==> a - a % n == start
  {
    if start <= a < start + n { ModIs(a, n, start / n, a - start); }
  }

  /** The lookup tries the sizes in the given order. */
  method TableLookUp(tb: Table, a: Addr, order: seq<AlignType>) returns (r: Option<PhysChunk>)
    requires WellFormed(tb)
    ensures r.Some? ==> Has(tb, r.value) && Covers(r.value, a)
    ensures r.None? ==> forall p :: Has(tb, p) && Covers(p, a) ==> p.typ !in order
  {
    for i := 0 to |order|
      invariant forall p :: Has(tb, p) && Covers(p, a) ==> p.typ !in order[..i]
    {
      var k := AlignPage(a, order[i]);
      if k in tb && tb[k].typ == order[i] {
        AlignFinds(tb[k], a);
        return Some(tb[k]);
      }
      forall p | Has(tb, p) && Covers(p, a) ensures p.typ !in order[..i + 1] { AlignFinds(p, a); }
    }
    return None;
  }

  ghost predicate AllTypes(order: seq<AlignType>) { forall typ: AlignType :: typ in order }

  const DEFAULT_ORDER: seq<AlignType> := [Page2Mb, Page512Mb, Page1Gb, Page4Kb]

  lemma DefaultOrderIsComplete()
    ensures AllTypes(DEFAULT_ORDER)
  {
    forall typ: AlignType ensures typ in DEFAULT_ORDER {
      match typ {
        case Page4Kb => assert DEFAULT_ORDER[3] == typ;
        case Page2Mb => assert DEFAULT_ORDER[0] == typ;
        case Page512Mb => assert DEFAULT_ORDER[1] == typ;
        case Page1Gb => assert DEFAULT_ORDER[2] == typ;
      }
    }
  }

  // ----- splitting a buffer -----

  // The page covers some byte of [a, a + len).
  predicate Over(p: PhysChunk, a: Addr, len: nat) { 0 < len && p.start < a + len && a < End(p) }

  // The pages that do.
  ghost function PagesOver(tb: Table, a: Addr, len: nat): set<PhysChunk> {
    set k | k in tb && Over(tb[k], a, len) :: tb[k]
  }

  ghost predicate AllCovered(tb: Table, a: Addr, len: nat) {
    forall x :: a <= x < a + len ==> Covered(tb, x)
  }

  // One segment: inside one page, at that page's physical address.
  ghost predicate Segment(tb: Table, a: Addr, size: nat, phys: nat) {
    && size > 0
    && exists p :: Has(tb, p) && p.start <= a && a + size <= End(p) && phys == p.phys + (a - p.start)
  }

  // Segments one after the other from a on.
  ghost predicate Segments(tb: Table, a: Addr, sizes: seq<nat>, phys: seq<nat>) {
    && |sizes| == |phys|
    && forall k :: 0 <= k < |sizes| ==> Segment(tb, a + Sum(sizes[..k]), sizes[k], phys[k])
  }

  /** Every byte of a segment translates as it would alone. */
  lemma SegmentTranslates(tb: Table, a: Addr, size: nat, phys: nat, i: nat)
    requires Segment(tb, a, size, phys) && i < size
    ensures Translates(tb, a + i, phys + i)
  {
    var p :| Has(tb, p) && p.start <= a && a + size <= End(p) && phys == p.phys + (a - p.start);
    assert Has(tb, p) && Covers(p, a + i);
  }

  // a is the start of the buffer, or a page ends there.
  ghost predicate Boundary(tb: Table, a: Addr, cur: Addr) {
    cur == a || exists q :: Has(tb, q) && q.start < cur && End(q) == cur
  }

  // Nothing before a boundary is in a page that covers it.
  lemma StartsHere(tb: Table, a: Addr, cur: Addr, p: PhysChunk)
    requires WellFormed(tb) && Has(tb, p) && Boundary(tb, a, cur) && a < cur && Covers(p, cur)
    ensures p.start == cur
  {
    var q :| Has(tb, q) && q.start < cur && End(q) == cur;
    assert q.start in tb && p.start in tb && tb[q.start] == q && tb[p.start] == p;
  }

  // Another page is over the longer stretch if and only if it is over the shorter.
  lemma OtherPage(tb: Table, a: Addr, cur: Addr, size: nat, p: PhysChunk, k: Addr)
    requires WellFormed(tb) && Has(tb, p) && a <= cur && size > 0 && p.start <= cur && cur + size <= End(p)
    requires (a < cur ==> p.start == cur) && k in tb && k != p.start
    ensures Over(tb[k], a, cur + size - a) <==> Over(tb[k], a, cur - a)
  {
    assert Disjoint(tb[k], p);
  }

  // A piece that lies in the page p and begins at a boundary adds just p to the pages so far.
  lemma NextPage(tb: Table, a: Addr, cur: Addr, size: nat, p: PhysChunk)
    requires WellFormed(tb) && Has(tb, p) && a <= cur && Boundary(tb, a, cur) && size > 0
    requires p.start <= cur && cur + size <= End(p)
    ensures p !in PagesOver(tb, a, cur - a)
    ensures PagesOver(tb, a, cur + size - a) == PagesOver(tb, a, cur - a) + {p}
    ensures |PagesOver(tb, a, cur + size - a)| == |PagesOver(tb, a, cur - a)| + 1
  {
    if a < cur { StartsHere(tb, a, cur, p); }
    forall k | k in tb && k != p.start
      ensures tb[k] != p && (Over(tb[k], a, cur + size - a) <==> Over(tb[k], a, cur - a))
    {
      KeyIsStart(tb, k);
      OtherPage(tb, a, cur, size, p, k);
    }
    hide WellFormed;
    hide Boundary;
    assert p in PagesOver(tb, a, cur + size - a) by { assert p.start in tb && tb[p.start] == p; }
  }

  lemma KeyIsStart(tb: Table, k: Addr)
    requires WellFormed(tb) && k in tb
    ensures tb[k].start == k
  {
  }

  // As the table grows, the pages over a stretch that is already covered stay the same.
  lemma PagesStay(tb: Table, more: Table, a: Addr, len: nat)
    requires WellFormed(more) && SubTable(tb, more) && AllCovered(tb, a, len)
    ensures PagesOver(more, a, len) == PagesOver(tb, a, len)
  {
    forall q | q in PagesOver(more, a, len) ensures q in PagesOver(tb, a, len) {
      var x := if q.start < a then a else q.start;
      assert Covered(tb, x);
      var p :| Has(tb, p) && Covers(p, x);
      assert Has(more, p);
      OnePage(more, x, p, q);
    }
  }

  lemma CoverGrows(tb: Table, more: Table, a: Addr, len: nat)
    requires SubTable(tb, more) && AllCovered(tb, a, len)
    ensures AllCovered(more, a, len)
  {
    forall x | a <= x < a + len ensures Covered(more, x) {
      assert Covered(tb, x);
      var p :| Has(tb, p) && Covers(p, x);
      assert Has(more, p);
    }
  }

  lemma SegmentsGrow(tb: Table, more: Table, a: Addr, sizes: seq<nat>, phys: seq<nat>)
    requires SubTable(tb, more) && Segments(tb, a, sizes, phys)
    ensures Segments(more, a, sizes, phys)
  {
    forall k | 0 <= k < |sizes| ensures Segment(more, a + Sum(sizes[..k]), sizes[k], phys[k]) {
      var x := a + Sum(sizes[..k]);
      assert Segment(tb, x, sizes[k], phys[k]);
      var p :| Has(tb, p) && p.start <= x && x + sizes[k] <= End(p) && phys[k] == p.phys + (x - p.start);
      assert Has(more, p);
    }
  }

  // If the rest is covered as well, there is at least one page more.
  lemma OnePageMore(tb: Table, a: Addr, cur: Addr, len: nat)
    requires WellFormed(tb) && a <= cur < a + len && Boundary(tb, a, cur) && Covered(tb, cur)
    ensures |PagesOver(tb, a, len)| > |PagesOver(tb, a, cur - a)|
  {
    var p :| Has(tb, p) && Covers(p, cur);
    NextPage(tb, a, cur, 1, p);
    SubsetCount(PagesOver(tb, a, cur - a) + {p}, PagesOver(tb, a, len));
  }

  // ----- the manager -----

  predicate SubTable(s: Table, tb: Table) { forall k :: k in s ==> k in tb && tb[k] == s[k] }

  lemma SubTableIsWellFormed(s: Table, tb: Table)
    requires SubTable(s, tb) && WellFormed(tb)
    ensures WellFormed(s)
  {
  }

  // What a caller registers: len bytes from addr on, in pages of pageSize.
  datatype MemoryInfo = MemoryInfo(addr: Addr, len: nat, pageSize: nat)

  predicate Accepted(info: MemoryInfo) {
    && info.addr != 0 && info.len != 0
    && (info.pageSize == 0x4000_0000 || info.pageSize == 0x20_0000 || info.pageSize == 0x2000_0000)
    && info.addr % info.pageSize == 0 && info.len % info.pageSize == 0
  }

  // Page i of a region.
  function PageOf(info: MemoryInfo, i: nat): PhysChunk
    requires TypeOfSize(info.pageSize).Some?
  {
    PhysChunk(info.addr + i * info.pageSize, 0, TypeOfSize(info.pageSize).value)
  }

  function PagesOfInfo(info: MemoryInfo): (s: seq<PhysChunk>)
    requires Accepted(info)
    ensures |s| == info.len / info.pageSize
  {
    seq(info.len / info.pageSize, i requires i >= 0 => PageOf(info, i))
  }

  function PagesOf(infos: seq<MemoryInfo>): seq<PhysChunk>
    requires forall j :: 0 <= j < |infos| ==> Accepted(infos[j])
  {
    if infos == [] then [] else PagesOf(infos[..|infos| - 1]) + PagesOfInfo(infos[|infos| - 1])
  }

  lemma {:induction false} PagesAligned(infos: seq<MemoryInfo>, i: nat)
    requires (forall j :: 0 <= j < |infos| ==> Accepted(infos[j])) && i < |PagesOf(infos)|
    ensures PagesOf(infos)[i].start % PageSize(PagesOf(infos)[i].typ) == 0
    decreases |infos|
  {
    var n := |infos| - 1;
    var before := PagesOf(infos[..n]);
    if i < |before| {
      PagesAligned(infos[..n], i);
    } else {
      PageIsAligned(infos[n], i - |before|);
      assert PagesOf(infos)[i] == PageOf(infos[n], i - |before|);
    }
  }

  lemma PageIsAligned(info: MemoryInfo, i: nat)
    requires Accepted(info)
    ensures PageSize(PageOf(info, i).typ) == info.pageSize && PageOf(info, i).start % info.pageSize == 0
  {
    SizeOfType(info);
    hide PageSize;
    hide TypeOfSize;
    MultipleAgain(info.addr, info.pageSize, i);
  }

  lemma SizeOfType(info: MemoryInfo)
    requires Accepted(info)
    ensures TypeOfSize(info.pageSize).Some? && PageSize(TypeOfSize(info.pageSize).value) == info.pageSize > 0
  {
  }

  // ----- what registering regions means, by their numbers alone -----

  function PageNum(info: MemoryInfo): nat { if info.pageSize == 0 then 0 else info.len / info.pageSize }

  // The pages of the first j regions; page i of region j has number PagesBefore(infos, j) + i.
  function PagesBefore(infos: seq<MemoryInfo>, j: nat): nat
    requires j <= |infos|
  {
    if j == 0 then 0 else PagesBefore(infos, j - 1) + PageNum(infos[j - 1])
  }

  predicate InRegionOf(info: MemoryInfo, a: Addr) { info.addr <= a < info.addr + info.len }

  // The regions overlap neither each other nor the table.
  ghost predicate Clear(tb: Table, infos: seq<MemoryInfo>) {
    && (forall j, k :: 0 <= j < |infos| && k in tb ==>
         infos[j].addr + infos[j].len <= tb[k].start || End(tb[k]) <= infos[j].addr)
    && (forall i, j :: 0 <= i < j < |infos| ==>
         infos[i].addr + infos[i].len <= infos[j].addr || infos[j].addr + infos[j].len <= infos[i].addr)
  }

  // Byte d of region j is byte d mod pageSize of its page.
  ghost predicate ByteTranslates(tb: Table, infos: seq<MemoryInfo>, phys: seq<nat>, j: nat, d: nat)
    requires j < |infos| && Accepted(infos[j])
  {
    var size := infos[j].pageSize;
    var n := PagesBefore(infos, j) + d / size;
    n < |phys| && Translates(tb, infos[j].addr + d, phys[n] + d % size)
  }

  ghost predicate Outside(infos: seq<MemoryInfo>, a: Addr) { forall j :: 0 <= j < |infos| ==> !InRegionOf(infos[j], a) }

  ghost predicate Registers(tb: Table, infos: seq<MemoryInfo>, phys: seq<nat>, more: Table)
    requires forall i :: 0 <= i < |infos| ==> Accepted(infos[i])
  {
    && (forall j, d :: 0 <= j < |infos| && 0 <= d < infos[j].len ==> ByteTranslates(more, infos, phys, j, d))
    && (forall a, q :: Outside(infos, a) ==> (Translates(more, a, q) <==> Translates(tb, a, q)))
  }

  lemma {:induction false} PageCount(infos: seq<MemoryInfo>, j: nat)
    requires j <= |infos| && forall i :: 0 <= i < |infos| ==> Accepted(infos[i])
    ensures |PagesOf(infos[..j])| == PagesBefore(infos, j)
  {
    if j > 0 {
      PageCount(infos, j - 1);
      assert infos[..j][..j - 1] == infos[..j - 1];
    }
  }

  // Page i of region j.
  lemma {:induction false} PageAt(infos: seq<MemoryInfo>, n: nat, j: nat, i: nat)
    requires j < n <= |infos| && (forall k :: 0 <= k < |infos| ==> Accepted(infos[k])) && i < PageNum(infos[j])
    ensures var x := PagesBefore(infos, j) + i; x < |PagesOf(infos[..n])| && PagesOf(infos[..n])[x] == PageOf(infos[j], i)
  {
    PageCount(infos, n - 1);
    assert infos[..n][..n - 1] == infos[..n - 1] && infos[..n][n - 1] == infos[n - 1];
    if j < n - 1 { PageAt(infos, n - 1, j, i); }
  }

  // Every page is page i of some region.
  lemma {:induction false} PageFrom(infos: seq<MemoryInfo>, n: nat, x: nat) returns (j: nat, i: nat)
    requires n <= |infos| && (forall k :: 0 <= k < |infos| ==> Accepted(infos[k])) && x < |PagesOf(infos[..n])|
    ensures j < n && i < PageNum(infos[j]) && x == PagesBefore(infos, j) + i
    ensures PagesOf(infos[..n])[x] == PageOf(infos[j], i)
  {
    PageCount(infos, n - 1);
    assert infos[..n][..n - 1] == infos[..n - 1] && infos[..n][n - 1] == infos[n - 1];
    if x < PagesBefore(infos, n - 1) {
      j, i := PageFrom(infos, n - 1, x);
    } else {
      j, i := n - 1, x - PagesBefore(infos, n - 1);
    }
  }

  // Page i lies inside its region, apart from the other pages of it.
  lemma PageWithin(info: MemoryInfo, i: nat)
    requires Accepted(info) && i < PageNum(info)
    ensures var p := PageOf(info, i);
      p.start == info.addr + i * info.pageSize && End(p) == p.start + info.pageSize && End(p) <= info.addr + info.len
  {
    SizeOfType(info);
    hide PageSize;
    hide TypeOfSize;
    var n := PageNum(info);
    assert info.len == n * info.pageSize + info.len % info.pageSize;
    Times(i + 1, n, info.pageSize);
    assert (i + 1) * info.pageSize == i * info.pageSize + info.pageSize;
  }

  lemma PagesOfOneApart(info: MemoryInfo, i: nat, j: nat)
    requires Accepted(info) && i < j < PageNum(info)
    ensures End(PageOf(info, i)) <= PageOf(info, j).start
  {
    PageWithin(info, i);
    Times(i + 1, j, info.pageSize);
    assert (i + 1) * info.pageSize == i * info.pageSize + info.pageSize;
  }

  lemma ClearPages(tb: Table, infos: seq<MemoryInfo>)
    requires (forall k :: 0 <= k < |infos| ==> Accepted(infos[k])) && Clear(tb, infos)
    ensures FreshPages(tb, PagesOf(infos))
  {
    hide PagesOf;
    hide Accepted;
    hide Disjoint;
    var pages := PagesOf(infos);
    forall x, k | 0 <= x < |pages| && k in tb ensures Disjoint(pages[x], tb[k]) { PageClear(tb, infos, x, k); }
    forall x, y | 0 <= x < y < |pages| ensures Disjoint(pages[x], pages[y]) {
      PagesApart(infos, x, y);
    }
  }

  lemma PageClear(tb: Table, infos: seq<MemoryInfo>, x: nat, k: Addr)
    requires (forall k :: 0 <= k < |infos| ==> Accepted(infos[k])) && x < |PagesOf(infos)| && k in tb
    requires forall j :: 0 <= j < |infos| ==> infos[j].addr + infos[j].len <= tb[k].start || End(tb[k]) <= infos[j].addr
    ensures Disjoint(PagesOf(infos)[x], tb[k])
  {
    hide PagesOf;
    hide PageOf;
    hide Accepted;
    assert infos[..|infos|] == infos;
    var j, i := PageFrom(infos, |infos|, x);
    PageWithin(infos[j], i);
  }

  lemma PagesApart(infos: seq<MemoryInfo>, x: nat, y: nat)
    requires (forall k :: 0 <= k < |infos| ==> Accepted(infos[k])) && x < y < |PagesOf(infos)|
    requires forall a, b :: 0 <= a < b < |infos| ==>
      infos[a].addr + infos[a].len <= infos[b].addr || infos[b].addr + infos[b].len <= infos[a].addr
    ensures Disjoint(PagesOf(infos)[x], PagesOf(infos)[y])
  {
    hide PagesOf;
    hide PageOf;
    hide Accepted;
    hide Disjoint;
    assert infos[..|infos|] == infos;
    var j, i := PageFrom(infos, |infos|, x);
    var m, l := PageFrom(infos, |infos|, y);
    TwoPagesApart(infos, j, i, m, l);
  }

  lemma TwoPagesApart(infos: seq<MemoryInfo>, j: nat, i: nat, m: nat, l: nat)
    requires j < |infos| && m < |infos| && Accepted(infos[j]) && Accepted(infos[m]) && (j, i) != (m, l)
    requires i < PageNum(infos[j]) && l < PageNum(infos[m])
    requires forall a, b :: 0 <= a < b < |infos| ==>
      infos[a].addr + infos[a].len <= infos[b].addr || infos[b].addr + infos[b].len <= infos[a].addr
    ensures Disjoint(PageOf(infos[j], i), PageOf(infos[m], l))
  {
    hide Accepted;
    hide PageOf;
    if j == m {
      if i < l { PagesOfOneApart(infos[j], i, l); } else { PagesOfOneApart(infos[j], l, i); }
    } else {
      PageWithin(infos[j], i);
      PageWithin(infos[m], l);
    }
  }

  // The table afterwards.
  lemma AddedRegisters(tb: Table, infos: seq<MemoryInfo>, phys: seq<nat>, more: Table)
    requires (forall k :: 0 <= k < |infos| ==> Accepted(infos[k])) && |phys| == |PagesOf(infos)| && SubTable(tb, more)
    requires forall k :: k in more && k !in tb ==> more[k] in Filled(PagesOf(infos), phys)
    requires forall p :: p in Filled(PagesOf(infos), phys) ==> Has(more, p)
    requires forall k :: k in more ==> more[k].start == k
    ensures Registers(tb, infos, phys, more)
  {
    hide PagesOf;
    hide Accepted;
    hide ByteTranslates;
    hide Translates;
    hide Outside;
    forall j, d | 0 <= j < |infos| && 0 <= d < infos[j].len ensures ByteTranslates(more, infos, phys, j, d) {
      AddedByte(infos, phys, more, j, d);
    }
    forall a, q | Outside(infos, a) ensures Translates(more, a, q) <==> Translates(tb, a, q) {
      AddedOutside(tb, infos, phys, more, a, q);
    }
  }

  lemma AddedByte(infos: seq<MemoryInfo>, phys: seq<nat>, more: Table, j: nat, d: nat)
    requires (forall k :: 0 <= k < |infos| ==> Accepted(infos[k])) && |phys| == |PagesOf(infos)|
    requires forall p :: p in Filled(PagesOf(infos), phys) ==> Has(more, p)
    requires j < |infos| && d < infos[j].len
    ensures ByteTranslates(more, infos, phys, j, d)
  {
    hide PagesOf;
    var info := infos[j];
    var size := info.pageSize;
    var i, n := d / size, PagesBefore(infos, j) + d / size;
    InPage(info, d);
    hide Accepted;
    assert infos[..|infos|] == infos;
    PageAt(infos, |infos|, j, i);
    PageWithin(info, i);
    var p := Filled(PagesOf(infos), phys)[n];
    assert p in Filled(PagesOf(infos), phys);
    assert p == PageOf(info, i).(phys := phys[n]);
    assert Has(more, p) && Covers(p, info.addr + d) && phys[n] + d % size == p.phys + (info.addr + d - p.start);
  }

  lemma InPage(info: MemoryInfo, d: nat)
    requires Accepted(info) && d < info.len
    ensures d / info.pageSize < PageNum(info)
    ensures d == d / info.pageSize * info.pageSize + d % info.pageSize && 0 <= d % info.pageSize < info.pageSize
  {
    var size := info.pageSize;
    var n, i := PageNum(info), d / size;
    assert info.len == n * size + info.len % size && d == i * size + d % size;
    Times(n, i, size);
  }

  lemma AddedOutside(tb: Table, infos: seq<MemoryInfo>, phys: seq<nat>, more: Table, a: Addr, q: nat)
    requires (forall k :: 0 <= k < |infos| ==> Accepted(infos[k])) && |phys| == |PagesOf(infos)| && SubTable(tb, more)
    requires forall k :: k in more && k !in tb ==> more[k] in Filled(PagesOf(infos), phys)
    requires Outside(infos, a)
    ensures Translates(more, a, q) <==> Translates(tb, a, q)
  {
    hide PagesOf;
    hide Accepted;
    if Translates(tb, a, q) {
      var p :| Has(tb, p) && Covers(p, a) && q == p.phys + (a - p.start);
      assert Has(more, p);
    }
    if Translates(more, a, q) {
      var p :| Has(more, p) && Covers(p, a) && q == p.phys + (a - p.start);
      if p.start !in tb { NewPageInside(infos, phys, p, a); }
      assert Has(tb, p);
    }
  }

  lemma NewPageInside(infos: seq<MemoryInfo>, phys: seq<nat>, p: PhysChunk, a: Addr)
    requires (forall k :: 0 <= k < |infos| ==> Accepted(infos[k])) && |phys| == |PagesOf(infos)|
    requires p in Filled(PagesOf(infos), phys) && Covers(p, a)
    ensures !Outside(infos, a)
  {
    hide PagesOf;
    hide Accepted;
    assert infos[..|infos|] == infos;
    var x :| 0 <= x < |phys| && Filled(PagesOf(infos), phys)[x] == p;
    var j, i := PageFrom(infos, |infos|, x);
    PageWithin(infos[j], i);
    assert InRegionOf(infos[j], a);
  }

  // Pages with their physical addresses.  // Pages with their physical addresses.
  function Filled(pages: seq<PhysChunk>, phys: seq<nat>): (s: seq<PhysChunk>)
    requires |pages| == |phys|
    ensures |s| == |pages|
  {
    seq(|pages|, i requires 0 <= i < |pages| => pages[i].(phys := phys[i]))
  }

  function Added(tb: Table, pages: seq<PhysChunk>): Table {
    if pages == [] then tb else Added(tb, pages[..|pages| - 1])[pages[|pages| - 1].start := pages[|pages| - 1]]
  }

  // Freshly registered pages overlap neither each other nor the table.
  ghost predicate FreshPages(tb: Table, pages: seq<PhysChunk>) {
    && (forall i, k :: 0 <= i < |pages| && k in tb ==> Disjoint(pages[i], tb[k]))
    && (forall i, j :: 0 <= i < j < |pages| ==> Disjoint(pages[i], pages[j]))
  }

  // What other threads register, batch by batch.
  ghost predicate Grows(tb: Table, news: seq<seq<PhysChunk>>)
    decreases |news|
  {
    news == [] ||
    (FreshPages(tb, news[0]) && (forall i :: 0 <= i < |news[0]| ==> Aligned(news[0][i])) && Grows(Added(tb, news[0]), news[1..]))
  }

  lemma KeysAreStarts(tb: Table)
    requires WellFormed(tb)
    ensures forall k :: k in tb ==> tb[k].start == k
  {
  }

  lemma AddOne(tb: Table, p: PhysChunk)
    requires WellFormed(tb) && Aligned(p) && forall k :: k in tb ==> Disjoint(tb[k], p)
    ensures WellFormed(tb[p.start := p]) && SubTable(tb, tb[p.start := p]) && p.start !in tb
  {
  }

  lemma {:induction false} AddedKeeps(tb: Table, pages: seq<PhysChunk>)
    requires WellFormed(tb) && FreshPages(tb, pages) && forall i :: 0 <= i < |pages| ==> Aligned(pages[i])
    ensures WellFormed(Added(tb, pages)) && SubTable(tb, Added(tb, pages))
    ensures forall k :: k in Added(tb, pages) && k !in tb ==> Added(tb, pages)[k] in pages
    ensures forall p :: p in pages ==> Has(Added(tb, pages), p)
  {
    hide WellFormed;
    if pages != [] {
      var n := |pages| - 1;
      var before, last := pages[..n], pages[n];
      AddedKeeps(tb, before);
      var mid := Added(tb, before);
      forall k | k in mid ensures Disjoint(mid[k], last) { AddedApart(tb, pages, mid, k); }
      hide FreshPages;
      hide Disjoint;
      AddOne(mid, last);
      assert pages == before + [last];
    }
  }

  lemma AddedApart(tb: Table, pages: seq<PhysChunk>, mid: Table, k: Addr)
    requires FreshPages(tb, pages) && pages != [] && SubTable(tb, mid) && k in mid
    requires k !in tb ==> mid[k] in pages[..|pages| - 1]
    ensures Disjoint(mid[k], pages[|pages| - 1])
  {
    if k !in tb { var i :| 0 <= i < |pages| - 1 && mid[k] == pages[..|pages| - 1][i]; assert mid[k] == pages[i]; }
  }

  /** `ValidateExternalMemInfo`. */
  method ValidateExternalMemInfo(info: MemoryInfo) returns (ok: bool)
    ensures ok <==> Accepted(info)
  {
    if info.addr == 0 { return false; }
    if info.len == 0 { return false; }
    if info.pageSize != 0x4000_0000 && info.pageSize != 0x20_0000 && info.pageSize != 0x2000_0000 { return false; }
    if info.addr % info.pageSize != 0 { return false; }
    if info.len % info.pageSize != 0 { return false; }
    return true;
  }

  // The pages of all regions, in order.
  method CollectPages(infos: seq<MemoryInfo>) returns (chunks: seq<PhysChunk>)
    requires forall j :: 0 <= j < |infos| ==> Accepted(infos[j])
    ensures chunks == PagesOf(infos)
  {
    chunks := [];
    for j := 0 to |infos|
      invariant chunks == PagesOf(infos[..j])
    {
      ghost var before := chunks;
      var n := infos[j].len / infos[j].pageSize;
      for i := 0 to n
        invariant chunks == before + PagesOfInfo(infos[j])[..i]
      {
        chunks := chunks + [PageOf(infos[j], i)];
      }
      assert infos[..j + 1][..j] == infos[..j];
    }
    assert infos[..|infos|] == infos;
  }

  // Fails at the first page whose physical address is unknown.
  method FillPhysAddr(pages: seq<PhysChunk>, phys: seq<nat>) returns (ok: bool, chunks: seq<PhysChunk>)
    requires |pages| == |phys|
    ensures ok <==> 0 !in phys
    ensures ok ==> chunks == Filled(pages, phys)
  {
    chunks := pages;
    for i := 0 to |chunks|
      invariant |chunks| == |pages| && 0 !in phys[..i]
      invariant forall x :: 0 <= x < |pages| ==> chunks[x] == if x < i then pages[x].(phys := phys[x]) else pages[x]
    {
      if phys[i] == 0 {
        assert 0 in phys;
        return false, chunks;
      }
      chunks := chunks[i := chunks[i].(phys := phys[i])];
    }
    assert phys[..|chunks|] == phys;
    return true, chunks;
  }

  lemma FilledFresh(tb: Table, infos: seq<MemoryInfo>, phys: seq<nat>)
    requires forall j :: 0 <= j < |infos| ==> Accepted(infos[j])
    requires |phys| == |PagesOf(infos)| && FreshPages(tb, PagesOf(infos)) && 0 !in phys
    ensures FreshPages(tb, Filled(PagesOf(infos), phys))
    ensures forall i :: 0 <= i < |phys| ==> Aligned(Filled(PagesOf(infos), phys)[i])
  {
    var pages, s := PagesOf(infos), Filled(PagesOf(infos), phys);
    forall i | 0 <= i < |phys| ensures Aligned(s[i]) { PagesAligned(infos, i); assert phys[i] in phys; }
  }

  class AddressManager {
    var global: Table
    var tls: map<Thread, Table>

    constructor ()
      ensures Valid() && global == map[]
    {
      global, tls := map[], map[];
    }

    // Every entry of every thread's table is one of the global table.
    ghost predicate Valid()
      reads this
    {
      WellFormed(global) && forall t :: t in tls ==> SubTable(tls[t], global)
    }

    method AddInternalEntry(chunk: PhysChunk)
      requires Valid() && chunk.typ != Page4Kb && Aligned(chunk)
      requires forall k :: k in global ==> Disjoint(chunk, global[k])
      modifies this`global
      ensures Valid() && global == old(global)[chunk.start := chunk] && SubTable(old(global), global)
    {
      global := global[chunk.start := chunk];
    }

    /** All pages of the given regions, or nothing.  `pinned` and `phys` are what the kernel says of the pages, in order;
     *  0 stands for an unknown physical address. */
    method AddExternalEntries(infos: seq<MemoryInfo>, pinned: bool, phys: seq<nat>) returns (ok: bool)
      requires Valid()
      requires (forall j :: 0 <= j < |infos| ==> Accepted(infos[j])) ==>
        |phys| == PagesBefore(infos, |infos|) && Clear(global, infos)
      modifies this`global
      ensures Valid()
      ensures ok <==> (forall j :: 0 <= j < |infos| ==> Accepted(infos[j])) && pinned && 0 !in phys
      ensures ok ==> SubTable(old(global), global) && Registers(old(global), infos, phys, global)
      ensures !ok ==> global == old(global)
    {
      hide PagesOf;
      hide Filled;
      hide Added;
      hide Accepted;
      hide WellFormed;
      hide Clear;
      hide Registers;
      hide FreshPages;
      hide Aligned;
      for j := 0 to |infos|
        invariant forall i :: 0 <= i < j ==> Accepted(infos[i])
        modifies {}
      {
        var valid := ValidateExternalMemInfo(infos[j]);
        if !valid { return false; }
      }
      var pages := CollectPages(infos);
      assert infos[..|infos|] == infos;
      PageCount(infos, |infos|);
      if !pinned { return false; }
      var filled, chunks := FillPhysAddr(pages, phys);
      if !filled { return false; }
      ClearPages(global, infos);
      FilledFresh(global, infos, phys);
      AddedKeeps(global, chunks);
      KeysAreStarts(Added(global, chunks));
      AddedRegisters(global, infos, phys, Added(global, chunks));
      AddPages(chunks);
      return true;
    }

    method AddPages(chunks: seq<PhysChunk>)
      requires Valid() && FreshPages(global, chunks) && forall i :: 0 <= i < |chunks| ==> Aligned(chunks[i])
      modifies this`global
      ensures Valid() && global == Added(old(global), chunks) && SubTable(old(global), global)
    {
      AddedKeeps(global, chunks);
      for i := 0 to |chunks|
        invariant global == Added(old(global), chunks[..i])
      {
        assert chunks[..i + 1][..i] == chunks[..i];
        global := global[chunks[i].start := chunks[i]];
      }
      assert chunks[..|chunks|] == chunks;
    }

    // The page of an address: first in the thread's own table, then in the global one, which fills the thread's.
    method Resolve(t: Thread, a: Addr, order: seq<AlignType>) returns (r: Option<PhysChunk>)
      requires Valid() && AllTypes(order)
      modifies this`tls
      ensures Valid() && (forall u :: u in old(tls) && u != t ==> u in tls && tls[u] == old(tls)[u])
      ensures r.Some? ==> Has(global, r.value) && Covers(r.value, a)
      ensures r.None? ==> !Covered(global, a)
    {
      var own: Table := if t in tls then tls[t] else map[];
      SubTableIsWellFormed(own, global);
      hide WellFormed;
      hide Covers;
      r := TableLookUp(own, a, order);
      if r.None? {
        r := TableLookUp(global, a, order);
        if r.Some? {
          tls := tls[t := own[r.value.start := r.value]];
        }
      }
    }

    /** The physical address, or 0 when no page covers the address: what the global table says, whatever the thread's
     *  table holds and in whatever order the page sizes are tried. */
    method GetPhysAddr(t: Thread, a: Addr, order: seq<AlignType>) returns (q: nat)
      requires Valid() && AllTypes(order)
      modifies this`tls
      ensures Valid() && (forall u :: u in old(tls) && u != t ==> u in tls && tls[u] == old(tls)[u])
      ensures q == 0 <==> !Covered(global, a)
      ensures q != 0 ==> Translates(global, a, q)
    {
      var r := Resolve(t, a, order);
      if r.None? { return 0; }
      assert Has(global, r.value) && Covers(r.value, a);
      return r.value.phys + (a - r.value.start);
    }

    /** The physical pieces of a buffer, one per page; 0 when the buffer is empty, not covered, or spread over more
     *  than maxNum pages.  The lock is taken anew in each round, so other threads may register pages in between: the
     *  pieces are right for the table at the end, and 0 is returned only if it was right for the table at the start. */
    method GetPhysAddrBound(t: Thread, a: Addr, len: nat, paddrs: array<nat>, sizes: array<nat>, maxNum: nat,
                            order: seq<AlignType>, news: seq<seq<PhysChunk>>) returns (n: nat)
      requires Valid() && AllTypes(order) && paddrs != sizes && paddrs.Length >= maxNum && sizes.Length >= maxNum
      requires Grows(global, news)
      modifies this, paddrs, sizes
      ensures Valid() && SubTable(old(global), global) && (news == [] ==> global == old(global))
      ensures n > 0 ==>
        && len > 0 && AllCovered(global, a, len) && n == |PagesOver(global, a, len)| <= maxNum
        && Sum(sizes[..n]) == len && Segments(global, a, sizes[..n], paddrs[..n])
      ensures n == 0 ==>
        len == 0 || !AllCovered(old(global), a, len) || |PagesOver(old(global), a, len)| > maxNum
    {
      hide WellFormed;
      hide SubTable;
      hide Found;
      hide Grows;
      hide AllTypes;
      hide Segments;
      hide AllCovered;
      hide PagesOver;
      hide FreshPages;
      hide Added;
      hide Sum;
      var cur: nat, left: nat := a, len;
      var rest := news;
      n := 0;
      FoundNothing(global, a);
      SubTableRefl(global);
      while n < maxNum && left > 0
        invariant n <= maxNum && Valid() && Grows(global, rest)
        invariant SubTable(old(global), global) && (news == [] ==> rest == [] && global == old(global))
        invariant cur + left == a + len && Found(global, a, cur, left == 0, sizes[..n], paddrs[..n])
        decreases left
      {
        ghost var tb := global;
        SubTableRefl(tb);
        if rest != [] {
          Batch(global, rest);
          AddPages(rest[0]);
          rest := rest[1..];
          SubTableThen(old(global), tb, global);
        }
        FoundGrows(tb, global, a, cur, sizes[..n], paddrs[..n]);
        var r := Resolve(t, cur, order);
        if r.None? {
          NotCovered(old(global), global, a, len, cur);
          return 0;
        }
        var p := r.value;
        var end := p.start + PageSize(p.typ);
        ghost var before, was := sizes[..n], paddrs[..n];
        FoundNext(global, a, cur, left, p, before, was);
        paddrs[n] := p.phys + (cur - p.start);
        if cur + left <= end {
          sizes[n] := left;
          cur, left := cur + left, 0;
        } else {
          var covered := end - cur;
          left := left - covered;
          cur := cur + covered;
          sizes[n] := covered;
        }
        assert sizes[..n + 1] == before + [sizes[n]] && paddrs[..n + 1] == was + [paddrs[n]];
        n := n + 1;
      }
      if left > 0 {
        TooMany(old(global), global, a, len, cur, sizes[..n], paddrs[..n]);
        return 0;
      }
      FoundAll(global, a, cur, sizes[..n], paddrs[..n]);
    }
  }

  // The pieces found so far cover the buffer up to cur, one per page; cur is at a boundary unless it is the end.
  ghost predicate Found(tb: Table, a: Addr, cur: Addr, last: bool, sizes: seq<nat>, phys: seq<nat>) {
    && a <= cur == a + Sum(sizes) && |sizes| == |PagesOver(tb, a, cur - a)| && AllCovered(tb, a, cur - a)
    && Segments(tb, a, sizes, phys) && (last || Boundary(tb, a, cur))
  }

  lemma FoundNothing(tb: Table, a: Addr)
    ensures Found(tb, a, a, false, [], []) && Found(tb, a, a, true, [], [])
  {
    assert PagesOver(tb, a, 0) == {};
  }

  // What has been found stays right as the table grows.
  lemma FoundGrows(tb: Table, more: Table, a: Addr, cur: Addr, sizes: seq<nat>, phys: seq<nat>)
    requires WellFormed(more) && SubTable(tb, more) && Found(tb, a, cur, false, sizes, phys)
    ensures Found(more, a, cur, false, sizes, phys)
  {
    hide WellFormed;
    hide SubTable;
    hide Segments;
    hide AllCovered;
    hide PagesOver;
    hide Boundary;
    SegmentsGrow(tb, more, a, sizes, phys);
    CoverGrows(tb, more, a, cur - a);
    PagesStay(tb, more, a, cur - a);
    BoundaryGrows(tb, more, a, cur);
  }

  lemma BoundaryGrows(tb: Table, more: Table, a: Addr, cur: Addr)
    requires SubTable(tb, more) && Boundary(tb, a, cur)
    ensures Boundary(more, a, cur)
  {
    if cur != a {
      var q :| Has(tb, q) && q.start < cur && End(q) == cur;
      assert Has(more, q);
    }
  }

  // The next piece ends with the buffer or with the page.
  lemma FoundNext(tb: Table, a: Addr, cur: Addr, left: nat, p: PhysChunk, sizes: seq<nat>, phys: seq<nat>)
    requires WellFormed(tb) && Found(tb, a, cur, false, sizes, phys) && Has(tb, p) && Covers(p, cur) && left > 0
    ensures var size, q := if cur + left <= End(p) then left else End(p) - cur, p.phys + (cur - p.start);
      Found(tb, a, cur + size, left == size, sizes + [size], phys + [q])
  {
    hide WellFormed;
    hide Found;
    if cur + left <= End(p) {
      FoundPiece(tb, a, cur, left, p, sizes, phys);
    } else {
      FoundPiece(tb, a, cur, End(p) - cur, p, sizes, phys);
      PageEnds(tb, a, p, sizes + [End(p) - cur], phys + [p.phys + (cur - p.start)]);
    }
  }

  lemma FoundPiece(tb: Table, a: Addr, cur: Addr, size: nat, p: PhysChunk, sizes: seq<nat>, phys: seq<nat>)
    requires WellFormed(tb) && Found(tb, a, cur, false, sizes, phys) && Has(tb, p) && size > 0
    requires p.start <= cur && cur + size <= End(p)
    ensures Found(tb, a, cur + size, true, sizes + [size], phys + [p.phys + (cur - p.start)])
  {
    hide WellFormed;
    hide PagesOver;
    hide Segments;
    hide AllCovered;
    hide Boundary;
    NextPage(tb, a, cur, size, p);
    AnotherSegment(tb, a, sizes, phys, size, p.phys + (cur - p.start), p);
  }

  lemma PageEnds(tb: Table, a: Addr, p: PhysChunk, sizes: seq<nat>, phys: seq<nat>)
    requires Found(tb, a, End(p), true, sizes, phys) && Has(tb, p)
    ensures Found(tb, a, End(p), false, sizes, phys)
  {
    assert Has(tb, p) && p.start < End(p);
  }

  lemma FoundAll(tb: Table, a: Addr, cur: Addr, sizes: seq<nat>, phys: seq<nat>)
    requires Found(tb, a, cur, true, sizes, phys)
    ensures Sum(sizes) == cur - a && |sizes| == |PagesOver(tb, a, cur - a)| && AllCovered(tb, a, cur - a)
    ensures Segments(tb, a, sizes, phys) && (sizes == [] <==> cur == a)
  {
    assert PagesOver(tb, a, 0) == {};
  }

  lemma TooMany(tb: Table, more: Table, a: Addr, len: nat, cur: Addr, sizes: seq<nat>, phys: seq<nat>)
    requires WellFormed(more) && SubTable(tb, more) && a <= cur < a + len && Found(more, a, cur, false, sizes, phys)
    ensures !AllCovered(tb, a, len) || |PagesOver(tb, a, len)| > |sizes|
  {
    if AllCovered(tb, a, len) {
      PagesStay(tb, more, a, len);
      CoverGrows(tb, more, a, len);
      OnePageMore(more, a, cur, len);
    }
  }

  lemma SubTableRefl(tb: Table)
    ensures SubTable(tb, tb)
  {
  }

  lemma SubTableThen(a: Table, b: Table, c: Table)
    requires SubTable(a, b) && SubTable(b, c)
    ensures SubTable(a, c)
  {
  }

  lemma Batch(tb: Table, news: seq<seq<PhysChunk>>)
    requires news != [] && Grows(tb, news)
    ensures FreshPages(tb, news[0]) && (forall i :: 0 <= i < |news[0]| ==> Aligned(news[0][i]))
    ensures Grows(Added(tb, news[0]), news[1..])
  {
  }

  lemma NotCovered(tb: Table, more: Table, a: Addr, len: nat, x: Addr)
    requires SubTable(tb, more) && a <= x < a + len && !Covered(more, x)
    ensures !AllCovered(tb, a, len)
  {
    forall p | Has(tb, p) ensures Has(more, p) { }
    assert !Covered(tb, x);
  }

  lemma AnotherSegment(tb: Table, a: Addr, sizes: seq<nat>, phys: seq<nat>, size: nat, q: nat, p: PhysChunk)
    requires Segments(tb, a, sizes, phys) && AllCovered(tb, a, Sum(sizes)) && Has(tb, p) && size > 0
    requires var cur := a + Sum(sizes); p.start <= cur && cur + size <= End(p) && q == p.phys + (cur - p.start)
    ensures Sum(sizes + [size]) == Sum(sizes) + size
    ensures Segments(tb, a, sizes + [size], phys + [q]) && AllCovered(tb, a, Sum(sizes + [size]))
  {
    SumSnoc(sizes, size);
    var s, f := sizes + [size], phys + [q];
    forall k | 0 <= k < |s| ensures Segment(tb, a + Sum(s[..k]), s[k], f[k]) {
      if k < |sizes| { assert s[..k] == sizes[..k]; } else { assert s[..k] == sizes; }
    }
    forall x | a <= x < a + Sum(s) ensures Covered(tb, x) {
      if x >= a + Sum(sizes) { assert Has(tb, p) && Covers(p, x); }
    }
  }

  // ----- blocks of the chunk pool -----

  // A chunk, being aligned to its size, lies in one hugepage.
  lemma ChunkInPage(c: Addr, p: PhysChunk)
    requires c % CHUNK_SIZE == 0 && Aligned(p) && Covers(p, c) && p.typ != Page4Kb
    ensures c + CHUNK_SIZE <= End(p)
  {
    match p.typ {
      case Page2Mb =>
      case Page512Mb =>
      case Page1Gb =>
    }
  }

  /** A stretch inside the payload of a block lies in one chunk of one page, so the lookup that splits at page
   *  boundaries has exactly one page to report. */
  lemma BlockIsOneSegment(tb: Table, p: PhysChunk, c: Addr, i: nat, b: Addr, a: Addr, len: nat)
    requires WellFormed(tb) && Has(tb, p) && p.typ != Page4Kb && Covers(p, c) && c % CHUNK_SIZE == 0
    requires b in Blocks(c, i) && 0 < len && Payload(b) <= a && a + len <= Payload(b) + BlockSize(i)
    ensures PagesOver(tb, a, len) == {p} && AllCovered(tb, a, len) && |PagesOver(tb, a, len)| == 1
    ensures Translates(tb, a, p.phys + (a - p.start))
  {
    ChunkInPage(c, p);
    BlocksInside(c, i, b);
    NextPage(tb, a, a, len, p);
    assert PagesOver(tb, a, 0) == {};
    forall x | a <= x < a + len ensures Covered(tb, x) { assert Has(tb, p) && Covers(p, x); }
    assert Covers(p, a);
  }
}
