/** How the hugepages of the pool are spread over NUMA nodes: each node gets its share rounded up to whole pages, in
 *  batches, lowest node first; what no node asked for is left to the operating system.
 */
module Preallocation {
  import opened Common

  const MB: nat := 0x10_0000

  // One call of the page allocator: pages of a node, or of any node when there is none.
  datatype Call = Call(node: int, pages: nat)

  const ANY_NODE: int := -1

  function Ceil(bytes: nat, page: nat): nat
    requires page > 0
  {
    (bytes + page - 1) / page
  }

  // The pages a node got.
  function PagesOn(calls: seq<Call>, node: int): nat {
    if calls == [] then 0 else (if calls[0].node == node then calls[0].pages else 0) + PagesOn(calls[1..], node)
  }

  function AllPages(calls: seq<Call>): nat {
    if calls == [] then 0 else calls[0].pages + AllPages(calls[1..])
  }

  function Shares(mb: seq<nat>, page: nat): (s: seq<nat>)
    requires page > 0
    ensures |s| == |mb|
  {
    seq(|mb|, i requires 0 <= i < |mb| => Ceil(mb[i] * MB, page))
  }

  function Max(a: nat, b: nat): nat { if a >= b then a else b }

  function Min(a: nat, b: nat): nat { if a <= b then a else b }

  // ----- sums -----

  lemma {:induction false} OneMoreCall(calls: seq<Call>, c: Call, node: int)
    ensures PagesOn(calls + [c], node) == PagesOn(calls, node) + (if c.node == node then c.pages else 0)
    ensures AllPages(calls + [c]) == AllPages(calls) + c.pages
  {
    if calls == [] {
      assert [c][1..] == [];
    } else {
      assert (calls + [c])[1..] == calls[1..] + [c];
      OneMoreCall(calls[1..], c, node);
    }
  }

  // Rounding up commutes with sums in one direction only.
  lemma CeilAdd(a: nat, b: nat, page: nat)
    requires page > 0
    ensures Ceil(a + b, page) <= Ceil(a, page) + Ceil(b, page)
  {
    var x, y := Ceil(a, page), Ceil(b, page);
    CeilBound(a, page);
    CeilBound(b, page);
    assert a + b <= x * page + y * page == (x + y) * page;
    CeilLeast(a + b, page, x + y);
  }

  lemma CeilBound(a: nat, page: nat)
    requires page > 0
    ensures a <= Ceil(a, page) * page
  {
    var n := a + page - 1;
    assert n == (n / page) * page + n % page;
  }

  lemma CeilLeast(a: nat, page: nat, q: nat)
    requires page > 0 && a <= q * page
    ensures Ceil(a, page) <= q
  {
    var n := a + page - 1;
    var x := n / page;
    assert x * page <= n < q * page + page == (q + 1) * page;
    Strict(x, q + 1, page);
  }

  lemma Strict(x: nat, y: nat, page: nat)
    requires x * page < y * page
    ensures x < y
  {
    Times(y, x, page);
  }

  /** The sum of the rounded shares is at least the rounded sum. */
  lemma {:induction false} SharesSuffice(mb: seq<nat>, page: nat)
    requires page > 0
    ensures Ceil(Sum(mb) * MB, page) <= Sum(Shares(mb, page))
  {
    if mb == [] {
      CeilLeast(0, page, 0);
    } else {
      SharesSuffice(mb[1..], page);
      assert Shares(mb, page)[1..] == Shares(mb[1..], page);
      CeilAdd(mb[0] * MB, Sum(mb[1..]) * MB, page);
      assert Sum(mb) * MB == mb[0] * MB + Sum(mb[1..]) * MB;
    }
  }

  // ----- the loop -----

  // The lowest node with pages outstanding, or ANY_NODE.
  method FirstNode(rest: seq<nat>) returns (node: int)
    ensures node == ANY_NODE || 0 <= node < |rest|
    ensures node == ANY_NODE ==> Sum(rest) == 0
    ensures node != ANY_NODE ==> rest[node] > 0 && forall i :: 0 <= i < node ==> rest[i] == 0
  {
    for i := 0 to |rest|
      invariant forall j :: 0 <= j < i ==> rest[j] == 0
    {
      if rest[i] > 0 { return i; }
    }
    ZeroSum(rest);
    return ANY_NODE;
  }

  // Lower nodes come first, any node last; for one node only the last call asks for less than a batch.
  predicate InTurn(a: Call, b: Call, batch: nat) {
    && (a.node == ANY_NODE ==> b.node == ANY_NODE) && (b.node != ANY_NODE ==> a.node <= b.node)
    && (a.node == b.node ==> a.pages == batch)
  }

  // What call c leaves for the calls after it.
  ghost predicate Leaves(c: Call, rest: seq<nat>, left: nat, batch: nat) {
    && (c.node == ANY_NODE ==> Sum(rest) == 0 && (c.pages < batch ==> left == 0))
    && (c.node != ANY_NODE ==>
         0 <= c.node < |rest| && (forall i :: 0 <= i < c.node ==> rest[i] == 0) && (c.pages < batch ==> rest[c.node] == 0))
  }

  lemma TakesTurn(a: Call, rest: seq<nat>, left: nat, batch: nat, node: int, pages: nat)
    requires Leaves(a, rest, left, batch) && 0 < pages <= left && a.pages <= batch
    requires node == ANY_NODE ==> Sum(rest) == 0
    requires node != ANY_NODE ==> 0 <= node < |rest| && rest[node] > 0 && rest[node] <= Sum(rest)
    requires node == ANY_NODE || pages <= rest[node]
    ensures InTurn(a, Call(node, pages), batch)
    ensures node == ANY_NODE ==> Leaves(a, rest, left - pages, batch)
    ensures node != ANY_NODE && Sum(rest[node := rest[node] - pages]) == Sum(rest) - pages ==>
      Leaves(a, rest[node := rest[node] - pages], left - pages, batch)
  {
    hide Sum;
  }

  // What has been asked for and what is outstanding make up the shares and the total.
  ghost predicate Balanced(shares: seq<nat>, total: nat, rest: seq<nat>, left: nat, calls: seq<Call>) {
    && |rest| == |shares| && left >= Sum(rest) && AllPages(calls) + left == total
    && (forall i :: 0 <= i < |shares| ==> rest[i] + PagesOn(calls, i) == shares[i])
    && PagesOn(calls, ANY_NODE) + left - Sum(rest) == total - Sum(shares)
  }

  ghost predicate Orderly(rest: seq<nat>, left: nat, calls: seq<Call>, batch: nat) {
    && (forall k :: 0 <= k < |calls| ==> 0 < calls[k].pages <= batch && Leaves(calls[k], rest, left, batch))
    && (forall j, k :: 0 <= j < k < |calls| ==> InTurn(calls[j], calls[k], batch))
  }

  // One round: the call (node, pages), after which rest becomes less.
  ghost predicate Round(rest: seq<nat>, left: nat, node: int, pages: nat, less: seq<nat>) {
    && 0 < pages <= left && (node == ANY_NODE || 0 <= node < |rest|)
    && (node == ANY_NODE ==> less == rest && Sum(rest) == 0)
    && (node != ANY_NODE ==>
         && pages <= rest[node] <= Sum(rest) && less == rest[node := rest[node] - pages] && Sum(less) == Sum(rest) - pages
         && forall i :: 0 <= i < node ==> rest[i] == 0)
  }

  lemma RoundBalanced(shares: seq<nat>, total: nat, rest: seq<nat>, left: nat, calls: seq<Call>, c: Call, less: seq<nat>)
    requires Balanced(shares, total, rest, left, calls) && Round(rest, left, c.node, c.pages, less)
    ensures Balanced(shares, total, less, left - c.pages, calls + [c])
  {
    hide Sum;
    hide AllPages;
    hide PagesOn;
    OneMoreCall(calls, c, ANY_NODE);
    forall i | 0 <= i < |shares| ensures less[i] + PagesOn(calls + [c], i) == shares[i] { OneMoreCall(calls, c, i); }
  }

  lemma RoundOrderly(rest: seq<nat>, left: nat, calls: seq<Call>, batch: nat, c: Call, less: seq<nat>)
    requires Orderly(rest, left, calls, batch) && Round(rest, left, c.node, c.pages, less)
    requires left >= Sum(rest) && c.pages <= batch && (c.pages == batch || c.pages == left || (c.node != ANY_NODE && c.pages == rest[c.node]))
    ensures Orderly(less, left - c.pages, calls + [c], batch)
  {
    hide Sum;
    var more := calls + [c];
    forall k | 0 <= k < |more| ensures 0 < more[k].pages <= batch && Leaves(more[k], less, left - c.pages, batch) {
      if k < |calls| { TakesTurn(calls[k], rest, left, batch, c.node, c.pages); } else { LastLeaves(rest, left, c, less, batch); }
    }
    hide Leaves;
    forall j, k | 0 <= j < k < |more| ensures InTurn(more[j], more[k], batch) {
      if k == |calls| { TakesTurn(calls[j], rest, left, batch, c.node, c.pages); }
    }
  }

  lemma LastLeaves(rest: seq<nat>, left: nat, c: Call, less: seq<nat>, batch: nat)
    requires Round(rest, left, c.node, c.pages, less)
    requires c.pages == batch || c.pages == left || (c.node != ANY_NODE && c.pages == rest[c.node])
    requires c.node != ANY_NODE ==> left >= Sum(rest)
    ensures Leaves(c, less, left - c.pages, batch)
  {
    hide Sum;
  }

  /** When every allocation succeeds: the loop ends with no page left and no node outstanding, each node has exactly its
   *  rounded-up share, no call asks for more than a batch, the pages beyond the shares go to any node, and the calls come
   *  in turn. */
  method Distribute(mb: seq<nat>, totalMb: nat, page: nat, batch: nat) returns (calls: seq<Call>)
    requires page > 0 && batch > 0
    ensures forall i :: 0 <= i < |mb| ==> PagesOn(calls, i) == Ceil(mb[i] * MB, page)
    ensures AllPages(calls) == Max(Ceil(totalMb * MB, page), Sum(Shares(mb, page)))
    ensures PagesOn(calls, ANY_NODE) == AllPages(calls) - Sum(Shares(mb, page))
    ensures forall k :: 0 <= k < |calls| ==> 0 < calls[k].pages <= batch
    ensures forall j, k :: 0 <= j < k < |calls| ==> InTurn(calls[j], calls[k], batch)
  {
    hide Ceil;
    hide Sum;
    hide AllPages;
    hide PagesOn;
    hide InTurn;
    hide Leaves;
    ghost var shares := Shares(mb, page);
    var rest := Shares(mb, page);
    var left := Max(Ceil(totalMb * MB, page), Sum(rest));
    ghost var total := left;
    calls := [];
    Nothing();
    while left > 0
      invariant Balanced(shares, total, rest, left, calls) && Orderly(rest, left, calls, batch)
      decreases left
    {
      var pages := Min(left, batch);
      var node := FirstNode(rest);
      ghost var before := rest;
      if node >= 0 {
        pages := Min(pages, rest[node]);
        SumUpdate(rest, node, rest[node] - pages);
        rest := rest[node := rest[node] - pages];
      }
      RoundBalanced(shares, total, before, left, calls, Call(node, pages), rest);
      RoundOrderly(before, left, calls, batch, Call(node, pages), rest);
      left := left - pages;
      calls := calls + [Call(node, pages)];
    }
    forall i | 0 <= i < |mb| ensures rest[i] == 0 { SumZero(rest, i); }
  }

  lemma Nothing()
    ensures AllPages([]) == 0 && forall node :: PagesOn([], node) == 0
  {
  }

  // ----- the validation of a split -----

  const TWO_31: nat := 0x8000_0000
  const TWO_32: nat := 0x1_0000_0000

  // The conversions to a 32-bit int and from it to size_t.
  function ToInt(n: int): int { if n % TWO_32 < TWO_31 then n % TWO_32 else n % TWO_32 - TWO_32 }

  function ToSize(n: int): nat
    requires 0 - TWO_31 <= n < TWO_31
  {
    if n < 0 then n + TWO_64 else n
  }

  // The sum as the validation sees it.
  function SeenSum(mb: seq<nat>): nat { ToSize(ToInt(Sum(mb))) }

  predicate Validates(mb: seq<nat>, totalMb: nat) { SeenSum(mb) == 0 || SeenSum(mb) == totalMb }

  lemma IntAgain(a: int, n: nat)
    ensures ToInt(ToInt(a) + n) == ToInt(a + n)
  {
    assert (ToInt(a) + n - (a + n)) % TWO_32 == 0;
    assert (ToInt(a) + n) % TWO_32 == (a + n) % TWO_32;
  }

  /** `ValidateInitOption`: the shares are added up in an int. */
  method ValidateSplit(mb: seq<nat>, totalMb: nat) returns (ok: bool)
    ensures ok <==> Validates(mb, totalMb)
  {
    var acc := 0;
    for i := 0 to |mb|
      invariant acc == ToInt(Sum(mb[..i]))
    {
      SumSnoc(mb[..i], mb[i]);
      assert mb[..i + 1] == mb[..i] + [mb[i]];
      IntAgain(Sum(mb[..i]), mb[i]);
      acc := ToInt(acc + mb[i]);
    }
    assert mb[..|mb|] == mb;
    var sum := ToSize(acc);
    return sum == 0 || sum == totalMb;
  }

  /** For whatever total is asked for, the validation accepts exactly no split and splits that add up to the total, if and
   *  only if the shares add up to less than 2^31 MB, or to one of the last 2^31 numbers below 2^64. */
  lemma ValidationIff(mb: seq<nat>)
    ensures Sum(mb) < TWO_31 || TWO_64 - TWO_31 <= Sum(mb) < TWO_64 <==>
            forall total: nat :: Validates(mb, total) <==> Sum(mb) == 0 || Sum(mb) == total
  {
    var s, w := Sum(mb), SeenSum(mb);
    SeenIff(s);
    if w != s {
      var total := if w == 0 then s + 1 else w;
      assert Validates(mb, total) && s != total;
    }
  }

  lemma SeenIff(s: nat)
    ensures ToSize(ToInt(s)) == s <==> s < TWO_31 || TWO_64 - TWO_31 <= s < TWO_64
    ensures s == 0 ==> ToSize(ToInt(s)) == 0
  {
    var r := s % TWO_32;
    if s < TWO_32 {
      ModIs(s, TWO_32, 0, s);
    } else if TWO_64 - TWO_32 <= s < TWO_64 {
      ModIs(s, TWO_32, TWO_32 - 1, s - (TWO_64 - TWO_32));
    }
  }

  /** A validated split asks for memory on nodes only: nothing is left to any node. */
  lemma ValidatedSplit(mb: seq<nat>, totalMb: nat, page: nat)
    requires page > 0 && Validates(mb, totalMb) && 0 < Sum(mb) < TWO_31
    ensures Max(Ceil(totalMb * MB, page), Sum(Shares(mb, page))) == Sum(Shares(mb, page))
  {
    ValidationIff(mb);
    SharesSuffice(mb, page);
  }

  /** Without a split (all zero) everything is left to any node. */
  lemma NoSplit(mb: seq<nat>, page: nat)
    requires page > 0 && forall i :: 0 <= i < |mb| ==> mb[i] == 0
    ensures Sum(Shares(mb, page)) == 0
  {
    CeilLeast(0, page, 0);
    ZeroSum(Shares(mb, page));
  }
}
