/** The timer list (`timer_manager.cc`): a doubly linked list of timeout contexts, oldest first.  All timers of a
 *  manager have the same duration, so with a clock that does not run backwards the list is sorted by deadline.
 */
module TimerManager {
  import opened Common

  type Ref = nat  // 0 is the null pointer

  datatype Context = Context(deadline: nat, arg: nat, next: Ref, prev: Ref)

  type Contexts = map<Ref, Context>

  ghost predicate Linked(m: Contexts, s: seq<Ref>, k: nat)
    requires k < |s|
  {
    s[k] in m && s[k] != 0 && m[s[k]].next == At(s, k + 1) && m[s[k]].prev == At(s, k - 1)
  }

  ghost predicate IsList(m: Contexts, s: seq<Ref>, head: Ref, tail: Ref) {
    && head == At(s, 0) && tail == At(s, |s| - 1) && Distinct(s)
    && forall k :: 0 <= k < |s| ==> Linked(m, s, k)
  }

  // What the timers of a list carry.
  datatype Timer = Timer(deadline: nat, arg: nat)

  ghost function TimerOf(m: Contexts, r: Ref): Timer { if r in m then Timer(m[r].deadline, m[r].arg) else Timer(0, 0) }

  ghost function Timers(m: Contexts, s: seq<Ref>): (t: seq<Timer>)
    ensures |t| == |s|
  {
    seq(|s|, i requires 0 <= i < |s| => TimerOf(m, s[i]))
  }

  ghost predicate Sorted(t: seq<Timer>) { forall i, j :: 0 <= i < j < |t| ==> t[i].deadline <= t[j].deadline }

  // ----- appending -----

  lemma Append(m: Contexts, s: seq<Ref>, head: Ref, tail: Ref, c: Ref, x: Context, n: Contexts)
    requires IsList(m, s, head, tail) && c != 0 && c !in m && x.next == 0 && x.prev == tail && (s != [] ==> tail in m)
    requires n == (if s == [] then m else m[tail := m[tail].(next := c)])[c := x]
    ensures IsList(n, s + [c], if s == [] then c else head, c)
    ensures Timers(n, s + [c]) == Timers(m, s) + [Timer(x.deadline, x.arg)]
  {
    var t := s + [c];
    forall k | 0 <= k < |s| ensures s[k] != c { assert Linked(m, s, k); }
    forall k | 0 <= k < |t| ensures Linked(n, t, k) {
      if k < |s| {
        assert Linked(m, s, k);
        if k != |s| - 1 { Differ(s, k, |s| - 1); }
      }
    }
    forall k | 0 <= k < |s| ensures TimerOf(n, t[k]) == TimerOf(m, s[k]) { assert Linked(m, s, k); }
    assert forall k :: 0 <= k < |t| ==> Timers(n, t)[k] == (Timers(m, s) + [Timer(x.deadline, x.arg)])[k];
  }

  // ----- taking one out -----

  function SetNext(m: Contexts, c: Ref, n: Ref): Contexts { if c in m && c != 0 then m[c := m[c].(next := n)] else m }

  function SetPrev(m: Contexts, c: Ref, p: Ref): Contexts { if c in m && c != 0 then m[c := m[c].(prev := p)] else m }

  lemma UnlinkAt(m: Contexts, s: seq<Ref>, j: nat, k: nat, p: Ref, n: Ref, out: Contexts)
    requires j < |s| && Distinct(s) && k < |s| - 1 && p == At(s, j - 1) && n == At(s, j + 1)
    requires Linked(m, s, if k < j then k else k + 1) && out == SetPrev(SetNext(m, p, n), n, p) - {s[j]}
    ensures Linked(out, Without(s, j), k)
  {
    hide Distinct;
    var x := if k < j then k else k + 1;
    Differ(s, x, j);
    if j > 0 && x != j - 1 { Differ(s, x, j - 1); }
    if j + 1 < |s| && x != j + 1 { Differ(s, x, j + 1); }
    var t := Without(s, j);
    assert forall i :: 0 <= i < |t| ==> t[i] == if i < j then s[i] else s[i + 1];
  }

  lemma Unlink(m: Contexts, s: seq<Ref>, head: Ref, tail: Ref, j: nat, out: Contexts)
    requires IsList(m, s, head, tail) && j < |s| && s[j] in m
    requires out == SetPrev(SetNext(m, m[s[j]].prev, m[s[j]].next), m[s[j]].next, m[s[j]].prev) - {s[j]}
    ensures IsList(out, Without(s, j), if j == 0 then m[s[j]].next else head, if j == |s| - 1 then m[s[j]].prev else tail)
    ensures Timers(out, Without(s, j)) == Without(Timers(m, s), j)
  {
    assert Linked(m, s, j);
    var t := Without(s, j);
    WithoutDistinct(s, j);
    forall k | 0 <= k < |t| ensures Linked(out, t, k) {
      assert Linked(m, s, if k < j then k else k + 1);
      UnlinkAt(m, s, j, k, m[s[j]].prev, m[s[j]].next, out);
    }
    forall k | 0 <= k < |t| ensures TimerOf(out, t[k]) == Without(Timers(m, s), j)[k] {
      var x := if k < j then k else k + 1;
      assert t[k] == s[x] && Linked(m, s, x);
      Differ(s, x, j);
    }
  }

  // ----- dropping the first k -----

  // The contexts after the first k have been released; the new first one's prev is still the old one's.
  ghost predicate Drained(m: Contexts, s: seq<Ref>, n: Contexts, k: nat) {
    && k <= |s|
    && (forall i :: k <= i < |s| ==> s[i] in m && s[i] in n && n[s[i]] == m[s[i]])
  }

  lemma Drop(m: Contexts, s: seq<Ref>, head: Ref, tail: Ref, n: Contexts, k: nat, out: Contexts)
    requires IsList(m, s, head, tail) && Drained(m, s, n, k)
    requires out == SetPrev(n, At(s, k), 0)
    ensures IsList(out, s[k..], At(s, k), if k < |s| then tail else 0)
    ensures Timers(out, s[k..]) == Timers(m, s)[k..]
  {
    var t := s[k..];
    forall i | 0 <= i < |t| ensures Linked(out, t, i) && TimerOf(out, t[i]) == TimerOf(m, s[k + i]) {
      assert Linked(m, s, k + i);
      if i > 0 { Differ(s, k, k + i); }
    }
    forall a, b | 0 <= a < b < |t| ensures t[a] != t[b] { Differ(s, k + a, k + b); }
  }

  ghost function Args(t: seq<Timer>): (a: seq<nat>)
    ensures |a| == |t|
  {
    seq(|t|, i requires 0 <= i < |t| => t[i].arg)
  }

  class Manager {
    var ctxs: Contexts
    var head: Ref
    var tail: Ref
    const timeout: nat
    ghost var list: seq<Ref>
    ghost var clock: nat       // the latest time seen

    constructor (duration: nat)
      ensures Valid() && list == [] && timeout == duration && clock == 0
    {
      ctxs, head, tail, list, clock := map[], 0, 0, [], 0;
      timeout := duration;
    }

    ghost function Live(): (t: seq<Timer>)
      reads this
      ensures |t| == |list|
    {
      Timers(ctxs, list)
    }

    ghost predicate Valid()
      reads this
    {
      && IsList(ctxs, list, head, tail) && Sorted(Live())
      && forall i :: 0 <= i < |list| ==> Live()[i].deadline <= clock + timeout
    }

    /** A new timer at the end; ctx is a context from the object pool. */
    method AddTimer(arg: nat, now: nat, ctx: Ref)
      requires Valid() && now >= clock && ctx != 0 && ctx !in ctxs
      modifies this
      ensures Valid() && clock == now && list == old(list) + [ctx]
      ensures Live() == old(Live()) + [Timer(now + timeout, arg)]
    {
      hide IsList;
      ghost var m := ctxs;
      ListEnds(ctxs, list, head, tail);
      Append(ctxs, list, head, tail, ctx, Context(now + timeout, arg, 0, tail),
             (if list == [] then m else m[tail := m[tail].(next := ctx)])[ctx := Context(now + timeout, arg, 0, tail)]);
      if head == 0 {
        ctxs := ctxs[ctx := Context(now + timeout, arg, 0, 0)];
        head := ctx;
        tail := ctx;
      } else {
        ctxs := ctxs[tail := ctxs[tail].(next := ctx)];
        ctxs := ctxs[ctx := Context(now + timeout, arg, 0, tail)];
        tail := ctx;
      }
      list := list + [ctx];
      clock := now;
    }

    /** Any timer of the list, wherever it is. */
    method RemoveTimer(ctx: Ref, ghost j: nat)
      requires Valid() && j < |list| && ctx == list[j]
      modifies this
      ensures Valid() && clock == old(clock)
      ensures list == Without(old(list), j) && Live() == Without(old(Live()), j)
    {
      hide IsList;
      ghost var m := ctxs;
      ListEnds(ctxs, list, head, tail);
      ListNeighbours(ctxs, list, head, tail, j);
      ghost var gone := SetPrev(SetNext(m, m[ctx].prev, m[ctx].next), m[ctx].next, m[ctx].prev) - {ctx};
      Unlink(ctxs, list, head, tail, j, gone);
      if ctx == head && ctx == tail {
        head := 0;
        tail := 0;
      } else if ctx == head {
        head := ctxs[head].next;
        ctxs := ctxs[head := ctxs[head].(prev := 0)];
      } else if ctx == tail {
        tail := ctxs[tail].prev;
        ctxs := ctxs[tail := ctxs[tail].(next := 0)];
      } else {
        var p, n := ctxs[ctx].prev, ctxs[ctx].next;
        ctxs := ctxs[p := ctxs[p].(next := n)];
        ctxs := ctxs[n := ctxs[n].(prev := p)];
      }
      ctxs := ctxs - {ctx};
      list := Without(list, j);
    }

    /** Fires exactly the timers that are due, once each and oldest first, and keeps the others. */
    method HandleTimeout(now: nat) returns (fired: seq<nat>)
      requires Valid() && now >= clock
      modifies this
      ensures Valid() && clock == now && |fired| <= |old(list)|
      ensures fired == Args(old(Live())[..|fired|])
      ensures list == old(list)[|fired|..] && Live() == old(Live())[|fired|..]
      ensures forall i :: 0 <= i < |old(list)| ==> (i < |fired| <==> old(Live())[i].deadline <= now)
    {
      hide IsList;
      ghost var m, s, k := ctxs, list, 0;
      fired := [];
      ListEnds(m, s, head, tail);
      DrainStart(m, s, head, tail);
      while head != 0
        invariant 0 <= k <= |s| && head == At(s, k) && |fired| == k && Drained(m, s, ctxs, k)
        invariant fired == Args(old(Live())[..k]) && tail == old(tail)
        invariant forall i :: 0 <= i < k ==> old(Live())[i].deadline <= now
        invariant k < |s| ==> s[k] != 0
        decreases |s| - k
      {
        assert Drained(m, s, ctxs, k) && s[k] in ctxs;
        assert old(Live())[k] == TimerOf(m, s[k]) == TimerOf(ctxs, head);
        if now < ctxs[head].deadline { break; }
        DrainNext(m, s, old(head), old(tail), ctxs, k);
        var oldHead := head;
        head := ctxs[head].next;
        fired := fired + [ctxs[oldHead].arg];     // timeout_cb_
        ctxs := ctxs - {oldHead};
        k := k + 1;
      }
      Drop(m, s, old(head), old(tail), ctxs, k, SetPrev(ctxs, At(s, k), 0));
      if head != 0 {
        ctxs := ctxs[head := ctxs[head].(prev := 0)];
      } else {
        tail := head;
      }
      list := s[k..];
      clock := now;
    }

    /** Empties the list and returns what its timers carried, oldest first. */
    method ClearAndGetUserArg() returns (args: seq<nat>)
      requires Valid()
      modifies this
      ensures Valid() && list == [] && clock == old(clock) && args == Args(old(Live()))
    {
      hide IsList;
      args := [];
      ListEnds(ctxs, list, head, tail);
      assert old(Live())[0..] == old(Live());
      while head != 0
        invariant Valid() && clock == old(clock) && (head == 0 <==> list == [])
        invariant |args| + |list| == |old(list)| && Live() == old(Live())[|args|..]
        invariant args == Args(old(Live())[..|args|])
        decreases |list|
      {
        ListEnds(ctxs, list, head, tail);
        assert Live()[0] == TimerOf(ctxs, head);
        args := args + [ctxs[head].arg];
        RemoveTimer(head, 0);
        ListEnds(ctxs, list, head, tail);
      }
    }
  }

  lemma DueLater(m: Manager, now: nat)
    requires m.Valid() && now >= m.clock
    ensures forall i :: 0 <= i < |m.Live()| ==> m.Live()[i].deadline <= now + m.timeout
  {
  }

  lemma ListEnds(m: Contexts, s: seq<Ref>, head: Ref, tail: Ref)
    requires IsList(m, s, head, tail)
    ensures (head == 0 <==> s == []) && (s == [] ==> tail == 0)
    ensures s != [] ==> head in m && tail in m && head == s[0] && tail == s[|s| - 1]
    ensures forall i :: 0 <= i < |s| ==> s[i] != 0 && s[i] in m
    ensures forall i :: 0 <= i < |s| ==> (s[i] == head <==> i == 0) && (s[i] == tail <==> i == |s| - 1)
  {
    forall i | 0 <= i < |s| ensures s[i] != 0 && s[i] in m { assert Linked(m, s, i); }
    forall i | 0 <= i < |s| ensures (s[i] == head <==> i == 0) && (s[i] == tail <==> i == |s| - 1) {
      if i != 0 { Differ(s, i, 0); }
      if i != |s| - 1 { Differ(s, i, |s| - 1); }
    }
  }

  lemma ListNeighbours(m: Contexts, s: seq<Ref>, head: Ref, tail: Ref, j: nat)
    requires IsList(m, s, head, tail) && j < |s|
    ensures s[j] in m && m[s[j]].prev == At(s, j - 1) && m[s[j]].next == At(s, j + 1)
  {
    assert Linked(m, s, j);
  }

  lemma DrainStart(m: Contexts, s: seq<Ref>, head: Ref, tail: Ref)
    requires IsList(m, s, head, tail)
    ensures Drained(m, s, m, 0) && head == At(s, 0)
  {
    forall i | 0 <= i < |s| ensures s[i] in m { assert Linked(m, s, i); }
  }

  lemma DrainNext(m: Contexts, s: seq<Ref>, head: Ref, tail: Ref, n: Contexts, k: nat)
    requires IsList(m, s, head, tail) && Drained(m, s, n, k) && k < |s|
    ensures s[k] in n && n[s[k]].next == At(s, k + 1)
    ensures Drained(m, s, n - {s[k]}, k + 1)
  {
    assert Linked(m, s, k);
    forall i | k < i < |s| ensures s[i] != s[k] { Differ(s, k, i); }
  }
}

/** Lists of timers as values, each timer carrying a number of its own: which numbers have a timer, and removing the
 *  timer of one.
 */
module TimerLists {
  import opened Common
  import opened TimerManager

  // Removing the timer that carries i; of several, the last one set.
  function Disarm(ts: seq<Timer>, i: nat): seq<Timer> {
    if ts == [] then [] else
      var n := |ts| - 1;
      if ts[n].arg == i then ts[..n] else Disarm(ts[..n], i) + [ts[n]]
  }

  ghost predicate Armed(ts: seq<Timer>, i: nat) { exists k :: 0 <= k < |ts| && ts[k].arg == i }

  ghost predicate DistinctArgs(ts: seq<Timer>) { forall a, b :: 0 <= a < b < |ts| ==> ts[a].arg != ts[b].arg }

  // Whatever the list, the timers left were there before.
  lemma {:induction false} DisarmLeaves(ts: seq<Timer>, i: nat, x: nat)
    ensures Armed(Disarm(ts, i), x) ==> Armed(ts, x)
    decreases |ts|
  {
    if ts != [] {
      var n := |ts| - 1;
      assert ts == ts[..n] + [ts[n]];
      ArmedSnoc(ts[..n], ts[n], x);
      DisarmLeaves(ts[..n], i, x);
      ArmedSnoc(Disarm(ts[..n], i), ts[n], x);
    }
  }

  lemma {:induction false} DisarmIn(ts: seq<Timer>, i: nat, t: Timer)
    ensures t in Disarm(ts, i) ==> t in ts
    decreases |ts|
  {
    if ts != [] { DisarmIn(ts[..|ts| - 1], i, t); }
  }

  lemma FirstArmed(ts: seq<Timer>)
    ensures ts == [] || Armed(ts, ts[0].arg)
  {
  }

  lemma ArmedCons(ts: seq<Timer>, x: nat)
    requires ts != []
    ensures Armed(ts, x) <==> ts[0].arg == x || Armed(ts[1..], x)
  {
    var t := ts[1..];
    if Armed(t, x) { var k :| 0 <= k < |t| && t[k].arg == x; assert ts[k + 1].arg == x; }
    if Armed(ts, x) && ts[0].arg != x { var k :| 0 <= k < |ts| && ts[k].arg == x; assert t[k - 1].arg == x; }
  }

  lemma ArmedSnoc(ts: seq<Timer>, t: Timer, x: nat)
    ensures Armed(ts + [t], x) <==> Armed(ts, x) || t.arg == x
  {
    var u := ts + [t];
    if Armed(ts, x) { var k :| 0 <= k < |ts| && ts[k].arg == x; assert u[k].arg == x; }
    if t.arg == x { assert u[|ts|].arg == x; }
  }

  lemma {:induction false} DisarmIsWithout(ts: seq<Timer>, i: nat, j: nat)
    requires DistinctArgs(ts) && j < |ts| && ts[j].arg == i
    ensures Disarm(ts, i) == Without(ts, j)
    decreases |ts|
  {
    var n := |ts| - 1;
    if j < n {
      assert ts[n].arg != i;
      DisarmIsWithout(ts[..n], i, j);
      assert Without(ts, j) == Without(ts[..n], j) + [ts[n]];
    }
  }

  lemma {:induction false} DisarmNone(ts: seq<Timer>, i: nat)
    requires forall k :: 0 <= k < |ts| ==> ts[k].arg != i
    ensures Disarm(ts, i) == ts
    decreases |ts|
  {
    if ts != [] { DisarmNone(ts[..|ts| - 1], i); }
  }

  // Among timers with different numbers, just the one that carries i goes.
  lemma DisarmFacts(ts: seq<Timer>, i: nat, x: nat)
    requires DistinctArgs(ts) && Sorted(ts)
    ensures Armed(Disarm(ts, i), x) <==> Armed(ts, x) && x != i
    ensures forall k :: 0 <= k < |Disarm(ts, i)| ==> Disarm(ts, i)[k] in ts
    ensures DistinctArgs(Disarm(ts, i)) && Sorted(Disarm(ts, i))
  {
    if j :| 0 <= j < |ts| && ts[j].arg == i {
      DisarmIsWithout(ts, i, j);
      WithoutKeeps(ts, j);
      hide Sorted;
      hide Without;
      WithoutArmed(ts, j, x);
    } else {
      DisarmNone(ts, i);
    }
  }

  lemma WithoutKeeps(ts: seq<Timer>, j: nat)
    requires DistinctArgs(ts) && Sorted(ts) && j < |ts|
    ensures DistinctArgs(Without(ts, j)) && Sorted(Without(ts, j))
    ensures forall k :: 0 <= k < |Without(ts, j)| ==> Without(ts, j)[k] in ts
  {
    var u := Without(ts, j);
    assert forall k :: 0 <= k < |u| ==> u[k] == if k < j then ts[k] else ts[k + 1];
  }

  lemma WithoutArmed(ts: seq<Timer>, j: nat, x: nat)
    requires DistinctArgs(ts) && j < |ts|
    ensures Armed(Without(ts, j), x) <==> Armed(ts, x) && x != ts[j].arg
  {
    var u := Without(ts, j);
    assert |u| == |ts| - 1 && forall k :: 0 <= k < |u| ==> u[k] == if k < j then ts[k] else ts[k + 1];
    hide Without;
    if k :| 0 <= k < |u| && u[k].arg == x { assert ts[if k < j then k else k + 1].arg == x; }
    if k :| 0 <= k < |ts| && ts[k].arg == x && k != j { assert u[if k < j then k else k - 1].arg == x; }
  }

  // Number j has a timer that is due.
  ghost predicate Due(ts: seq<Timer>, j: nat, now: nat) {
    exists k :: 0 <= k < |ts| && ts[k].arg == j && ts[k].deadline <= now
  }

  lemma DueCons(ts: seq<Timer>, j: nat, now: nat)
    requires ts != []
    ensures Due(ts, j, now) <==> (ts[0].arg == j && ts[0].deadline <= now) || Due(ts[1..], j, now)
  {
    var t := ts[1..];
    if Due(t, j, now) { var k :| 0 <= k < |t| && t[k].arg == j && t[k].deadline <= now; assert ts[k + 1] == t[k]; }
    if k :| 0 <= k < |ts| && ts[k].arg == j && ts[k].deadline <= now && k > 0 { assert t[k - 1] == ts[k]; }
  }

  // The context kept for the owner of a timer is the one in the list.
  ghost predicate TimersKnown(ctxs: seq<Ref>, list: seq<Ref>, live: seq<Timer>) {
    && |list| == |live|
    && forall j :: 0 <= j < |list| ==> live[j].arg < |ctxs| && ctxs[live[j].arg] == list[j]
  }

  ghost function TimerIndex(ts: seq<Timer>, i: nat): (j: nat)
    requires Armed(ts, i)
    ensures j < |ts| && ts[j].arg == i
  {
    var j :| 0 <= j < |ts| && ts[j].arg == i;
    j
  }

  lemma KnownWithout(ctxs: seq<Ref>, list: seq<Ref>, live: seq<Timer>, j: nat)
    requires TimersKnown(ctxs, list, live) && j < |live|
    ensures TimersKnown(ctxs, Without(list, j), Without(live, j))
  {
  }

  lemma KnownAfter(ctxs: seq<Ref>, list: seq<Ref>, live: seq<Timer>, k: nat)
    requires TimersKnown(ctxs, list, live) && k <= |live|
    ensures TimersKnown(ctxs, list[k..], live[k..])
  {
  }
}
