/** The QAT cypher channel: requests are submitted, completed by the hardware in any order or timed out, and their results
 *  handed out in submission order.  The hardware is an environment that may complete any request it was given, at any
 *  time, also long after it timed out.
 *
 *  A request is known by its number in order of submission.  Its metadata lives in the slot `number mod slots`, the ring
 *  keeps its result under its ring id, and its timer carries the slot.  The hardware is given the callback context of the
 *  slot and hands it back on completion; which request has completed is read from the context.  Contexts are known by the
 *  order of their creation.  Beside the program's own state there are logs: the user contexts of accepted requests, the
 *  results handed out, the codes the hardware reported, and the requests whose timers fired.
 */
module CypherChannel {
  import opened Common
  import opened RingQueue
  import opened TimerManager
  import opened TimerLists

  datatype Status = Hw(code: int) | TimedOut

  datatype Result = Result(ctx: nat, status: Status)

  datatype Meta = Meta(valid: bool, req: nat, ring: nat, ctx: nat)

  // A callback context: whether its channel is set, and the request it was last filled in for.
  datatype Callback = Callback(live: bool, req: nat)

  const RESET: Callback := Callback(false, 0)

  datatype State = State(
    metas: seq<Meta>, next: nat, inQat: nat, maxInQat: nat,
    ringSize: nat, head: nat, tail: nat, done: map<nat, Result>,
    timers: seq<Timer>,
    callbacks: seq<Callback>,                      // every context ever created
    pool: seq<nat>,                                // the context of each slot
    aborted: bool,                                 // a failed check has ended the program
    hw: map<nat, nat>,                             // what the hardware still has, with the context it was given
    submitted: seq<nat>, delivered: seq<Result>, reported: map<nat, int>,
    fired: set<nat>)                               // the requests whose timer has fired

  // There is a slot, and every slot has a context.
  predicate Shape(s: State) {
    && |s.metas| > 0 && |s.pool| == |s.metas| && (forall i :: 0 <= i < |s.pool| ==> s.pool[i] < |s.callbacks|)
    && (forall k :: k in s.hw ==> s.hw[k] < |s.callbacks|)
  }

  function Slot(s: State, k: nat): (i: nat)
    requires |s.metas| > 0
    ensures i < |s.metas|
  {
    SlotOf(k, |s.metas|)
  }

  /** The channel's 32-bit request id gives the same slot as the unbounded number, slots being a power of two. */
  lemma WrappedIdSameSlot(n: nat, slots: nat, q: nat)
    requires slots > 0 && slots * q == 0x1_0000_0000
    ensures SlotOf(n % 0x1_0000_0000, slots) == SlotOf(n, slots)
  {
    var hi, lo := n / 0x1_0000_0000, n % 0x1_0000_0000;
    var a, b := lo / slots, lo % slots;
    assert n == hi * (slots * q) + lo;
    assert n == (hi * q + a) * slots + b;
    ModIs(n, slots, hi * q + a, b);
  }

  // ----- the steps -----

  // SubmitAsync refuses when the hardware or the ring is full.
  predicate Full(s: State) { s.inQat == s.maxInQat || s.tail - s.head == s.ringSize }

  function Submit(s: State, ctx: nat, deadline: nat): State
    requires Shape(s)
  {
    var i := Slot(s, s.next);
    s.(metas := s.metas[i := Meta(true, s.next, s.tail, ctx)], tail := s.tail + 1,
       callbacks := s.callbacks[s.pool[i] := Callback(true, s.next)],
       timers := s.timers + [Timer(deadline, i)], hw := s.hw[s.next := s.pool[i]], next := s.next + 1,
       inQat := s.inQat + 1, submitted := s.submitted + [ctx])
  }

  // The driver refuses: the context of the slot has been filled in, and is reset.
  function Refuse(s: State): State
    requires Shape(s)
  {
    s.(callbacks := s.callbacks[s.pool[Slot(s, s.next)] := RESET])
  }

  // CyCallback for request k: it must find the channel in the context; only a valid slot yields a result.
  function Complete(s: State, k: nat, code: int): State
    requires Shape(s) && k in s.hw
  {
    var c := s.hw[k];
    if !s.callbacks[c].live then s.(aborted := true) else
      var i := Slot(s, s.callbacks[c].req);
      var m := s.metas[i];
      var u := s.(hw := s.hw - {k}, inQat := if s.inQat > 0 then s.inQat - 1 else 0, reported := s.reported[k := code],
                  callbacks := s.callbacks[c := RESET]);
      if m.valid then
        u.(metas := s.metas[i := m.(valid := false)], done := s.done[m.ring := Result(m.ctx, Hw(code))],
           timers := Disarm(s.timers, i))
      else u
  }

  // The oldest timer fires: the request's result is a timeout, its slot is given up and gets a new context.
  function Fire(s: State): State
    requires Shape(s) && s.timers != [] && s.timers[0].arg < |s.metas|
  {
    var i := s.timers[0].arg;
    var m := s.metas[i];
    s.(metas := s.metas[i := m.(valid := false)], done := s.done[m.ring := Result(m.ctx, TimedOut)],
       timers := s.timers[1..], callbacks := s.callbacks + [Callback(s.callbacks[s.pool[i]].live, 0)],
       pool := s.pool[i := |s.callbacks|], fired := s.fired + {m.req})
  }

  // PopResults of one more result.
  function Pop(s: State): State
    requires s.head in s.done
  {
    s.(head := s.head + 1, done := s.done - {s.head}, delivered := s.delivered + [s.done[s.head]])
  }

  datatype Event =
    | SubmitOk(ctx: nat, deadline: nat) | SubmitRefused | HwComplete(k: nat, code: int) | TimerFires(now: nat) | PopOne

  ghost predicate Step(s: State, e: Event, z: State) {
    && Shape(s) && !s.aborted
    && match e
       case SubmitOk(ctx, deadline) =>
         && !Full(s) && (forall i :: 0 <= i < |s.timers| ==> s.timers[i].deadline <= deadline)
         && z == Submit(s, ctx, deadline)
       case SubmitRefused => !Full(s) && z == Refuse(s)
       case HwComplete(k, code) => k in s.hw && z == Complete(s, k, code)
       case TimerFires(now) =>
         s.timers != [] && s.timers[0].deadline <= now && s.timers[0].arg < |s.metas| && z == Fire(s)
       case PopOne => s.head < s.tail && s.head in s.done && z == Pop(s)
  }

  ghost predicate Init(s: State) {
    && |s.metas| > 0 && s.maxInQat > 0 && s.ringSize > 0 && (forall i :: 0 <= i < |s.metas| ==> !s.metas[i].valid)
    && s.next == s.inQat == s.head == s.tail == 0 && s.done == map[] && s.timers == [] && s.hw == map[]
    && s.pool == seq(|s.metas|, i => i) && |s.callbacks| == |s.metas| && !s.aborted
    && s.submitted == [] && s.delivered == [] && s.reported == map[] && s.fired == {}
  }

  // ----- the conditions -----

  /** No request the hardware still has shares the slot of the next one. */
  ghost predicate SlotFree(s: State)
    requires |s.metas| > 0
  {
    forall k :: k in s.hw ==> Slot(s, k) != Slot(s, s.next)
  }

  /** No request that the hardware still has and that has not timed out shares the slot of the next one. */
  ghost predicate SlotIdle(s: State)
    requires |s.metas| > 0
  {
    forall k :: k in s.hw && Waiting(s, k) ==> Slot(s, k) != Slot(s, s.next)
  }

  // In particular when none of them is |metas| or more requests old.
  lemma RecentMeansFree(s: State)
    requires |s.metas| > 0 && forall k :: k in s.hw ==> k < s.next < k + |s.metas|
    ensures SlotFree(s)
  {
    hide SlotOf;
    forall k | k in s.hw ensures Slot(s, k) != Slot(s, s.next) {
      if Slot(s, k) == Slot(s, s.next) { OwnSlot(s.next, k, |s.metas|); }
    }
  }

  // ----- the invariant -----

  // Request r waits for its result in its own slot.
  ghost predicate Waiting(s: State, r: nat)
    requires |s.metas| > 0
  {
    var m := s.metas[Slot(s, r)];
    m.valid && m.req == r
  }

  ghost predicate CountersOk(s: State) {
    && Shape(s) && !s.aborted && s.next == s.tail == |s.submitted| && s.head == |s.delivered| <= s.tail <= s.head + s.ringSize
    && s.inQat == |s.hw.Keys| <= s.maxInQat
  }

  ghost predicate MetaOk(s: State, i: nat)
    requires |s.metas| > 0 && i < |s.metas|
  {
    var m := s.metas[i];
    m.valid ==>
      && s.head <= m.req < s.next && Slot(s, m.req) == i && m.req in s.hw && m.ring == m.req
      && m.req < |s.submitted| && m.ctx == s.submitted[m.req] && m.req !in s.done && m.req !in s.fired
  }

  ghost predicate MetasOk(s: State)
    requires |s.metas| > 0
  {
    forall i :: 0 <= i < |s.metas| ==> MetaOk(s, i)
  }

  ghost predicate HwOk(s: State)
    requires |s.metas| > 0
  {
    && (forall k :: k in s.hw ==> k < s.next && k !in s.reported)
    && (forall k :: k in s.reported ==> k < s.next) && (forall k :: k in s.fired ==> k < s.next)
    && (forall j, k :: j in s.hw && k in s.hw && j != k ==> Slot(s, j) != Slot(s, k))
  }

  // A result under number r: the right user context, and a timeout if r's timer has fired, else the hardware's code for r.
  ghost predicate ResultOk(s: State, r: nat, x: Result) {
    && r < |s.submitted| && x.ctx == s.submitted[r]
    && if r in s.fired then x.status == TimedOut else r in s.reported && x.status == Hw(s.reported[r])
  }

  // Every accepted request not yet handed out either has its result or waits for it.
  ghost predicate DoneOk(s: State)
    requires |s.metas| > 0
  {
    && (forall r :: r in s.done ==> s.head <= r < s.tail && ResultOk(s, r, s.done[r]))
    && (forall r: nat :: s.head <= r < s.tail ==> r in s.done || Waiting(s, r))
    && (forall r :: 0 <= r < |s.delivered| ==> ResultOk(s, r, s.delivered[r]))
  }

  // A slot has a live timer exactly when it is valid.
  ghost predicate TimersOk(s: State) {
    && DistinctArgs(s.timers) && Sorted(s.timers)
    && (forall i: nat :: i < |s.metas| ==> (Armed(s.timers, i) <==> s.metas[i].valid))
    && (forall k :: 0 <= k < |s.timers| ==> s.timers[k].arg < |s.metas|)
  }

  // A request in the hardware finds itself in its context, which is its slot's exactly until it times out.
  ghost predicate OwnContext(s: State, k: nat)
    requires Shape(s) && k in s.hw
  {
    s.callbacks[s.hw[k]] == Callback(true, k)
  }

  ghost predicate PoolContext(s: State, k: nat, i: nat)
    requires Shape(s) && k in s.hw && i < |s.pool|
  {
    s.hw[k] == s.pool[i] <==> i == Slot(s, k) && Waiting(s, k)
  }

  ghost predicate ContextsOk(s: State)
    requires Shape(s)
  {
    && Distinct(s.pool)
    && (forall k :: k in s.hw ==> OwnContext(s, k))
    && (forall k, i: nat :: k in s.hw && i < |s.pool| ==> PoolContext(s, k, i))
  }

  ghost predicate Core(s: State) { CountersOk(s) && MetasOk(s) && HwOk(s) && DoneOk(s) && TimersOk(s) }

  ghost predicate Inv(s: State) { Core(s) && ContextsOk(s) }

  lemma InitInv(s: State)
    requires Init(s)
    ensures Inv(s)
  {
  }

  // ----- each step keeps it; submitting, when the slot is free -----

  lemma SubmitTimers(s: State, ctx: nat, deadline: nat, z: State)
    requires CountersOk(s) && MetasOk(s) && TimersOk(s) && SlotFree(s) && z == Submit(s, ctx, deadline)
    requires forall i :: 0 <= i < |s.timers| ==> s.timers[i].deadline <= deadline
    ensures TimersOk(z)
  {
    hide SlotOf;
    var i := Slot(s, s.next);
    assert MetaOk(s, i) && !s.metas[i].valid;
    forall x: nat | x < |z.metas| ensures Armed(z.timers, x) <==> z.metas[x].valid {
      ArmedSnoc(s.timers, Timer(deadline, i), x);
    }
    forall a | 0 <= a < |s.timers| ensures s.timers[a].arg != i { assert !Armed(s.timers, i); }
  }

  // The slot of a new request is given up, and the next number is in nobody's hands.
  lemma NextIsNew(s: State)
    requires CountersOk(s) && MetasOk(s) && HwOk(s) && SlotFree(s)
    ensures !s.metas[Slot(s, s.next)].valid && s.next !in s.hw && s.next !in s.reported && s.next !in s.fired
  {
    hide SlotOf;
    assert MetaOk(s, Slot(s, s.next));
  }

  lemma SubmitMetas(s: State, ctx: nat, deadline: nat, z: State)
    requires CountersOk(s) && MetasOk(s) && s.next !in s.done && s.next !in s.fired && z == Submit(s, ctx, deadline)
    ensures MetasOk(z)
  {
    hide SlotOf;
    forall x | 0 <= x < |z.metas| ensures MetaOk(z, x) { assert MetaOk(s, x); }
  }

  lemma SubmitHw(s: State, ctx: nat, deadline: nat, z: State)
    requires Shape(s) && HwOk(s) && SlotFree(s) && s.next !in s.hw && z == Submit(s, ctx, deadline)
    requires s.next !in s.reported
    ensures HwOk(z)
  {
    hide SlotOf;
  }

  lemma SubmitCounters(s: State, ctx: nat, deadline: nat, z: State)
    requires CountersOk(s) && !Full(s) && s.next !in s.hw && z == Submit(s, ctx, deadline)
    ensures CountersOk(z)
  {
    SubmitShape(s, ctx, deadline, z);
    hide SlotOf;
    hide Shape;
    OneApart(s.hw.Keys, z.hw.Keys, s.next);
  }

  lemma SubmitShape(s: State, ctx: nat, deadline: nat, z: State)
    requires Shape(s) && z == Submit(s, ctx, deadline)
    ensures Shape(z)
  {
    hide SlotOf;
  }

  lemma SubmitDone(s: State, ctx: nat, deadline: nat, z: State)
    requires CountersOk(s) && MetasOk(s) && DoneOk(s) && SlotFree(s) && z == Submit(s, ctx, deadline)
    ensures DoneOk(z)
  {
    hide SlotOf;
    var i := Slot(s, s.next);
    assert MetaOk(s, i) && !s.metas[i].valid;
    forall r | r in z.done ensures ResultOk(z, r, z.done[r]) { assert ResultOk(s, r, s.done[r]); }
    forall r | 0 <= r < |z.delivered| ensures ResultOk(z, r, z.delivered[r]) { assert ResultOk(s, r, s.delivered[r]); }
    forall r: nat | z.head <= r < z.tail && r !in z.done ensures Waiting(z, r) {
      if r < s.tail { assert Waiting(s, r) && Slot(s, r) != i; }
    }
  }

  lemma SubmitKeeps(s: State, ctx: nat, deadline: nat)
    requires Inv(s) && !Full(s) && SlotFree(s)
    requires forall i :: 0 <= i < |s.timers| ==> s.timers[i].deadline <= deadline
    ensures Inv(Submit(s, ctx, deadline))
  {
    hide HwOk;
    hide MetasOk;
    hide TimersOk;
    hide ContextsOk;
    hide SlotFree;
    hide SlotOf;
    var z := Submit(s, ctx, deadline);
    NotDoneYet(s);
    hide DoneOk;
    NextIsNew(s);
    SubmitTimers(s, ctx, deadline, z);
    SubmitCounters(s, ctx, deadline, z);
    SubmitMetas(s, ctx, deadline, z);
    SubmitHw(s, ctx, deadline, z);
    SubmitDone(s, ctx, deadline, z);
    SubmitContexts(s, ctx, deadline, z);
  }

  lemma NotDoneYet(s: State)
    requires CountersOk(s) && DoneOk(s)
    ensures s.next !in s.done
  {
    hide ResultOk;
    hide Waiting;
  }

  lemma SubmitContexts(s: State, ctx: nat, deadline: nat, z: State)
    requires CountersOk(s) && MetasOk(s) && HwOk(s) && ContextsOk(s) && SlotFree(s) && z == Submit(s, ctx, deadline)
    requires Shape(z)
    ensures ContextsOk(z)
  {
    hide SlotOf;
    NextIsNew(s);
    hide HwOk;
    hide MetasOk;
    hide CountersOk;
    hide OwnContext;
    hide PoolContext;
    forall k | k in z.hw ensures OwnContext(z, k) { SubmitOwn(s, ctx, deadline, z, k); }
    forall k, i: nat | k in z.hw && i < |z.pool| ensures PoolContext(z, k, i) { SubmitPool(s, ctx, deadline, z, k, i); }
  }

  lemma SubmitOwn(s: State, ctx: nat, deadline: nat, z: State, k: nat)
    requires Shape(s) && ContextsOk(s) && SlotFree(s) && z == Submit(s, ctx, deadline) && Shape(z) && k in z.hw
    ensures OwnContext(z, k)
  {
    hide SlotOf;
    if k != s.next { assert OwnContext(s, k) && PoolContext(s, k, Slot(s, s.next)); }
  }

  lemma SubmitPool(s: State, ctx: nat, deadline: nat, z: State, k: nat, i: nat)
    requires Shape(s) && ContextsOk(s) && SlotFree(s) && z == Submit(s, ctx, deadline) && Shape(z)
    requires k in z.hw && i < |z.pool|
    ensures PoolContext(z, k, i)
  {
    var x := Slot(s, s.next);
    hide SlotOf;
    if k == s.next {
      if i != x { Differ(s.pool, i, x); }
    } else {
      assert PoolContext(s, k, i);
    }
  }

  // It is exactly then that submitting keeps it.
  lemma SubmitKeepsIff(s: State, ctx: nat, deadline: nat)
    requires Inv(s) && !Full(s)
    requires forall i :: 0 <= i < |s.timers| ==> s.timers[i].deadline <= deadline
    ensures Inv(Submit(s, ctx, deadline)) <==> SlotFree(s)
  {
    if SlotFree(s) { SubmitKeeps(s, ctx, deadline); } else { SubmitCollides(s, ctx, deadline); }
  }

  lemma SubmitCollides(s: State, ctx: nat, deadline: nat)
    requires Inv(s) && !SlotFree(s)
    ensures !HwOk(Submit(s, ctx, deadline))
  {
    hide SlotOf;
    var z := Submit(s, ctx, deadline);
    var k :| k in s.hw && Slot(s, k) == Slot(s, s.next);
    assert k in z.hw && s.next in z.hw && k != s.next && Slot(z, k) == Slot(z, s.next);
  }

  /** A refused submission keeps it exactly when no request still waiting has the slot: its context is reset. */
  lemma RefuseKeepsIff(s: State)
    requires Inv(s)
    ensures Inv(Refuse(s)) <==> SlotIdle(s)
  {
    var z := Refuse(s);
    SameCore(s, z);
    hide SlotOf;
    hide Core;
    CoreShape(s);
    var x := Slot(s, s.next);
    if SlotIdle(s) {
      forall k | k in z.hw ensures OwnContext(z, k) { assert OwnContext(s, k) && PoolContext(s, k, x); }
      forall k, i: nat | k in z.hw && i < |z.pool| ensures PoolContext(z, k, i) { assert PoolContext(s, k, i); }
    } else {
      var k :| k in s.hw && Waiting(s, k) && Slot(s, k) == x;
      assert PoolContext(s, k, x);
      assert !OwnContext(z, k);
    }
  }

  lemma SameCore(s: State, z: State)
    requires Core(s) && z == s.(callbacks := z.callbacks) && |z.callbacks| == |s.callbacks|
    ensures Core(z)
  {
    hide SlotOf;
    SameDone(s, z);
    hide DoneOk;
    forall j | 0 <= j < |z.metas| ensures MetaOk(z, j) { assert MetaOk(s, j); }
  }

  lemma SameDone(s: State, z: State)
    requires |s.metas| > 0 && DoneOk(s) && z.metas == s.metas && z.done == s.done && z.delivered == s.delivered
    requires z.head == s.head && z.tail == s.tail && z.submitted == s.submitted && z.fired == s.fired
    requires forall k :: k in s.reported ==> k in z.reported && z.reported[k] == s.reported[k]
    ensures DoneOk(z)
  {
    hide SlotOf;
    forall r | r in z.done ensures ResultOk(z, r, z.done[r]) { assert ResultOk(s, r, s.done[r]); }
    forall r | 0 <= r < |z.delivered| ensures ResultOk(z, r, z.delivered[r]) { assert ResultOk(s, r, s.delivered[r]); }
    forall r: nat | z.head <= r < z.tail && r !in z.done ensures Waiting(z, r) { assert Waiting(s, r); }
  }

  lemma CoreShape(s: State)
    requires Core(s)
    ensures Shape(s) && !s.aborted
  {
  }

  // Taking the result of slot i, the same for a completion and for a timeout.
  ghost predicate Settled(s: State, z: State, i: nat, x: Result)
    requires i < |s.metas|
  {
    z == s.(metas := s.metas[i := s.metas[i].(valid := false)], done := s.done[s.metas[i].ring := x],
            timers := z.timers, hw := z.hw, inQat := z.inQat, reported := z.reported,
            callbacks := z.callbacks, pool := z.pool, fired := z.fired)
  }

  lemma SettledKeeps(s: State, z: State, i: nat, x: Result, ts: seq<Timer>)
    requires Core(s) && i < |s.metas| && s.metas[i].valid && Shape(z) && Settled(s, z, i, x) && z.timers == ts
    requires z.hw.Keys <= s.hw.Keys && (forall k :: k in s.hw && k !in z.hw ==> k == s.metas[i].req) && z.inQat == |z.hw|
    requires forall k :: k in s.reported ==> k in z.reported && z.reported[k] == s.reported[k]
    requires (forall k :: k in z.hw ==> k !in z.reported) && (forall k :: k in z.reported ==> k < s.next)
    requires ResultOk(z, s.metas[i].req, x) && (z.fired == s.fired || z.fired == s.fired + {s.metas[i].req})
    requires DistinctArgs(ts) && Sorted(ts) && (forall j: nat :: j < |s.metas| ==> (Armed(ts, j) <==> Armed(s.timers, j) && j != i))
    requires forall k :: 0 <= k < |ts| ==> ts[k].arg < |s.metas|
    ensures Core(z)
  {
    hide SlotOf;
    hide ResultOk;
    hide MetasOk;
    hide DoneOk;
    hide HwOk;
    SubsetCount(z.hw.Keys, s.hw.Keys);
    SettledMetas(s, z, i, x);
    SettledHw(s, z, i);
    SettledDone(s, z, i, x);
  }

  lemma SettledMetas(s: State, z: State, i: nat, x: Result)
    requires CountersOk(s) && MetasOk(s) && i < |s.metas| && s.metas[i].valid && Settled(s, z, i, x)
    requires forall k :: k in s.hw && k !in z.hw ==> k == s.metas[i].req
    requires z.fired == s.fired || z.fired == s.fired + {s.metas[i].req}
    ensures MetasOk(z)
  {
    hide SlotOf;
    assert MetaOk(s, i);
    forall j | 0 <= j < |z.metas| ensures MetaOk(z, j) { assert MetaOk(s, j); }
  }

  lemma SettledHw(s: State, z: State, i: nat)
    requires CountersOk(s) && MetasOk(s) && i < |s.metas| && s.metas[i].valid
    requires z.fired == s.fired || z.fired == s.fired + {s.metas[i].req}
    requires HwOk(s) && |z.metas| == |s.metas| && z.hw.Keys <= s.hw.Keys && z.next == s.next
    requires (forall k :: k in z.hw ==> k !in z.reported) && (forall k :: k in z.reported ==> k < s.next)
    ensures HwOk(z)
  {
    hide SlotOf;
    assert MetaOk(s, i);
    hide MetasOk;
    forall k | k in z.hw ensures k in s.hw { assert k in z.hw.Keys; }
    forall j, k | j in z.hw && k in z.hw && j != k ensures Slot(z, j) != Slot(z, k) { assert Slot(s, j) != Slot(s, k); }
  }

  lemma SettledDone(s: State, z: State, i: nat, x: Result)
    requires CountersOk(s) && MetasOk(s) && DoneOk(s) && i < |s.metas| && s.metas[i].valid && Settled(s, z, i, x)
    requires forall k :: k in s.reported ==> k in z.reported && z.reported[k] == s.reported[k]
    requires ResultOk(z, s.metas[i].req, x) && (z.fired == s.fired || z.fired == s.fired + {s.metas[i].req})
    ensures DoneOk(z)
  {
    hide SlotOf;
    hide ResultOk;
    var r0 := s.metas[i].req;
    assert MetaOk(s, i);
    hide MetasOk;
    forall r, y | ResultOk(s, r, y) && r != r0 ensures ResultOk(z, r, y) { SettledResult(s, z, r, y, r0); }
    forall r: nat | z.head <= r < z.tail && r !in z.done ensures Waiting(z, r) { assert Waiting(s, r) && Slot(s, r) != i; }
  }

  lemma SettledResult(s: State, z: State, r: nat, y: Result, r0: nat)
    requires ResultOk(s, r, y) && r != r0 && z.submitted == s.submitted && (z.fired == s.fired || z.fired == s.fired + {r0})
    requires forall k :: k in s.reported ==> k in z.reported && z.reported[k] == s.reported[k]
    ensures ResultOk(z, r, y)
  {
  }

  // The slot of a request that the hardware has is valid exactly while the request waits there.
  lemma HwSlot(s: State, k: nat)
    requires Inv(s) && k in s.hw
    ensures Shape(s) && OwnContext(s, k) && s.inQat > 0 && k < |s.submitted| && k !in s.reported
    ensures var m := s.metas[Slot(s, k)];
      m.valid ==> m.req == m.ring == k && m.ctx == s.submitted[k] && k !in s.done && k !in s.fired && s.head <= k
  {
    hide SlotOf;
    hide DoneOk;
    hide TimersOk;
    hide PoolContext;
    assert MetaOk(s, Slot(s, k));
    assert s.hw.Keys != {} by { assert k in s.hw.Keys; }
  }

  lemma CompleteKeeps(s: State, k: nat, code: int)
    requires Inv(s) && k in s.hw
    ensures Shape(s) && Inv(Complete(s, k, code)) && s.callbacks[s.hw[k]] == Callback(true, k)
  {
    hide SlotOf;
    hide Inv;
    HwSlot(s, k);
    var z, i := Complete(s, k, code), Slot(s, k);
    if s.metas[i].valid { PromptKeeps(s, k, code, z); } else { LateCompletion(s, k, code, z); }
    CompleteShape(s, k, code, z);
    CompleteContexts(s, k, code, z);
    InvIs(z);
  }

  lemma InvIs(s: State)
    ensures Inv(s) <==> Core(s) && ContextsOk(s)
  {
    hide CountersOk;
    hide MetasOk;
    hide HwOk;
    hide DoneOk;
    hide TimersOk;
  }

  // A completion of a request that has timed out.
  lemma LateKeeps(s: State, k: nat, code: int, z: State)
    requires Core(s) && k in s.hw && !Waiting(s, k) && |z.callbacks| == |s.callbacks| && s.inQat > 0
    requires z == s.(hw := s.hw - {k}, inQat := s.inQat - 1, reported := s.reported[k := code], callbacks := z.callbacks)
    ensures Core(z)
  {
    hide SlotOf;
    LateCounters(s, k, z);
    assert HwOk(z);
    assert MetaOk(s, Slot(s, k));
    SameDone(s, z);
    hide DoneOk;
    hide HwOk;
    forall j | 0 <= j < |z.metas| ensures MetaOk(z, j) { assert MetaOk(s, j); }
  }

  lemma LateCompletion(s: State, k: nat, code: int, z: State)
    requires Inv(s) && k in s.hw && Shape(s) && z == Complete(s, k, code) && !s.metas[Slot(s, k)].valid
    ensures Core(z)
  {
    hide Inv;
    hide SlotOf;
    HwSlot(s, k);
    InvIs(s);
    hide Core;
    LateKeeps(s, k, code, z);
  }

  lemma PromptKeeps(s: State, k: nat, code: int, z: State)
    requires Inv(s) && k in s.hw && Shape(s) && z == Complete(s, k, code) && s.metas[Slot(s, k)].valid
    ensures Core(z)
  {
    hide Inv;
    hide SlotOf;
    hide Core;
    hide Shape;
    hide DistinctArgs;
    hide Sorted;
    hide Armed;
    hide Disarm;
    HwSlot(s, k);
    InvIs(s);
    CompleteShape(s, k, code, z);
    var i, ts := Slot(s, k), Disarm(s.timers, Slot(s, k));
    PromptTimers(s, i, ts);
    PromptHw(s, k, code, z);
    SettledKeeps(s, z, i, Result(s.metas[i].ctx, Hw(code)), ts);
  }

  lemma PromptTimers(s: State, i: nat, ts: seq<Timer>)
    requires Core(s) && ts == Disarm(s.timers, i)
    ensures DistinctArgs(ts) && Sorted(ts) && (forall j: nat :: j < |s.metas| ==> (Armed(ts, j) <==> Armed(s.timers, j) && j != i))
    ensures forall k :: 0 <= k < |ts| ==> ts[k].arg < |s.metas|
  {
    hide CountersOk;
    hide MetasOk;
    hide HwOk;
    hide DoneOk;
    hide DistinctArgs;
    hide Sorted;
    hide Armed;
    hide Disarm;
    forall j: nat | j < |s.metas| ensures Armed(ts, j) <==> Armed(s.timers, j) && j != i { DisarmFacts(s.timers, i, j); }
    DisarmFacts(s.timers, i, 0);
  }

  lemma PromptHw(s: State, k: nat, code: int, z: State)
    requires Core(s) && k in s.hw && z == Complete(s, k, code) && s.callbacks[s.hw[k]] == Callback(true, k)
    ensures z.hw == s.hw - {k} && z.hw.Keys == s.hw.Keys - {k} && z.inQat == |z.hw| && z.reported == s.reported[k := code]
    ensures (forall j :: j in z.hw ==> j !in z.reported) && (forall j :: j in z.reported ==> j < s.next)
  {
    hide SlotOf;
    hide MetasOk;
    hide DoneOk;
    hide TimersOk;
    hide Disarm;
    assert z.hw == s.hw - {k} && z.reported == s.reported[k := code];
    OneApart(s.hw.Keys, z.hw.Keys, k);
    assert z.hw.Keys == s.hw.Keys - {k};
  }

  lemma CompleteShape(s: State, k: nat, code: int, z: State)
    requires Shape(s) && k in s.hw && z == Complete(s, k, code)
    ensures Shape(z)
  {
    hide SlotOf;
    hide Disarm;
  }

  lemma LateCounters(s: State, k: nat, z: State)
    requires CountersOk(s) && k in s.hw && |z.callbacks| == |s.callbacks| && s.inQat > 0
    requires z == s.(hw := s.hw - {k}, inQat := s.inQat - 1, reported := z.reported, callbacks := z.callbacks)
    ensures CountersOk(z)
  {
    OneApart(s.hw.Keys, z.hw.Keys, k);
  }

  lemma CompleteContexts(s: State, k: nat, code: int, z: State)
    requires Inv(s) && Shape(s) && k in s.hw && z == Complete(s, k, code) && Shape(z)
    ensures ContextsOk(z)
  {
    hide Inv;
    hide SlotOf;
    hide Disarm;
    HwSlot(s, k);
    InvIs(s);
    SlotsApart(s, k);
    hide Core;
    hide OwnContext;
    hide PoolContext;
    assert z.hw == s.hw - {k} && z.pool == s.pool;
    forall j | j in z.hw ensures OwnContext(z, j) { CompleteOwn(s, k, code, z, j); }
    forall j, i: nat | j in z.hw && i < |z.pool| ensures PoolContext(z, j, i) { CompletePool(s, k, code, z, j, i); }
  }

  lemma SlotsApart(s: State, k: nat)
    requires Core(s) && k in s.hw
    ensures forall j :: j in s.hw && j != k ==> Slot(s, j) != Slot(s, k)
  {
    hide SlotOf;
    hide MetasOk;
    hide DoneOk;
    hide TimersOk;
  }

  lemma CompleteOwn(s: State, k: nat, code: int, z: State, j: nat)
    requires Shape(s) && ContextsOk(s) && k in s.hw && z == Complete(s, k, code) && Shape(z) && j in s.hw && j != k
    requires OwnContext(s, k) && j in z.hw
    ensures OwnContext(z, j)
  {
    hide SlotOf;
    hide Disarm;
    hide PoolContext;
    assert OwnContext(s, j);
  }

  lemma CompletePool(s: State, k: nat, code: int, z: State, j: nat, i: nat)
    requires Shape(s) && ContextsOk(s) && k in s.hw && OwnContext(s, k) && z == Complete(s, k, code) && Shape(z)
    requires j in s.hw && j != k && Slot(s, j) != Slot(s, k) && j in z.hw && i < |z.pool|
    ensures PoolContext(z, j, i)
  {
    hide SlotOf;
    hide Disarm;
    assert PoolContext(s, j, i);
  }

  lemma FireKeeps(s: State)
    requires Inv(s) && s.timers != []
    ensures Shape(s) && s.timers[0].arg < |s.metas| && s.metas[s.timers[0].arg].valid && Inv(Fire(s))
  {
    hide Inv;
    hide SlotOf;
    FireOne(s);
    InvIs(s);
    FireHw(s);
    hide Core;
    FireTimers(s);
    var z, i := Fire(s), s.timers[0].arg;
    SettledKeeps(s, z, i, Result(s.metas[i].ctx, TimedOut), s.timers[1..]);
    FireContexts(s, z);
    InvIs(z);
  }

  lemma FireTimers(s: State)
    requires Core(s) && s.timers != []
    ensures var i, ts := s.timers[0].arg, s.timers[1..];
      && DistinctArgs(ts) && Sorted(ts) && (forall k :: 0 <= k < |ts| ==> ts[k].arg < |s.metas|)
      && (forall j: nat :: j < |s.metas| ==> (Armed(ts, j) <==> Armed(s.timers, j) && j != i))
  {
    hide CountersOk;
    hide MetasOk;
    hide HwOk;
    hide DoneOk;
    var i, ts := s.timers[0].arg, s.timers[1..];
    assert forall k :: 0 <= k < |ts| ==> ts[k] == s.timers[k + 1];
    forall j: nat | j < |s.metas| ensures Armed(ts, j) <==> Armed(s.timers, j) && j != i { ArmedCons(s.timers, j); }
  }

  lemma FireHw(s: State)
    requires Core(s)
    ensures s.inQat == |s.hw.Keys| && (forall k :: k in s.hw ==> k !in s.reported) && (forall k :: k in s.reported ==> k < s.next)
  {
    hide SlotOf;
    hide MetasOk;
    hide DoneOk;
    hide TimersOk;
  }

  lemma FireContexts(s: State, z: State)
    requires Shape(s) && ContextsOk(s) && s.timers != [] && s.timers[0].arg < |s.metas|
    requires var m := s.metas[s.timers[0].arg]; m.valid && Slot(s, m.req) == s.timers[0].arg
    requires z == Fire(s) && Shape(z)
    ensures ContextsOk(z)
  {
    hide SlotOf;
    hide OwnContext;
    hide PoolContext;
    forall a, b | 0 <= a < b < |z.pool| ensures z.pool[a] != z.pool[b] { Differ(s.pool, a, b); }
    forall k | k in z.hw ensures OwnContext(z, k) { FireOwn(s, z, k); }
    forall k, i: nat | k in z.hw && i < |z.pool| ensures PoolContext(z, k, i) { FirePool(s, z, k, i); }
  }

  lemma FireOwn(s: State, z: State, k: nat)
    requires Shape(s) && k in s.hw && OwnContext(s, k) && s.timers != [] && s.timers[0].arg < |s.metas|
    requires z == Fire(s) && Shape(z)
    ensures OwnContext(z, k)
  {
  }

  lemma FirePool(s: State, z: State, k: nat, i: nat)
    requires Shape(s) && k in s.hw && i < |s.pool| && PoolContext(s, k, i) && s.timers != [] && s.timers[0].arg < |s.metas|
    requires var m := s.metas[s.timers[0].arg]; m.valid && Slot(s, m.req) == s.timers[0].arg
    requires z == Fire(s) && Shape(z)
    ensures PoolContext(z, k, i)
  {
    hide SlotOf;
  }

  lemma PopKeeps(s: State)
    requires Inv(s) && s.head in s.done
    ensures Inv(Pop(s))
  {
    hide SlotOf;
    hide ContextsOk;
    hide MetasOk;
    hide HwOk;
    var z := Pop(s);
    assert ResultOk(s, s.head, s.done[s.head]);
    PopMetas(s, z);
    PopHw(s, z);
    PopDone(s, z);
    hide DoneOk;
    PopContexts(s, z);
  }

  lemma PopMetas(s: State, z: State)
    requires CountersOk(s) && MetasOk(s) && s.head in s.done && s.head < s.tail && z == Pop(s)
    ensures CountersOk(z) && MetasOk(z)
  {
    hide SlotOf;
    forall j | 0 <= j < |z.metas| ensures MetaOk(z, j) { assert MetaOk(s, j); }
  }

  lemma PopHw(s: State, z: State)
    requires |s.metas| > 0 && HwOk(s) && z.hw == s.hw && z.reported == s.reported && z.next == s.next && z.metas == s.metas
    requires z.fired == s.fired
    ensures HwOk(z)
  {
    hide SlotOf;
    forall j, k | j in z.hw && k in z.hw && j != k ensures Slot(z, j) != Slot(z, k) { assert Slot(s, j) != Slot(s, k); }
  }

  lemma PopContexts(s: State, z: State)
    requires Shape(s) && Shape(z) && ContextsOk(s)
    requires z.hw == s.hw && z.pool == s.pool && z.callbacks == s.callbacks && z.metas == s.metas
    ensures ContextsOk(z)
  {
    hide SlotOf;
    forall k | k in z.hw ensures OwnContext(z, k) { assert OwnContext(s, k); }
    forall k, i: nat | k in z.hw && i < |z.pool| ensures PoolContext(z, k, i) { assert PoolContext(s, k, i); }
  }

  lemma PopDone(s: State, z: State)
    requires |s.metas| > 0 && s.head == |s.delivered| && DoneOk(s) && s.head in s.done && z == Pop(s)
    ensures DoneOk(z)
  {
    hide SlotOf;
    hide ResultOk;
    hide Waiting;
    assert ResultOk(s, s.head, s.done[s.head]);
    forall r, x | ResultOk(s, r, x) ensures ResultOk(z, r, x) { PopResult(s, z, r, x); }
    forall r: nat | z.head <= r < z.tail && r !in z.done ensures Waiting(z, r) { PopWaiting(s, z, r); }
  }

  lemma PopResult(s: State, z: State, r: nat, x: Result)
    requires ResultOk(s, r, x) && z.submitted == s.submitted && z.reported == s.reported && z.fired == s.fired
    ensures ResultOk(z, r, x)
  {
  }

  lemma PopWaiting(s: State, z: State, r: nat)
    requires |s.metas| > 0 && Waiting(s, r) && z.metas == s.metas
    ensures Waiting(z, r)
  {
  }

  // A step in which no submission meets its own slot: in the hardware if accepted, waiting there if refused.
  ghost predicate GoodStep(s: State, e: Event, z: State) {
    Step(s, e, z) && (e.SubmitOk? ==> SlotFree(s)) && (e.SubmitRefused? ==> SlotIdle(s))
  }

  lemma StepKeepsInv(s: State, e: Event, z: State)
    requires Inv(s) && GoodStep(s, e, z)
    ensures Inv(z)
  {
    hide Inv;
    match e
    case SubmitOk(ctx, deadline) => SubmitKeeps(s, ctx, deadline);
    case SubmitRefused => RefuseKeepsIff(s);
    case HwComplete(k, code) => CompleteKeeps(s, k, code);
    case TimerFires(now) => FireKeeps(s);
    case PopOne => PopKeeps(s);
  }

  ghost predicate Run(ss: seq<State>, es: seq<Event>) {
    && |ss| == |es| + 1 && Init(ss[0])
    && forall i :: 0 <= i < |es| ==> GoodStep(ss[i], es[i], ss[i + 1])
  }

  lemma {:induction false} RunKeepsInv(ss: seq<State>, es: seq<Event>, i: nat)
    requires Run(ss, es) && i < |ss|
    ensures Inv(ss[i])
  {
    hide Inv;
    hide GoodStep;
    if i == 0 {
      InitInv(ss[0]);
    } else {
      RunKeepsInv(ss, es, i - 1);
      StepKeepsInv(ss[i - 1], es[i - 1], ss[i]);
    }
  }

  /** Exactly one result per accepted request, in submission order, with the user's own context: a timeout if its timer has
   *  fired, and else the code the hardware reported for that very request.  A slot has a timer exactly while its request
   *  waits. */
  lemma InOrderExactlyOnce(ss: seq<State>, es: seq<Event>, i: nat)
    requires Run(ss, es) && i < |ss|
    ensures var s := ss[i];
      && |s.delivered| <= |s.submitted| && |s.metas| > 0
      && (forall r :: 0 <= r < |s.delivered| ==> ResultOk(s, r, s.delivered[r]))
      && (forall r: nat :: |s.delivered| <= r < |s.submitted| ==>
           (r in s.done || Waiting(s, r)) && !(r in s.done && Waiting(s, r)))
      && (forall j: nat :: j < |s.metas| ==> (Armed(s.timers, j) <==> s.metas[j].valid))
      && |s.hw| <= s.maxInQat && !s.aborted
  {
    RunKeepsInv(ss, es, i);
    var s := ss[i];
    forall r: nat | |s.delivered| <= r < |s.submitted| ensures !(r in s.done && Waiting(s, r)) {
      assert MetaOk(s, Slot(s, r));
    }
  }

  /** A completion in time gives the request, and no other, the code that the hardware reports. */
  lemma PromptCompletion(s: State, k: nat, code: int)
    requires Inv(s) && k in s.hw && Waiting(s, k)
    ensures k < |s.submitted| && k !in s.done
    ensures var z := Complete(s, k, code);
      && z.done == s.done[k := Result(s.submitted[k], Hw(code))] && z.delivered == s.delivered && z.head == s.head
      && z.fired == s.fired && !Waiting(z, k)
  {
    hide SlotOf;
    hide Inv;
    hide Disarm;
    HwSlot(s, k);
  }

  // ----- runs, by their events -----

  function Contexts(es: seq<Event>): seq<nat> {
    if es == [] then [] else
      var n := |es| - 1;
      if es[n].SubmitOk? then Contexts(es[..n]) + [es[n].ctx] else Contexts(es[..n])
  }

  function Deadlines(es: seq<Event>): seq<nat> {
    if es == [] then [] else
      var n := |es| - 1;
      if es[n].SubmitOk? then Deadlines(es[..n]) + [es[n].deadline] else Deadlines(es[..n])
  }

  function Codes(es: seq<Event>): map<nat, int> {
    if es == [] then map[] else
      var n := |es| - 1;
      if es[n].HwComplete? then Codes(es[..n])[es[n].k := es[n].code] else Codes(es[..n])
  }

  // Every timer has the deadline its request was submitted with.
  ghost predicate HasDeadline(s: State, due: seq<nat>, t: Timer) {
    t.arg < |s.metas| && s.metas[t.arg].req < |due| && t.deadline == due[s.metas[t.arg].req]
  }

  ghost predicate Timely(s: State, due: seq<nat>) {
    |due| == |s.submitted| && forall k :: 0 <= k < |s.timers| ==> HasDeadline(s, due, s.timers[k])
  }

  lemma {:induction false} LogsAreEvents(ss: seq<State>, es: seq<Event>, i: nat)
    requires Run(ss, es) && i < |ss|
    ensures ss[i].submitted == Contexts(es[..i]) && ss[i].reported == Codes(es[..i]) && Timely(ss[i], Deadlines(es[..i]))
  {
    hide Inv;
    hide GoodStep;
    if i > 0 {
      LogsAreEvents(ss, es, i - 1);
      RunKeepsInv(ss, es, i - 1);
      assert es[..i][..i - 1] == es[..i - 1] && es[..i][i - 1] == es[i - 1];
      OneMoreEvent(ss[i - 1], es[..i - 1], es[i - 1], ss[i], es[..i]);
    }
  }

  lemma OneMoreEvent(s: State, es: seq<Event>, e: Event, z: State, fs: seq<Event>)
    requires Inv(s) && GoodStep(s, e, z) && fs != [] && fs[..|fs| - 1] == es && fs[|fs| - 1] == e
    requires s.submitted == Contexts(es) && s.reported == Codes(es) && Timely(s, Deadlines(es))
    ensures z.submitted == Contexts(fs) && z.reported == Codes(fs) && Timely(z, Deadlines(fs))
  {
    hide Inv;
    hide SlotOf;
    hide Disarm;
    hide HasDeadline;
    match e
    case SubmitOk(ctx, deadline) => TimelySubmit(s, ctx, deadline, z, Deadlines(es));
    case HwComplete(k, code) => HwSlot(s, k); TimelyComplete(s, k, code, z, Deadlines(es));
    case TimerFires(now) => TimelyFire(s, z, Deadlines(es));
    case SubmitRefused => TimelySame(s, z, Deadlines(es));
    case PopOne => TimelySame(s, z, Deadlines(es));
  }

  lemma TimelySame(s: State, z: State, due: seq<nat>)
    requires Timely(s, due) && z.timers == s.timers && z.metas == s.metas && z.submitted == s.submitted
    ensures Timely(z, due)
  {
    forall k | 0 <= k < |z.timers| ensures HasDeadline(z, due, z.timers[k]) { assert HasDeadline(s, due, s.timers[k]); }
  }

  lemma TimelySubmit(s: State, ctx: nat, deadline: nat, z: State, due: seq<nat>)
    requires Inv(s) && Shape(s) && SlotFree(s) && Timely(s, due) && z == Submit(s, ctx, deadline)
    ensures Timely(z, due + [deadline])
  {
    hide SlotOf;
    hide Inv;
    NewSlot(s);
    forall k | 0 <= k < |z.timers| ensures HasDeadline(z, due + [deadline], z.timers[k]) {
      if k < |s.timers| { assert HasDeadline(s, due, s.timers[k]) && s.timers[k].arg != Slot(s, s.next); }
    }
  }

  lemma NewSlot(s: State)
    requires Inv(s) && Shape(s) && SlotFree(s)
    ensures s.next == |s.submitted| && forall k :: 0 <= k < |s.timers| ==> s.timers[k].arg != Slot(s, s.next)
  {
    hide DoneOk;
    hide ContextsOk;
    hide SlotOf;
    NextIsNew(s);
    forall k | 0 <= k < |s.timers| ensures s.timers[k].arg != Slot(s, s.next) { assert Armed(s.timers, s.timers[k].arg); }
  }

  lemma TimelyComplete(s: State, k: nat, code: int, z: State, due: seq<nat>)
    requires Shape(s) && k in s.hw && Timely(s, due) && z == Complete(s, k, code)
    ensures Timely(z, due)
  {
    hide SlotOf;
    hide Disarm;
    forall j | 0 <= j < |z.timers| ensures HasDeadline(z, due, z.timers[j]) {
      forall i { DisarmIn(s.timers, i, z.timers[j]); }
      assert z.timers[j] in s.timers;
      var x :| 0 <= x < |s.timers| && s.timers[x] == z.timers[j];
      assert HasDeadline(s, due, s.timers[x]);
    }
  }

  lemma TimelyFire(s: State, z: State, due: seq<nat>)
    requires Shape(s) && s.timers != [] && s.timers[0].arg < |s.metas| && Timely(s, due) && z == Fire(s)
    ensures Timely(z, due)
  {
    forall j | 0 <= j < |z.timers| ensures HasDeadline(z, due, z.timers[j]) { assert HasDeadline(s, due, s.timers[j + 1]); }
  }

  // Request r stops waiting because a timer fires, at or after its own deadline.
  ghost predicate ExpiresAt(ss: seq<State>, es: seq<Event>, j: nat, r: nat)
    requires |ss| == |es| + 1 && j < |es|
  {
    && es[j].TimerFires? && |ss[j].metas| > 0 && |ss[j + 1].metas| > 0 && Waiting(ss[j], r) && !Waiting(ss[j + 1], r)
    && r < |Deadlines(es[..j])| && Deadlines(es[..j])[r] <= es[j].now
  }

  ghost predicate Expires(ss: seq<State>, es: seq<Event>, i: nat, r: nat)
    requires |ss| == |es| + 1 && i <= |es|
  {
    exists j: nat :: j < i && ExpiresAt(ss, es, j, r)
  }

  lemma FiresStep(s: State, e: Event, z: State, due: seq<nat>, r: nat)
    requires Inv(s) && GoodStep(s, e, z) && Timely(s, due)
    ensures |s.metas| > 0 && |z.metas| > 0
    ensures r in z.fired && r !in s.fired <==>
      e.TimerFires? && Waiting(s, r) && !Waiting(z, r) && r < |due| && due[r] <= e.now
    ensures r in s.fired ==> r in z.fired
  {
    hide Inv;
    hide SlotOf;
    hide Disarm;
    CoreParts(s);
    match e
    case TimerFires(now) => FireOne(s); FiredNew(s); assert HasDeadline(s, due, s.timers[0]);
    case HwComplete(k, code) => HwSlot(s, k);
    case _ =>
  }

  lemma FiredNew(s: State)
    requires Inv(s) && s.timers != []
    ensures s.timers[0].arg < |s.metas| && s.metas[s.timers[0].arg].req !in s.fired
  {
    hide DoneOk;
    hide HwOk;
    hide ContextsOk;
    hide SlotOf;
    var i := s.timers[0].arg;
    assert Armed(s.timers, i) && MetaOk(s, i);
  }

  lemma {:induction false} FiredIffExpires(ss: seq<State>, es: seq<Event>, i: nat, r: nat)
    requires Run(ss, es) && i < |ss|
    ensures r in ss[i].fired <==> Expires(ss, es, i, r)
  {
    hide Inv;
    hide GoodStep;
    hide Timely;
    if i > 0 {
      FiredIffExpires(ss, es, i - 1, r);
      RunKeepsInv(ss, es, i - 1);
      LogsAreEvents(ss, es, i - 1);
      FiresStep(ss[i - 1], es[i - 1], ss[i], Deadlines(es[..i - 1]), r);
      if r in ss[i].fired && r !in ss[i - 1].fired { assert ExpiresAt(ss, es, i - 1, r); }
    }
  }

  /** In every run, read off its events: the r-th result has the context of the r-th accepted submission.  It is a timeout
   *  exactly when a timer fired for r while it waited, at or after r's deadline; otherwise it is the code that the hardware
   *  completed r with. */
  lemma ResultsByEvents(ss: seq<State>, es: seq<Event>, i: nat, r: nat)
    requires Run(ss, es) && i < |ss| && r < |ss[i].delivered|
    ensures r < |Contexts(es[..i])| && ss[i].delivered[r].ctx == Contexts(es[..i])[r]
    ensures ss[i].delivered[r].status == TimedOut <==> Expires(ss, es, i, r)
    ensures !Expires(ss, es, i, r) ==> r in Codes(es[..i]) && ss[i].delivered[r].status == Hw(Codes(es[..i])[r])
  {
    hide Expires;
    hide Timely;
    InOrderExactlyOnce(ss, es, i);
    LogsAreEvents(ss, es, i);
    FiredIffExpires(ss, es, i, r);
    assert ResultOk(ss[i], r, ss[i].delivered[r]);
    hide Run;
  }

  /** A completion that comes after its request timed out changes no result and no slot. */
  lemma LateCompletionIsDropped(s: State, k: nat, code: int)
    requires Inv(s) && k in s.hw && !Waiting(s, k)
    ensures var z := Complete(s, k, code);
      z.done == s.done && z.metas == s.metas && z.timers == s.timers && z.delivered == s.delivered && z.head == s.head
  {
    hide SlotOf;
    assert MetaOk(s, Slot(s, k));
  }

  // ----- what happens otherwise -----

  /** Every completion finds its channel and its own request, and in the slot its own request or none. */
  ghost predicate Attributed(s: State)
    requires Shape(s)
  {
    forall k :: k in s.hw ==>
      && s.callbacks[s.hw[k]] == Callback(true, k)
      && (s.metas[Slot(s, k)].valid ==> s.metas[Slot(s, k)].req == k)
  }

  /** After a submission that the driver accepts, every completion is attributed if and only if no request the hardware
   *  still has shares the slot; after one that it refuses, if and only if none of them that still waits does. */
  lemma AttributedIff(s: State, ctx: nat, deadline: nat)
    requires Inv(s)
    ensures Attributed(Submit(s, ctx, deadline)) <==> SlotFree(s)
    ensures Attributed(Refuse(s)) <==> SlotIdle(s)
  {
    AcceptedIff(s, ctx, deadline, Submit(s, ctx, deadline));
    RefusedIff(s, Refuse(s));
  }

  ghost predicate AttributedAt(s: State, k: nat)
    requires Shape(s) && k in s.hw
  {
    OwnContext(s, k) && (s.metas[Slot(s, k)].valid ==> s.metas[Slot(s, k)].req == k)
  }

  lemma AttributedIs(s: State)
    requires Shape(s)
    ensures Attributed(s) <==> forall k :: k in s.hw ==> AttributedAt(s, k)
  {
    hide SlotOf;
    if forall k :: k in s.hw ==> AttributedAt(s, k) {
      forall k | k in s.hw
        ensures s.callbacks[s.hw[k]] == Callback(true, k) && (s.metas[Slot(s, k)].valid ==> s.metas[Slot(s, k)].req == k)
      {
        assert AttributedAt(s, k);
      }
    }
  }

  // What the invariant says of a request in the hardware and a slot.
  lemma ContextAt(s: State, k: nat, i: nat)
    requires Inv(s) && k in s.hw && i < |s.metas|
    ensures Shape(s) && AttributedAt(s, k) && PoolContext(s, k, i) && k != s.next
  {
    hide SlotOf;
    hide DoneOk;
    hide TimersOk;
    assert MetaOk(s, Slot(s, k)) && OwnContext(s, k);
  }

  lemma AcceptedIff(s: State, ctx: nat, deadline: nat, z: State)
    requires Inv(s) && Shape(s) && z == Submit(s, ctx, deadline)
    ensures Shape(z) && (Attributed(z) <==> SlotFree(s))
  {
    hide Inv;
    hide SlotOf;
    var x := Slot(s, s.next);
    AttributedIs(z);
    if SlotFree(s) {
      forall k | k in z.hw ensures AttributedAt(z, k) { if k != s.next { ContextAt(s, k, x); } }
    } else {
      var k :| k in s.hw && Slot(s, k) == x;
      ContextAt(s, k, x);
      assert k in z.hw && !AttributedAt(z, k);
    }
  }

  lemma RefusedIff(s: State, z: State)
    requires Inv(s) && Shape(s) && z == Refuse(s)
    ensures Shape(z) && (Attributed(z) <==> SlotIdle(s))
  {
    hide Inv;
    hide SlotOf;
    var x := Slot(s, s.next);
    AttributedIs(z);
    if SlotIdle(s) {
      forall k | k in z.hw ensures AttributedAt(z, k) { ContextAt(s, k, x); }
    } else {
      var k :| k in s.hw && Waiting(s, k) && Slot(s, k) == x;
      ContextAt(s, k, x);
      assert !AttributedAt(z, k);
    }
  }

  /** Otherwise the completion of the old request k becomes the result of the new one, which the hardware still has. */
  lemma Misattributed(s: State, ctx: nat, deadline: nat, k: nat, code: int)
    requires Inv(s) && k in s.hw && Slot(s, k) == Slot(s, s.next)
    ensures var z := Complete(Submit(s, ctx, deadline), k, code);
      && s.next in z.hw && s.next !in z.reported
      && s.next in z.done && z.done[s.next] == Result(ctx, Hw(code))
      && !ResultOk(z, s.next, z.done[s.next])
  {
    hide SlotOf;
    var u := Submit(s, ctx, deadline);
    ContextAt(s, k, Slot(s, k));
    assert u.metas[Slot(u, k)] == Meta(true, s.next, s.tail, ctx);
    assert u.callbacks[u.hw[k]].live && Slot(u, u.callbacks[u.hw[k]].req) == Slot(u, k);
  }

  /** If the old request still waited, the two share one context, and the second completion finds no channel in it. */
  lemma SecondAborts(s: State, ctx: nat, deadline: nat, k: nat, code: int, other: int)
    requires Inv(s) && k in s.hw && Waiting(s, k) && Slot(s, k) == Slot(s, s.next)
    ensures var z := Complete(Submit(s, ctx, deadline), k, code);
      s.next in z.hw && Shape(z) && Complete(z, s.next, other).aborted
  {
    hide SlotOf;
    var u := Submit(s, ctx, deadline);
    ContextAt(s, k, Slot(s, k));
    assert u.hw[k] == u.hw[s.next] == s.pool[Slot(s, k)];
  }

  /** A refused submission that meets a waiting request resets the context the hardware has for it: its completion finds
   *  no channel there. */
  lemma RefusalAborts(s: State, k: nat, code: int)
    requires Inv(s) && k in s.hw && Waiting(s, k) && Slot(s, k) == Slot(s, s.next)
    ensures Complete(Refuse(s), k, code).aborted
  {
    hide SlotOf;
    ContextAt(s, k, Slot(s, k));
  }

  // ----- a request whose slot is taken over while it waits is lost -----

  // Nothing that may still happen can give request k a result.
  ghost predicate Lost(s: State, k: nat) {
    && Shape(s) && k < s.next == s.tail && k !in s.done && s.head <= k
    && forall i :: 0 <= i < |s.metas| && (s.metas[i].valid || Armed(s.timers, i)) ==>
         s.metas[i].ring != k && s.metas[i].req != k
  }

  lemma TakenOverIsLost(s: State, ctx: nat, deadline: nat, k: nat)
    requires Inv(s) && k in s.hw && Waiting(s, k) && Slot(s, k) == Slot(s, s.next)
    ensures Lost(Submit(s, ctx, deadline), k)
  {
    hide SlotOf;
    var z, x := Submit(s, ctx, deadline), Slot(s, s.next);
    assert MetaOk(s, x);
    forall i: nat | i < |z.metas| && (z.metas[i].valid || Armed(z.timers, i)) && i != x
      ensures z.metas[i].ring != k && z.metas[i].req != k
    {
      ArmedSnoc(s.timers, Timer(deadline, x), i);
      assert MetaOk(s, i);
    }
  }

  // Whatever step is taken, good or not.
  lemma LostStaysLost(s: State, e: Event, z: State, k: nat)
    requires Lost(s, k) && Step(s, e, z)
    ensures Lost(z, k)
  {
    hide SlotOf;
    hide Disarm;
    if e.HwComplete? { forall i: nat | i < |s.metas| { DisarmLeaves(s.timers, i, i); } LostByComplete(s, e.k, e.code, z, k); }
    if e.SubmitOk? { LostBySubmit(s, e.ctx, e.deadline, z, k); }
    if e.TimerFires? {
      forall i: nat | i < |z.metas| && (z.metas[i].valid || Armed(z.timers, i))
        ensures z.metas[i].ring != k && z.metas[i].req != k
      {
        ArmedCons(s.timers, i);
      }
      ArmedCons(s.timers, s.timers[0].arg);
    }
  }

  lemma LostBySubmit(s: State, ctx: nat, deadline: nat, z: State, k: nat)
    requires Lost(s, k) && z == Submit(s, ctx, deadline)
    ensures Lost(z, k)
  {
    hide SlotOf;
    forall i: nat | i < |z.metas| && (z.metas[i].valid || Armed(z.timers, i))
      ensures z.metas[i].ring != k && z.metas[i].req != k
    {
      ArmedSnoc(s.timers, Timer(deadline, Slot(s, s.next)), i);
    }
  }

  lemma LostByComplete(s: State, j: nat, code: int, z: State, k: nat)
    requires Lost(s, k) && j in s.hw && z == Complete(s, j, code)
    ensures Lost(z, k)
  {
    hide SlotOf;
    hide Disarm;
    var x := Slot(s, s.callbacks[s.hw[j]].req);
    forall i: nat | i < |z.metas| && (z.metas[i].valid || Armed(z.timers, i))
      ensures z.metas[i].ring != k && z.metas[i].req != k
    {
      DisarmLeaves(s.timers, x, i);
    }
  }

  ghost predicate Goes(ss: seq<State>, es: seq<Event>) {
    |ss| == |es| + 1 && forall i :: 0 <= i < |es| ==> Step(ss[i], es[i], ss[i + 1])
  }

  lemma {:induction false} LostAlong(ss: seq<State>, es: seq<Event>, k: nat, i: nat)
    requires Goes(ss, es) && Lost(ss[0], k) && i < |ss|
    ensures Lost(ss[i], k)
  {
    hide Lost;
    hide Step;
    if i > 0 {
      LostAlong(ss, es, k, i - 1);
      LostStaysLost(ss[i - 1], es[i - 1], ss[i], k);
    }
  }

  /** If the channel accepts a request into the slot of one that still waits, then whatever happens from there on, the old
   *  one never gets a result, and the ring never moves past it: no result after it is ever handed out. */
  lemma LostForever(ss: seq<State>, es: seq<Event>, s: State, ctx: nat, deadline: nat, k: nat, i: nat)
    requires Inv(s) && k in s.hw && Waiting(s, k) && Slot(s, k) == Slot(s, s.next)
    requires Goes(ss, es) && ss[0] == Submit(s, ctx, deadline) && i < |ss|
    ensures |ss[i].metas| > 0 && k !in ss[i].done && !Waiting(ss[i], k) && ss[i].head <= k
  {
    hide SlotOf;
    hide Step;
    TakenOverIsLost(s, ctx, deadline, k);
    LostAlong(ss, es, k, i);
  }

  // ----- it can happen -----

  // Two slots.
  ghost function Start(): State {
    State([Meta(false, 0, 0, 0), Meta(false, 0, 0, 0)], 0, 0, 2, 8, 0, 0, map[], [], [RESET, RESET], [0, 1], false,
          map[], [], [], map[], {})
  }

  ghost function OneIn(): State {
    State([Meta(true, 0, 0, 10), Meta(false, 0, 0, 0)], 1, 1, 2, 8, 0, 1, map[], [Timer(5, 0)],
          [Callback(true, 0), RESET], [0, 1], false, map[0 := 0], [10], [], map[], {})
  }

  ghost function TwoIn(): State {
    State([Meta(true, 0, 0, 10), Meta(true, 1, 1, 11)], 2, 2, 2, 8, 0, 2, map[], [Timer(5, 0), Timer(6, 1)],
          [Callback(true, 0), Callback(true, 1)], [0, 1], false, map[0 := 0, 1 := 1], [10, 11], [], map[], {})
  }

  // Request 1 completes.
  ghost function OneDone(): State {
    State([Meta(true, 0, 0, 10), Meta(false, 1, 1, 11)], 2, 1, 2, 8, 0, 2, map[1 := Result(11, Hw(0))], [Timer(5, 0)],
          [Callback(true, 0), RESET], [0, 1], false, map[0 := 0], [10, 11], [], map[1 := 0], {})
  }

  // Request 0 times out.
  ghost function ZeroTimedOut(): State {
    State([Meta(false, 0, 0, 10), Meta(false, 1, 1, 11)], 2, 1, 2, 8, 0, 2,
          map[1 := Result(11, Hw(0)), 0 := Result(10, TimedOut)], [],
          [Callback(true, 0), RESET, Callback(true, 0)], [2, 1], false, map[0 := 0], [10, 11], [], map[1 := 0], {0})
  }

  lemma StartIsInit()
    ensures Init(Start())
  {
  }

  lemma FirstStep()
    ensures GoodStep(Start(), SubmitOk(10, 5), OneIn())
  {
  }

  lemma SecondStep()
    ensures GoodStep(OneIn(), SubmitOk(11, 6), TwoIn())
  {
  }

  lemma FirstSteps()
    ensures Init(Start()) && GoodStep(Start(), SubmitOk(10, 5), OneIn())
    ensures GoodStep(OneIn(), SubmitOk(11, 6), TwoIn())
  {
    hide Init;
    hide GoodStep;
    StartIsInit();
    FirstStep();
    SecondStep();
  }

  lemma OneCompletes()
    ensures GoodStep(TwoIn(), HwComplete(1, 0), OneDone())
  {
    assert Disarm([Timer(5, 0), Timer(6, 1)], 1) == [Timer(5, 0)];
    assert map[0 := 0, 1 := 1] - {1} == map[0 := 0];
  }

  lemma ZeroFires()
    ensures GoodStep(OneDone(), TimerFires(5), ZeroTimedOut())
  {
  }

  lemma OneDoneIsReachable()
    ensures Run([Start(), OneIn(), TwoIn(), OneDone()], [SubmitOk(10, 5), SubmitOk(11, 6), HwComplete(1, 0)])
    ensures Inv(OneDone())
  {
    hide GoodStep;
    hide Inv;
    hide Init;
    hide Start;
    hide OneIn;
    hide TwoIn;
    hide OneDone;
    FirstSteps();
    OneCompletes();
    RunKeepsInv([Start(), OneIn(), TwoIn(), OneDone()], [SubmitOk(10, 5), SubmitOk(11, 6), HwComplete(1, 0)], 3);
  }

  // Two slots, so requests 0 and 2 share one.
  lemma ZeroMeetsTwo()
    ensures var s := ZeroTimedOut(); 0 in s.hw && Slot(s, 0) == Slot(s, s.next) && !Full(s) && Shape(s) && s.next == 2
  {
  }

  lemma ZeroTimedOutIsReachable()
    ensures Run([Start(), OneIn(), TwoIn(), OneDone(), ZeroTimedOut()],
                [SubmitOk(10, 5), SubmitOk(11, 6), HwComplete(1, 0), TimerFires(5)])
    ensures Inv(ZeroTimedOut())
  {
    hide GoodStep;
    hide Inv;
    hide Init;
    hide Start;
    hide OneIn;
    hide TwoIn;
    hide OneDone;
    hide ZeroTimedOut;
    FirstSteps();
    OneCompletes();
    ZeroFires();
    RunKeepsInv([Start(), OneIn(), TwoIn(), OneDone(), ZeroTimedOut()],
                [SubmitOk(10, 5), SubmitOk(11, 6), HwComplete(1, 0), TimerFires(5)], 4);
  }

  /** The channel accepts a submission into a slot in use: the late completion of request 0 is taken for request 2's. */
  lemma CollisionIsReachable()
    ensures Run([Start(), OneIn(), TwoIn(), OneDone(), ZeroTimedOut()],
                [SubmitOk(10, 5), SubmitOk(11, 6), HwComplete(1, 0), TimerFires(5)])
    ensures var s := ZeroTimedOut();
      && !Full(s) && !SlotFree(s) && 0 in s.hw && Shape(s)
      && var z := Complete(Submit(s, 12, 9), 0, 0);
      && 2 in z.done && z.done[2] == Result(12, Hw(0)) && 2 in z.hw && 2 !in z.reported
  {
    hide Run;
    hide Inv;
    hide SlotOf;
    hide Complete;
    hide ZeroTimedOut;
    ZeroTimedOutIsReachable();
    ZeroMeetsTwo();
    Misattributed(ZeroTimedOut(), 12, 9, 0, 0);
  }

  /** A submission that the driver refuses while request 0 waits in the slot ends the program when request 0 completes. */
  lemma RefusalIsReachable()
    ensures Run([Start(), OneIn(), TwoIn(), OneDone()], [SubmitOk(10, 5), SubmitOk(11, 6), HwComplete(1, 0)])
    ensures var s := OneDone();
      && Shape(s) && !Full(s) && !SlotIdle(s) && 0 in s.hw && Step(s, SubmitRefused, Refuse(s))
      && Complete(Refuse(s), 0, 0).aborted
  {
    OneDoneIsReachable();
    var s := OneDone();
    assert Shape(s) && 0 in s.hw && Waiting(s, 0) && Slot(s, 0) == Slot(s, s.next) && !Full(s);
    RefusalAborts(s, 0, 0);
  }

  // ----- the loops of polling -----

  ghost function FireDue(s: State, now: nat): State
    requires Inv(s)
    decreases |s.timers|
  {
    if s.timers != [] && s.timers[0].deadline <= now then FireKeeps(s); FireDue(Fire(s), now) else s
  }

  // What changes when the timers that are due fire, and nothing else does.
  ghost predicate SettlesTimers(ts: seq<Timer>, us: seq<Timer>, now: nat) {
    && |us| <= |ts| && us == ts[|ts| - |us|..]
    && (forall k :: 0 <= k < |ts| ==> (k < |ts| - |us| <==> ts[k].deadline <= now))
  }

  ghost predicate SettlesMetas(s: State, z: State, now: nat) {
    && |z.metas| == |s.metas|
    && (forall j: nat :: j < |s.metas| ==>
         z.metas[j] == if Due(s.timers, j, now) then s.metas[j].(valid := false) else s.metas[j])
  }

  ghost predicate SettlesResult(s: State, z: State, r: nat, now: nat)
    requires |s.metas| > 0
  {
    && (r in z.done <==> r in s.done || (Waiting(s, r) && Due(s.timers, Slot(s, r), now)))
    && (r in z.done ==>
         r < |s.submitted| && z.done[r] == if r in s.done then s.done[r] else Result(s.submitted[r], TimedOut))
    && (r in z.fired <==> r in s.fired || (Waiting(s, r) && Due(s.timers, Slot(s, r), now)))
  }

  ghost predicate SettlesDone(s: State, z: State, now: nat)
    requires |s.metas| > 0
  {
    forall r :: SettlesResult(s, z, r, now)
  }

  ghost predicate Settles(s: State, z: State, now: nat)
    requires |s.metas| > 0
  {
    && SettlesTimers(s.timers, z.timers, now) && SettlesMetas(s, z, now) && SettlesDone(s, z, now)
    && z.hw == s.hw && z.next == s.next && z.head == s.head && z.tail == s.tail
    && z.submitted == s.submitted && z.delivered == s.delivered && z.reported == s.reported
  }

  /** Exactly the requests whose timers are due get a timeout as their result, and give up their slots. */
  lemma {:induction false} FireDueSettles(s: State, now: nat)
    requires Inv(s)
    ensures Inv(FireDue(s, now)) && Settles(s, FireDue(s, now), now)
    decreases |s.timers|
  {
    hide Inv;
    CoreParts(s);
    if s.timers != [] && s.timers[0].deadline <= now {
      FireKeeps(s);
      FireDueSettles(Fire(s), now);
      FireThenSettle(s, FireDue(Fire(s), now), now);
    } else {
      NothingDue(s, now);
    }
  }

  lemma NothingDue(s: State, now: nat)
    requires Inv(s) && (s.timers == [] || s.timers[0].deadline > now)
    ensures |s.metas| > 0 && Settles(s, s, now)
  {
    hide Inv;
    hide SlotOf;
    CoreParts(s);
    forall j ensures !Due(s.timers, j, now) { }
    assert s.timers[0..] == s.timers;
    forall r ensures SettlesResult(s, s, r, now) { if r in s.done { DoneInFlight(s, r); } }
  }

  lemma CoreParts(s: State)
    requires Inv(s)
    ensures Shape(s) && Sorted(s.timers) && DistinctArgs(s.timers)
  {
  }

  // What firing the oldest timer does to its own request.
  lemma FireOne(s: State)
    requires Inv(s) && s.timers != []
    ensures Shape(s) && s.timers[0].arg < |s.metas|
    ensures var i := s.timers[0].arg; var r := s.metas[i].req;
      && s.metas[i].valid && s.metas[i].ring == r && r < |s.submitted| && s.metas[i].ctx == s.submitted[r]
      && Slot(s, r) == i && r !in s.done && (forall q :: Waiting(s, q) && Slot(s, q) == i ==> q == r)
  {
    hide SlotOf;
    hide DoneOk;
    hide HwOk;
    hide ContextsOk;
    var i := s.timers[0].arg;
    assert Armed(s.timers, i) && MetaOk(s, i);
  }

  lemma FireThenSettle(s: State, z: State, now: nat)
    requires Inv(s) && s.timers != [] && s.timers[0].deadline <= now && Shape(s) && s.timers[0].arg < |s.metas|
    requires Settles(Fire(s), z, now)
    ensures Settles(s, z, now)
  {
    hide Inv;
    hide SlotOf;
    hide Due;
    FireOne(s);
    FireTimersThen(s, z, now);
    FireMetasThen(s, z, now);
    FireDoneThen(s, z, now);
  }

  lemma FireTimersThen(s: State, z: State, now: nat)
    requires s.timers != [] && s.timers[0].deadline <= now && SettlesTimers(s.timers[1..], z.timers, now)
    ensures SettlesTimers(s.timers, z.timers, now)
  {
    var y := s.timers[1..];
    assert z.timers == s.timers[|s.timers| - |z.timers|..];
    forall k | 0 <= k < |s.timers| ensures k < |s.timers| - |z.timers| <==> s.timers[k].deadline <= now {
      if k > 0 { assert y[k - 1] == s.timers[k]; }
    }
  }

  lemma FireMetasThen(s: State, z: State, now: nat)
    requires s.timers != [] && s.timers[0].deadline <= now && s.timers[0].arg < |s.metas| && Shape(s)
    requires SettlesMetas(Fire(s), z, now)
    ensures SettlesMetas(s, z, now)
  {
    hide Due;
    forall j: nat | j < |s.metas|
      ensures z.metas[j] == if Due(s.timers, j, now) then s.metas[j].(valid := false) else s.metas[j]
    {
      DueCons(s.timers, j, now);
    }
  }

  lemma FireDoneThen(s: State, z: State, now: nat)
    requires s.timers != [] && s.timers[0].deadline <= now && s.timers[0].arg < |s.metas| && Shape(s)
    requires var m := s.metas[s.timers[0].arg];
      && m.valid && m.ring == m.req && m.req < |s.submitted| && m.ctx == s.submitted[m.req] && m.req !in s.done
      && Slot(s, m.req) == s.timers[0].arg
    requires SettlesDone(Fire(s), z, now)
    ensures SettlesDone(s, z, now)
  {
    hide Due;
    hide SlotOf;
    forall r ensures SettlesResult(s, z, r, now) {
      assert SettlesResult(Fire(s), z, r, now);
      DueCons(s.timers, Slot(s, r), now);
    }
  }

  ghost function PopUpTo(s: State, max: nat): State
    decreases max
  {
    if max > 0 && s.head < s.tail && s.head in s.done then PopUpTo(Pop(s), max - 1) else s
  }

  /** Results are handed out in order, each the one kept under its number, until there is no room or the next one has
   *  none yet. */
  ghost predicate Takes(s: State, z: State, max: nat) {
    && s.head <= z.head <= s.head + max && z.head <= z.tail
    && (z.head < s.head + max ==> z.head !in s.done)
    && |z.delivered| == |s.delivered| + (z.head - s.head) && s.delivered <= z.delivered
    && (forall k :: |s.delivered| <= k < |z.delivered| ==>
         IsResult(z.delivered[k], s.done, s.head + (k - |s.delivered|)))
    && (forall r :: r in z.done <==> r in s.done && z.head <= r) && (forall r :: r in z.done ==> z.done[r] == s.done[r])
    && z == s.(head := z.head, done := z.done, delivered := z.delivered)
  }

  lemma {:induction false} PopUpToTakes(s: State, max: nat)
    requires s.head <= s.tail && (forall r :: r in s.done ==> s.head <= r < s.tail)
    ensures Takes(s, PopUpTo(s, max), max)
    decreases max
  {
    if max > 0 && s.head < s.tail && s.head in s.done {
      PopUpToTakes(Pop(s), max - 1);
      PopThenTake(s, PopUpTo(Pop(s), max - 1), max);
    }
  }

  lemma PopThenTake(s: State, z: State, max: nat)
    requires max > 0 && s.head in s.done && (forall r :: r in s.done ==> s.head <= r) && Takes(Pop(s), z, max - 1)
    ensures Takes(s, z, max)
  {
    var y, n := Pop(s), |s.delivered|;
    assert y.delivered[n] == s.done[s.head];
    forall k | n <= k < |z.delivered| ensures IsResult(z.delivered[k], s.done, s.head + (k - n)) {
      if k > n { assert IsResult(z.delivered[k], y.done, y.head + (k - |y.delivered|)); }
    }
  }

  // A callback of the driver: the request that the hardware has completed, and the context it was given for it.
  datatype Completion = Completion(k: nat, tag: nat, code: int)

  ghost predicate AllInHw(completed: seq<Completion>, hw: map<nat, nat>) {
    completed == [] ||
    (var c := completed[0]; c.k in hw && hw[c.k] == c.tag && AllInHw(completed[1..], hw - {c.k}))
  }

  ghost function CompleteAll(s: State, completed: seq<Completion>): (z: State)
    requires Inv(s) && AllInHw(completed, s.hw)
    ensures Inv(z)
    decreases |completed|
  {
    if completed == [] then s else
      var c := completed[0];
      CompleteKeeps(s, c.k, c.code);
      CompleteLogs(s, c.k, c.code);
      CompleteAll(Complete(s, c.k, c.code), completed[1..])
  }

  lemma CompleteLogs(s: State, k: nat, code: int)
    requires Shape(s) && k in s.hw && s.callbacks[s.hw[k]].live
    ensures var z := Complete(s, k, code);
      && z.hw == s.hw - {k} && z.delivered == s.delivered && z.reported == s.reported[k := code] && z.fired == s.fired
  {
    hide Disarm;
    hide SlotOf;
  }

  // Request k is completed, with this code.
  ghost predicate Completed(z: State, k: nat, code: int) { k !in z.hw && k in z.reported && z.reported[k] == code }

  /** Every completion that the driver calls back for is recorded, and no other. */
  lemma {:induction false} CompleteAllReports(s: State, completed: seq<Completion>, k: nat)
    requires Inv(s) && AllInHw(completed, s.hw)
    ensures var z := CompleteAll(s, completed);
      && z.fired == s.fired
      && (forall j :: 0 <= j < |completed| && completed[j].k == k ==> Completed(z, k, completed[j].code))
      && ((forall j :: 0 <= j < |completed| ==> completed[j].k != k) ==>
           && (k in z.hw <==> k in s.hw) && (k in z.reported <==> k in s.reported)
           && (k in s.reported ==> z.reported[k] == s.reported[k]))
    decreases |completed|
  {
    hide Inv;
    hide Complete;
    if completed != [] {
      var c, rest := completed[0], completed[1..];
      CompleteKeeps(s, c.k, c.code);
      CompleteLogs(s, c.k, c.code);
      var u := Complete(s, c.k, c.code);
      CompleteAllReports(u, rest, k);
      if c.k == k { OnceOnly(rest, u.hw, k); }
      assert forall j :: 1 <= j < |completed| ==> completed[j] == rest[j - 1];
    }
  }

  lemma {:induction false} OnceOnly(completed: seq<Completion>, hw: map<nat, nat>, k: nat)
    requires AllInHw(completed, hw) && k !in hw
    ensures forall j :: 0 <= j < |completed| ==> completed[j].k != k
    decreases |completed|
  {
    if completed != [] {
      OnceOnly(completed[1..], hw - {completed[0].k}, k);
      assert forall j :: 1 <= j < |completed| ==> completed[j] == completed[1..][j - 1];
    }
  }

  // ----- delivery -----

  // Every request in flight has its result, or its timer is due.
  ghost predicate Ripe(s: State, now: nat)
    requires |s.metas| > 0
  {
    forall r: nat :: s.head <= r < s.tail ==> r in s.done || Due(s.timers, Slot(s, r), now)
  }

  /** Firing what is due and handing out results empties the ring exactly when there is room for all of them and every
   *  request in flight has its result or is due. */
  lemma EmptiesIff(s: State, now: nat, max: nat)
    requires Inv(s)
    ensures |s.metas| > 0
    ensures var z := PopUpTo(FireDue(s, now), max);
      z.tail == s.tail && (z.head == s.tail <==> s.tail - s.head <= max && Ripe(s, now))
  {
    hide Inv;
    hide SlotOf;
    hide Due;
    hide FireDue;
    hide PopUpTo;
    var b := FireDue(s, now);
    var z := PopUpTo(b, max);
    CoreParts(s);
    FireDueSettles(s, now);
    DoneBounds(b);
    PopUpToTakes(b, max);
    HaveAllIff(s, b, now);
    if z.head == s.tail {
      forall r: nat | b.head <= r < b.tail ensures r in b.done {
        assert IsResult(z.delivered[|b.delivered| + (r - b.head)], b.done, b.head + (r - b.head));
      }
    }
  }

  lemma HaveAllIff(s: State, b: State, now: nat)
    requires Inv(s) && |s.metas| > 0 && Settles(s, b, now)
    ensures (forall r: nat :: b.head <= r < b.tail ==> r in b.done) <==> Ripe(s, now)
  {
    hide Inv;
    hide SlotOf;
    hide Due;
    forall r: nat | s.head <= r < s.tail ensures r in b.done <==> r in s.done || Due(s.timers, Slot(s, r), now) {
      assert SettlesResult(s, b, r, now);
      DoneOrWaiting(s, r);
    }
  }

  lemma DoneOrWaiting(s: State, r: nat)
    requires Inv(s) && s.head <= r < s.tail
    ensures |s.metas| > 0 && (r in s.done || Waiting(s, r))
  {
  }

  // A completion takes no request out of the ring and sets no timer.
  lemma {:induction false} CompleteAllKeeps(s: State, completed: seq<Completion>, t: Timer)
    requires Inv(s) && AllInHw(completed, s.hw)
    ensures var z := CompleteAll(s, completed);
      z.head == s.head && z.tail == s.tail && z.submitted == s.submitted && (t in z.timers ==> t in s.timers)
    decreases |completed|
  {
    hide Inv;
    hide Complete;
    if completed != [] {
      var c := completed[0];
      CompleteKeeps(s, c.k, c.code);
      CompleteLogs(s, c.k, c.code);
      CompleteAllKeeps(Complete(s, c.k, c.code), completed[1..], t);
      CompleteTimers(s, c.k, c.code, t);
    }
  }

  lemma CompleteTimers(s: State, k: nat, code: int, t: Timer)
    requires Shape(s) && k in s.hw
    ensures var z := Complete(s, k, code);
      z.head == s.head && z.tail == s.tail && z.submitted == s.submitted && (t in z.timers ==> t in s.timers)
  {
    hide SlotOf;
    hide Disarm;
    forall i { DisarmIn(s.timers, i, t); }
  }

  /** A poll at or after every deadline, with room for all results, leaves nothing in flight: no request, no timer, one
   *  result for every request ever accepted. */
  lemma PollDrains(s: State, completed: seq<Completion>, now: nat, max: nat)
    requires Inv(s) && AllInHw(completed, s.hw) && s.tail - s.head <= max
    requires forall t :: t in s.timers ==> t.deadline <= now
    ensures var z := PopUpTo(FireDue(CompleteAll(s, completed), now), max);
      && z.head == z.tail == s.tail && z.done == map[] && z.timers == []
      && |z.delivered| == |z.submitted| && forall r :: 0 <= r < |z.submitted| ==> ResultOk(z, r, z.delivered[r])
  {
    hide Inv;
    hide SlotOf;
    hide CompleteAll;
    hide FireDue;
    hide PopUpTo;
    var a := CompleteAll(s, completed);
    CoreParts(a);
    forall t ensures t in a.timers ==> t.deadline <= now { CompleteAllKeeps(s, completed, t); }
    CompleteAllKeeps(s, completed, Timer(0, 0));
    forall r: nat | a.head <= r < a.tail && r !in a.done ensures Due(a.timers, Slot(a, r), now) {
      WaitingIsArmed(a, r);
    }
    EmptiesIff(a, now, max);
    FireDueSettles(a, now);
    PopUpToInv(FireDue(a, now), max);
    NothingInFlight(PopUpTo(FireDue(a, now), max));
  }

  lemma WaitingIsArmed(s: State, r: nat)
    requires Inv(s) && s.head <= r < s.tail && r !in s.done
    ensures |s.metas| > 0 && Armed(s.timers, Slot(s, r))
  {
    hide SlotOf;
    hide HwOk;
    hide ContextsOk;
    hide MetasOk;
    assert Waiting(s, r);
  }

  lemma {:induction false} PopUpToInv(s: State, max: nat)
    requires Inv(s)
    ensures Inv(PopUpTo(s, max))
    decreases max
  {
    hide Inv;
    if max > 0 && s.head < s.tail && s.head in s.done {
      PopKeeps(s);
      PopUpToInv(Pop(s), max - 1);
    }
  }

  // With every request handed out there is no result, no timer, and the log of results is complete.
  lemma NothingInFlight(s: State)
    requires Inv(s) && s.head == s.tail
    ensures s.done == map[] && s.timers == [] && |s.delivered| == |s.submitted|
    ensures forall r :: 0 <= r < |s.submitted| ==> ResultOk(s, r, s.delivered[r])
  {
    hide SlotOf;
    hide HwOk;
    hide ContextsOk;
    hide ResultOk;
    forall i: nat | i < |s.metas| ensures !s.metas[i].valid { assert MetaOk(s, i); }
    FirstArmed(s.timers);
  }

  // ----- the channel object -----

  // How far a submission gets once there is room for it.
  datatype Attempt = BadArguments | NoBuffers | DriverRefuses | DriverTakes

  datatype Code = Ok | ResourceBusy | InvalidArgument | Failed

  // What the hardware has, and the logs.
  datatype Logs = Logs(hw: map<nat, nat>, submitted: seq<nat>, delivered: seq<Result>, reported: map<nat, int>, fired: set<nat>)

  class Channel {
    const ring: Queue<Result>
    const timers: Manager
    const maxInQat: nat
    var metas: seq<Meta>
    var timerCtx: seq<Ref>
    var callbacks: seq<Callback>
    var pool: seq<nat>
    var next: nat
    var inQat: nat
    ghost var g: Logs

    constructor (slots: nat, limit: nat, ringSize: nat, timeout: nat)
      requires slots > 0 && limit > 0 && ringSize > 0
      ensures Valid() && Init(Abs()) && |metas| == slots && fresh(ring) && fresh(timers)
    {
      ring := new Queue(ringSize, Result(0, TimedOut));
      timers := new Manager(timeout);
      maxInQat := limit;
      metas := seq(slots, _ => Meta(false, 0, 0, 0));
      timerCtx := seq(slots, _ => 0);
      callbacks := seq(slots, _ => RESET);
      pool := seq(slots, i => i);
      next, inQat, g := 0, 0, Logs(map[], [], [], map[], {});
      new;
      InitInv(Abs());
    }

    ghost function Abs(): State
      reads this, ring, timers
    {
      State(metas, next, inQat, maxInQat, ring.size, ring.head, ring.tail, ring.done, timers.Live(),
            callbacks, pool, false, g.hw, g.submitted, g.delivered, g.reported, g.fired)
    }

    ghost predicate Valid()
      reads this, ring, ring.results, ring.ids, timers
    {
      && ring.Valid() && timers.Valid() && Inv(Abs())
      && |timerCtx| == |metas| && TimersKnown(timerCtx, timers.list, timers.Live())
    }

    /** `SubmitAsync`: how far it gets is up to its arguments, the buffers and the driver; timerRef is a context from
     *  the object pool.  The contract says exactly when the channel is still in order afterwards. */
    method SubmitAsync(ctx: nat, now: nat, timerRef: Ref, attempt: Attempt) returns (r: Code)
      requires Valid() && now >= timers.clock && timerRef != 0 && timerRef !in timers.ctxs
      modifies this, ring`tail, timers
      ensures old(Shape(Abs())) && ring.Valid() && timers.Valid()
      ensures var full := old(|g.hw| == maxInQat || ring.tail - ring.head == ring.size);
        && (r == ResourceBusy <==> full || attempt == NoBuffers)
        && (r == InvalidArgument <==> !full && attempt == BadArguments)
        && (r == Failed <==> !full && attempt == DriverRefuses)
      ensures Abs() == match r
                       case Ok => Submit(old(Abs()), ctx, now + timers.timeout)
                       case Failed => Refuse(old(Abs()))
                       case _ => old(Abs())
      ensures Valid() <==> (r == Ok ==> old(SlotFree(Abs()))) && (r == Failed ==> old(SlotIdle(Abs())))
    {
      hide Inv;
      hide SlotOf;
      hide TimersKnown;
      hide SlotFree;
      hide SlotIdle;
      hide Queue.Valid;
      hide Manager.Valid;
      hide Manager.Live;
      InvShape(Abs());
      if inQat == maxInQat || ring.tail - ring.head == ring.size { return ResourceBusy; }
      if attempt == BadArguments { return InvalidArgument; }
      if attempt == NoBuffers { return ResourceBusy; }
      ghost var s := Abs();
      DueLater(timers, now);
      var c := pool[SlotOf(next, |metas|)];
      callbacks := callbacks[c := Callback(true, next)];
      if attempt == DriverRefuses {
        RefuseKeepsIff(s);
        callbacks := callbacks[c := RESET];
        assert callbacks == s.callbacks[c := RESET];
        return Failed;
      }
      SubmitKeepsIff(s, ctx, now + timers.timeout);
      Accept(ctx, now, timerRef, s);
      return Ok;
    }

    // A ring id and a timer for slot i.
    method Reserve(i: nat, now: nat, timerRef: Ref) returns (id: nat)
      requires ring.Valid() && timers.Valid() && ring.tail - ring.head < ring.size
      requires now >= timers.clock && timerRef != 0 && timerRef !in timers.ctxs
      modifies ring`tail, timers
      ensures ring.Valid() && timers.Valid() && id == old(ring.tail) && ring.tail == id + 1
      ensures timers.list == old(timers.list) + [timerRef]
      ensures timers.Live() == old(timers.Live()) + [Timer(now + timers.timeout, i)]
    {
      hide Queue.Valid;
      hide Manager.Valid;
      hide Manager.Live;
      id := ring.NewReq();
      timers.AddTimer(i, now, timerRef);
    }

    // The request is in the hardware: its slot, ring id and timer are taken.
    method Accept(ctx: nat, now: nat, timerRef: Ref, ghost s: State)
      requires Inv(s) && Shape(s) && !Full(s)
      requires Abs() == s.(callbacks := s.callbacks[s.pool[Slot(s, s.next)] := Callback(true, s.next)])
      requires ring.Valid() && timers.Valid()
      requires |timerCtx| == |metas| && TimersKnown(timerCtx, timers.list, timers.Live())
      requires now >= timers.clock && timerRef != 0 && timerRef !in timers.ctxs
      modifies this, ring`tail, timers
      ensures ring.Valid() && timers.Valid()
      ensures Abs() == Submit(s, ctx, now + timers.timeout) && |timerCtx| == |metas|
      ensures SlotFree(s) ==> TimersKnown(timerCtx, timers.list, timers.Live())
    {
      hide Queue.Valid;
      hide Manager.Valid;
      hide Manager.Live;
      hide Inv;
      hide SlotOf;
      hide TimersKnown;
      hide SlotFree;
      InvShape(s);
      SlotShape(s);
      hide Shape;
      var i := SlotOf(next, |metas|);
      if SlotFree(s) { LinkNew(timerCtx, timers.list, timers.Live(), i, timerRef, now + timers.timeout, s); }
      var id := Reserve(i, now, timerRef);
      metas, timerCtx := metas[i := Meta(true, next, id, ctx)], timerCtx[i := timerRef];
      g, next, inQat := g.(hw := g.hw[next := pool[i]], submitted := g.submitted + [ctx]), next + 1, inQat + 1;
      assert Abs() == Submit(s, ctx, now + timers.timeout);
    }

    /** `CyCallback`: the hardware hands back the context it was given for request k, which it is done with. */
    method CyCallback(tag: nat, code: int, ghost k: nat)
      requires Valid() && k in g.hw && g.hw[k] == tag
      modifies this, ring`done, ring.results, ring.ids, timers
      ensures old(Shape(Abs())) && Valid() && timers.clock == old(timers.clock)
      ensures Abs() == Complete(old(Abs()), k, code)
    {
      hide Queue.Valid;
      hide Manager.Valid;
      hide Manager.Live;
      hide Inv;
      hide SlotOf;
      hide TimersKnown;
      hide Disarm;
      ghost var s := Abs();
      InvShape(s);
      CompleteKeeps(s, k, code);
      assert callbacks[tag].live;                  // VESAL_CHECK(channel)
      inQat := inQat - 1;
      var i := SlotOf(callbacks[tag].req, |metas|);
      SlotFacts(s, timerCtx, timers.list, i);
      if metas[i].valid { Answer(i, code); }
      callbacks, g := callbacks[tag := RESET], g.(hw := g.hw - {k}, reported := g.reported[k := code]);
      assert Abs() == Complete(s, k, code);
    }

    // A request that still waits: its result is kept, its timer is removed and its slot is given up.
    method Answer(i: nat, code: int)
      requires ring.Valid() && timers.Valid() && i < |metas| == |timerCtx|
      requires ring.head <= metas[i].ring < ring.tail && metas[i].ring !in ring.done
      requires DistinctArgs(timers.Live()) && Armed(timers.Live(), i) && TimersKnown(timerCtx, timers.list, timers.Live())
      modifies this`metas, ring`done, ring.results, ring.ids, timers
      ensures ring.Valid() && timers.Valid() && timers.clock == old(timers.clock)
      ensures ring.done == old(ring.done)[old(metas)[i].ring := Result(old(metas)[i].ctx, Hw(code))]
      ensures metas == old(metas)[i := old(metas)[i].(valid := false)] && timers.Live() == Disarm(old(timers.Live()), i)
      ensures TimersKnown(timerCtx, timers.list, timers.Live())
    {
      hide Queue.Valid;
      hide Manager.Valid;
      hide Manager.Live;
      hide Disarm;
      hide Without;
      ghost var ts, list := timers.Live(), timers.list;
      ghost var j := TimerIndex(ts, i);
      DisarmIsWithout(ts, i, j);
      KnownWithout(timerCtx, list, ts, j);
      assert timerCtx[i] == list[j];
      hide TimersKnown;
      ring.PushResult(Result(metas[i].ctx, Hw(code)), metas[i].ring);
      metas := metas[i := metas[i].(valid := false)];
      timers.RemoveTimer(timerCtx[i], j);
    }

    // The callback of a timer: the request gives up its slot, its result is a timeout, and the slot gets a new context.
    method Intercept(i: nat, ghost a: State)
      requires ring.Valid() && i < |metas| == |pool| && pool[i] < |callbacks|
      requires ring.head <= metas[i].ring < ring.tail && metas[i].ring !in ring.done
      requires Shape(a) && a.timers != [] && a.timers[0].arg == i && a == Abs().(timers := a.timers)
      modifies this`metas, this`callbacks, this`pool, this`g, ring`done, ring.results, ring.ids
      ensures ring.Valid() && |metas| == |old(metas)| && Fire(a) == Abs().(timers := a.timers[1..])
      ensures g == old(g).(fired := g.fired)
    {
      hide Queue.Valid;
      hide Manager.Live;
      var m := metas[i];
      metas := metas[i := m.(valid := false)];
      ring.PushResult(Result(m.ctx, TimedOut), m.ring);
      callbacks, pool := callbacks + [Callback(callbacks[pool[i]].live, 0)], pool[i := |callbacks|];
      g := g.(fired := g.fired + {m.req});
    }

    /** The timers that are due fire, oldest first. */
    method HandleTimeouts(now: nat)
      requires Valid() && now >= timers.clock
      modifies this`metas, this`callbacks, this`pool, this`g, ring`done, ring.results, ring.ids, timers
      ensures Valid() && timers.clock == now && Abs() == FireDue(old(Abs()), now)
      ensures old(Shape(Abs())) && Settles(old(Abs()), Abs(), now) && g == old(g).(fired := g.fired)
    {
      hide Queue.Valid;
      hide Manager.Valid;
      hide Manager.Live;
      hide Inv;
      hide SlotOf;
      hide TimersKnown;
      hide Settles;
      hide Fire;
      ghost var s, list := Abs(), timers.list;
      ghost var a := s;
      InvShape(s);
      FireDueSettles(s, now);
      var fired := timers.HandleTimeout(now);
      KnownAfter(timerCtx, list, s.timers, |fired|);
      for n := 0 to |fired|
        invariant ring.Valid() && timers.Valid() && timers.clock == now && Inv(a)
        invariant timers.Live() == s.timers[|fired|..] && timers.list == list[|fired|..] && |metas| == |timerCtx|
        invariant a == Abs().(timers := s.timers[n..]) && FireDue(a, now) == FireDue(s, now)
        invariant g == old(g).(fired := g.fired)
      {
        assert a.timers[0] == s.timers[n] && fired[n] == s.timers[n].arg;
        InvShape(a);
        FireKeeps(a);
        SlotFacts(a, timerCtx, timers.list, fired[n]);
        Intercept(fired[n], a);
        assert s.timers[n..][1..] == s.timers[n + 1..];
        a := Fire(a);
      }
      assert a == Abs();
    }

    // The driver calls back for everything the hardware has completed, in whatever order.
    method PollInstance(completed: seq<Completion>)
      requires Valid() && AllInHw(completed, g.hw)
      modifies this, ring`done, ring.results, ring.ids, timers
      ensures Valid() && timers.clock == old(timers.clock) && g.delivered == old(g.delivered)
      ensures Abs() == CompleteAll(old(Abs()), completed)
      ensures forall j :: 0 <= j < |completed| ==> Completed(Abs(), completed[j].k, completed[j].code)
    {
      hide Queue.Valid;
      hide Manager.Valid;
      hide Manager.Live;
      hide Inv;
      hide SlotOf;
      hide TimersKnown;
      hide Complete;
      ghost var s := Abs();
      forall j | 0 <= j < |completed| ensures Completed(CompleteAll(s, completed), completed[j].k, completed[j].code) {
        CompleteAllReports(s, completed, completed[j].k);
      }
      hide Completed;
      assert completed[0..] == completed;
      for n := 0 to |completed|
        invariant Valid() && timers.clock == old(timers.clock) && AllInHw(completed[n..], g.hw)
        invariant CompleteAll(Abs(), completed[n..]) == CompleteAll(s, completed)
        invariant g.delivered == old(g.delivered)
      {
        assert completed[n..][0] == completed[n] && completed[n..][1..] == completed[n + 1..];
        ghost var a := Abs();
        InvShape(a);
        CompleteKeeps(a, completed[n].k, completed[n].code);
        CompleteLogs(a, completed[n].k, completed[n].code);
        CyCallback(completed[n].tag, completed[n].code, completed[n].k);
      }
    }

    // The longest prefix of requests that have their results.
    method Collect(out: array<Result>, max: nat) returns (cnt: nat)
      requires Valid() && out.Length >= max && out != ring.results && !ring.Same(out)
      modifies this`g, ring`head, ring`done, out
      ensures Valid() && cnt <= max && Abs() == PopUpTo(old(Abs()), max) && Takes(old(Abs()), Abs(), max)
      ensures g == old(g).(delivered := old(g.delivered) + out[..cnt])
    {
      hide Queue.Valid;
      hide Manager.Valid;
      hide Manager.Live;
      hide Inv;
      hide SlotOf;
      hide TimersKnown;
      ghost var a := Abs();
      cnt := ring.PopResults(out, max);
      g := g.(delivered := g.delivered + out[..cnt]);
      PoppedFacts(a, Abs(), max, cnt, out[..cnt]);
      DoneBounds(a);
      PopUpToTakes(a, max);
    }

    /** `Poll`: the hardware reports what it has completed, due timers fire, and results are handed out; if the driver then
     *  reports an error, neither of the last two happens. */
    method Poll(completed: seq<Completion>, driverOk: bool, now: nat, out: array<Result>, max: nat) returns (cnt: int)
      requires Valid() && now >= timers.clock && AllInHw(completed, g.hw)
      requires out.Length >= max && out != ring.results && !ring.Same(out)
      modifies this, ring, ring.results, ring.ids, timers, out
      ensures Valid() && (cnt == -1 <==> !driverOk) && cnt <= max
      ensures forall j :: 0 <= j < |completed| ==> Completed(Abs(), completed[j].k, completed[j].code)
      ensures !driverOk ==> Abs() == CompleteAll(old(Abs()), completed) && g.delivered == old(g.delivered)
      ensures driverOk ==>
        && 0 <= cnt && timers.clock == now && g.delivered == old(g.delivered) + out[..cnt]
        && Inv(FireDue(CompleteAll(old(Abs()), completed), now))
        && Abs() == PopUpTo(FireDue(CompleteAll(old(Abs()), completed), now), max)
      ensures driverOk ==> forall k :: 0 <= k < cnt ==> ResultOk(Abs(), old(ring.head) + k, out[k])
      ensures driverOk && now >= old(timers.clock) + timers.timeout && old(ring.tail - ring.head) <= max ==>
        && ring.head == ring.tail == old(ring.tail) && ring.done == map[] && timers.Live() == []
        && |g.delivered| == |g.submitted| && forall r :: 0 <= r < |g.submitted| ==> ResultOk(Abs(), r, g.delivered[r])
    {
      hide Queue.Valid;
      hide Manager.Valid;
      hide Manager.Live;
      hide Inv;
      hide SlotOf;
      hide TimersKnown;
      hide FireDue;
      hide CompleteAll;
      hide PopUpTo;
      hide Settles;
      hide Takes;
      hide ResultOk;
      DueLater(timers, timers.clock);
      ghost var s := Abs();
      PollInstance(completed);
      if !driverOk { return -1; }
      HandleTimeouts(now);
      cnt := Collect(out, max);
      DeliveredSince(s, Abs(), out[..cnt]);
      if now >= old(timers.clock) + timers.timeout && s.tail - s.head <= max { PollDrains(s, completed, now, max); }
    }
  }

  lemma SlotShape(s: State)
    requires Shape(s)
    ensures |s.metas| == |s.pool| > 0 && s.pool[Slot(s, s.next)] < |s.callbacks|
  {
  }

  // The state after PopResults, by what its contract says of it.
  lemma {:induction false} PoppedFacts(a: State, z: State, max: nat, cnt: nat, out: seq<Result>)
    requires Inv(a) && cnt <= max && |out| == cnt
    requires z == a.(head := a.head + cnt, done := z.done, delivered := a.delivered + out)
    requires forall k :: 0 <= k < cnt ==> IsResult(out[k], a.done, a.head + k)
    requires forall id :: id in z.done <==> id in a.done && z.head <= id
    requires forall id :: id in z.done ==> z.done[id] == a.done[id]
    requires cnt < max ==> z.head == a.tail || z.head !in a.done
    ensures z == PopUpTo(a, max) && Inv(z)
    decreases cnt
  {
    hide Inv;
    if cnt == 0 {
      assert a.delivered + out == a.delivered;
      forall id | id in a.done ensures a.head <= id { DoneInFlight(a, id); }
      assert z.done == a.done;
    } else {
      assert IsResult(out[0], a.done, a.head + 0);
      DoneInFlight(a, a.head);
      PopKeeps(a);
      var b := Pop(a);
      assert out == [out[0]] + out[1..];
      assert a.delivered + out == b.delivered + out[1..];
      forall k | 0 <= k < cnt - 1 ensures IsResult(out[1..][k], b.done, b.head + k) {
        assert IsResult(out[k + 1], a.done, a.head + (k + 1));
      }
      PoppedFacts(b, z, max - 1, cnt - 1, out[1..]);
    }
  }

  lemma DoneBounds(s: State)
    requires Inv(s)
    ensures s.head <= s.tail && forall r :: r in s.done ==> s.head <= r < s.tail
  {
  }

  // What was handed out in between.
  lemma DeliveredSince(s: State, z: State, out: seq<Result>)
    requires Inv(s) && Inv(z) && z.delivered == s.delivered + out
    ensures forall k :: 0 <= k < |out| ==> ResultOk(z, s.head + k, out[k])
  {
    hide MetasOk;
    hide HwOk;
    hide TimersOk;
    hide ContextsOk;
    hide ResultOk;
    forall k | 0 <= k < |out| ensures ResultOk(z, s.head + k, out[k]) { assert out[k] == z.delivered[s.head + k]; }
  }

  lemma DoneInFlight(s: State, r: nat)
    requires Inv(s) && r in s.done
    ensures s.head <= r < s.tail == |s.submitted|
  {
  }

  lemma SlotFacts(s: State, ctxs: seq<Ref>, list: seq<Ref>, i: nat)
    requires Inv(s) && i < |s.metas|
    ensures s.metas[i].valid ==>
      && s.head <= s.metas[i].ring < s.tail && s.metas[i].ring !in s.done && Armed(s.timers, i) && DistinctArgs(s.timers)
      && (TimersKnown(ctxs, list, s.timers) ==>
           i < |ctxs| && TimerIndex(s.timers, i) < |list| && ctxs[i] == list[TimerIndex(s.timers, i)])
  {
    assert MetaOk(s, i);
  }

  lemma InvShape(s: State)
    requires Inv(s)
    ensures Shape(s) && s.next == s.tail <= s.head + s.ringSize && s.inQat == |s.hw.Keys|
  {
  }

  // The slot of a new request has no timer yet.
  lemma LinkNew(ctxs: seq<Ref>, list: seq<Ref>, live: seq<Timer>, i: nat, r: Ref, deadline: nat, s: State)
    requires Inv(s) && SlotFree(s) && i == Slot(s, s.next) && live == s.timers && |ctxs| == |s.metas|
    requires TimersKnown(ctxs, list, live)
    ensures TimersKnown(ctxs[i := r], list + [r], live + [Timer(deadline, i)])
  {
    assert MetaOk(s, i) && !s.metas[i].valid;
    forall j | 0 <= j < |live| ensures live[j].arg != i { assert !Armed(live, i); }
  }
}
