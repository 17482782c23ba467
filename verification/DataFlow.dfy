/** The data-flow channel: a fixed set of request objects that move between the cache of unused ones, the queue of
 *  submitted ones and the list of expired ones the engine may still work on.  The engine is an environment: it
 *  works on what it was given and, at any time, completes some of it by writing a completion record into the object.
 *  The channel looks for the record in `CheckCompletion`.
 *
 *  Beside the program's and the engine's own state there are logs: the user contexts of accepted submissions in order, the
 *  results handed out, the codes the engine reported for each submission, and the submissions whose timers fired.
 */
module DataFlow {
  import opened Common
  import opened TimerManager
  import opened TimerLists

  datatype Status = Done(code: int) | TimedOut

  // A request object: the number of the submission it was last built for, its user context, and its two flags.
  datatype Req = Req(num: nat, ctx: nat, completed: bool, expired: bool)

  datatype Delivery = Delivery(num: nat, ctx: nat, status: Status)

  datatype State = State(
    queue: seq<nat>, late: seq<nat>, cached: seq<nat>, reqs: seq<Req>, timers: seq<Timer>, ordered: bool,
    running: map<nat, nat>,                        // the objects the engine works on, and for which submission
    records: map<nat, int>,                        // the completion records it has written
    reported: set<(nat, int)>, accepted: seq<nat>, delivered: seq<Delivery>,
    lapsed: set<nat>)                              // the submissions whose timer has fired

  // ----- the steps -----

  // SubmitRequest takes the first cached object, and the engine clears its record and starts; when the engine refuses
  // the object goes to the back of the cache.
  function Submit(s: State, ctx: nat, deadline: nat): State
    requires s.cached != [] && s.cached[0] < |s.reqs|
  {
    var r := s.cached[0];
    s.(cached := s.cached[1..], reqs := s.reqs[r := Req(|s.accepted|, ctx, false, false)], queue := s.queue + [r],
       timers := s.timers + [Timer(deadline, r)], running := s.running[r := |s.accepted|], records := s.records - {r},
       accepted := s.accepted + [ctx])
  }

  function Refuse(s: State, ctx: nat): State
    requires s.cached != [] && s.cached[0] < |s.reqs|
  {
    var r := s.cached[0];
    s.(cached := s.cached[1..] + [r], reqs := s.reqs[r := Req(|s.accepted|, ctx, false, false)],
       records := s.records - {r})
  }

  // The engine completes those of the given objects that it works on.
  ghost function Finish(s: State, done: map<nat, int>): State {
    s.(running := s.running - done.Keys, records := s.records + (map r | r in done && r in s.running :: done[r]),
       reported := s.reported + (set r | r in done && r in s.running :: (s.running[r], done[r])))
  }

  // The i-th queued request can be handed out: it has expired, or CheckCompletion finds its record.
  predicate Ready(s: State, i: nat)
    requires i < |s.queue|
  {
    s.queue[i] < |s.reqs| && (s.reqs[s.queue[i]].expired || s.queue[i] in s.records)
  }

  // Poll hands out the result of the i-th queued request: a timeout if it expired, else what the engine recorded.
  function Deliver(s: State, i: nat): State
    requires i < |s.queue| && Ready(s, i)
  {
    var r := s.queue[i];
    var q := s.reqs[r];
    if q.expired then
      s.(queue := Without(s.queue, i), late := s.late + [r],
         delivered := s.delivered + [Delivery(q.num, q.ctx, TimedOut)])
    else
      s.(queue := Without(s.queue, i), cached := s.cached + [r], timers := Disarm(s.timers, r),
         reqs := s.reqs[r := q.(completed := true)],
         delivered := s.delivered + [Delivery(q.num, q.ctx, Done(s.records[r]))])
  }

  // The oldest timer fires and marks its request.
  function Expire(s: State): State
    requires s.timers != [] && s.timers[0].arg < |s.reqs|
  {
    var r := s.timers[0].arg;
    s.(reqs := s.reqs[r := s.reqs[r].(expired := true)], timers := s.timers[1..], lapsed := s.lapsed + {s.reqs[r].num})
  }

  // CheckCompletion finds the record of the i-th expired request: its object can be used again.
  function Reap(s: State, i: nat): State
    requires i < |s.late| && s.late[i] < |s.reqs|
  {
    var r := s.late[i];
    s.(late := Without(s.late, i), cached := s.cached + [r], reqs := s.reqs[r := s.reqs[r].(completed := true)])
  }

  datatype Event =
    | Accepted(ctx: nat, deadline: nat) | Refused(ctx: nat) | EngineCompletes(done: map<nat, int>) | Delivered(i: nat)
    | TimerFires(now: nat) | Reaped(i: nat)

  ghost predicate Step(s: State, e: Event, z: State) {
    match e
    case Accepted(ctx, deadline) =>
      && s.cached != [] && s.cached[0] < |s.reqs|
      && (forall i :: 0 <= i < |s.timers| ==> s.timers[i].deadline <= deadline)
      && z == Submit(s, ctx, deadline)
    case Refused(ctx) => s.cached != [] && s.cached[0] < |s.reqs| && z == Refuse(s, ctx)
    case EngineCompletes(done) => z == Finish(s, done)
    case Delivered(i) => i < |s.queue| && Ready(s, i) && (s.ordered ==> i == 0) && z == Deliver(s, i)
    case TimerFires(now) =>
      s.timers != [] && s.timers[0].arg < |s.reqs| && s.timers[0].deadline <= now && z == Expire(s)
    case Reaped(i) => i < |s.late| && s.late[i] < |s.reqs| && s.late[i] in s.records && z == Reap(s, i)
  }

  ghost predicate Init(s: State) {
    && s.queue == [] && s.late == [] && |s.cached| == |s.reqs| && (forall i :: 0 <= i < |s.cached| ==> s.cached[i] == i)
    && s.timers == [] && s.running == map[] && s.reported == {} && s.accepted == [] && s.delivered == []
    && s.lapsed == {}
  }

  // ----- the invariant -----

  ghost function Places(s: State): multiset<nat> { multiset(s.queue) + multiset(s.late) + multiset(s.cached) }

  // Every object is in exactly one of the three lists, once.
  ghost predicate Partition(s: State) {
    forall r: nat :: Places(s)[r] == if r < |s.reqs| then 1 else 0
  }

  ghost predicate Busy(s: State, r: nat) { r in s.queue || r in s.late }

  // What the engine works on is queued or expired, and is what the object was built for; the queued and expired ones
  // that it does not work on any more have a record.
  ghost predicate RunningOk(s: State) {
    && (forall r :: r in s.running ==>
         Busy(s, r) && r < |s.reqs| && s.running[r] == s.reqs[r].num && r !in s.records)
    && (forall r: nat :: Busy(s, r) && r !in s.running ==>
         r in s.records && r < |s.reqs| && (s.reqs[r].num, s.records[r]) in s.reported)
  }

  // Objects in use are built for different submissions, and CheckCompletion has not found them completed.
  ghost predicate BusyOk(s: State) {
    && (forall r: nat :: Busy(s, r) ==> r < |s.reqs| && s.reqs[r].num < |s.accepted| && !s.reqs[r].completed)
    && (forall r: nat, q: nat :: Busy(s, r) && Busy(s, q) && r != q && r < |s.reqs| && q < |s.reqs| ==>
         s.reqs[r].num != s.reqs[q].num)
  }

  // The engine reports once for each submission; a result that is not a timeout carries its report for that submission.
  ghost predicate ReportsOk(s: State) {
    && (forall n, c :: (n, c) in s.reported ==> n < |s.accepted|)
    && (forall n, c, r :: (n, c) in s.reported && r in s.running ==> s.running[r] != n)
    && (forall n, c, d :: (n, c) in s.reported && (n, d) in s.reported ==> c == d)
    && (forall i :: 0 <= i < |s.delivered| && s.delivered[i].status.Done? ==>
         (s.delivered[i].num, s.delivered[i].status.code) in s.reported)
  }

  ghost predicate EngineOk(s: State) { RunningOk(s) && BusyOk(s) && ReportsOk(s) }

  ghost predicate QueuedOk(s: State, i: nat)
    requires i < |s.queue|
  {
    && s.queue[i] < |s.reqs|
    && var q := s.reqs[s.queue[i]]; q.num < |s.accepted| && q.ctx == s.accepted[q.num]
  }

  function NumAt(s: State, i: nat): nat
    requires i < |s.queue|
  {
    if s.queue[i] < |s.reqs| then s.reqs[s.queue[i]].num else 0
  }

  // The queue is in order of submission.
  ghost predicate QueueOk(s: State) {
    && (forall i :: 0 <= i < |s.queue| ==> QueuedOk(s, i))
    && (forall i, j :: 0 <= i < j < |s.queue| ==> NumAt(s, i) < NumAt(s, j))
  }

  ghost predicate InQueue(s: State, n: nat) { exists i :: 0 <= i < |s.queue| && NumAt(s, i) == n }

  ghost predicate HandedOut(s: State, n: nat) { exists i :: 0 <= i < |s.delivered| && s.delivered[i].num == n }

  // Every accepted submission is waiting or has had its result, once.
  ghost predicate ResultsOk(s: State) {
    && (forall i :: 0 <= i < |s.delivered| ==>
         s.delivered[i].num < |s.accepted| && s.delivered[i].ctx == s.accepted[s.delivered[i].num])
    && (forall i, j :: 0 <= i < j < |s.delivered| ==> s.delivered[i].num != s.delivered[j].num)
    && (forall n: nat :: n < |s.accepted| ==> InQueue(s, n) || HandedOut(s, n))
    && (forall n: nat :: !(InQueue(s, n) && HandedOut(s, n)))
  }

  // With ordered polling, results come in submission order.
  ghost predicate OrderOk(s: State) {
    s.ordered ==>
      && |s.accepted| == |s.delivered| + |s.queue|
      && (forall i :: 0 <= i < |s.delivered| ==> s.delivered[i].num == i)
      && (forall i :: 0 <= i < |s.queue| ==> NumAt(s, i) == |s.delivered| + i)
  }

  // A queued request has a live timer exactly when it has not expired; no other request has one.
  ghost predicate TimersOk(s: State) {
    && DistinctArgs(s.timers) && Sorted(s.timers)
    && (forall r: nat :: Armed(s.timers, r) <==> r in s.queue && r < |s.reqs| && !s.reqs[r].expired)
  }

  // A queued request has expired, and a result is a timeout, exactly when the timer of the submission has fired.
  ghost predicate LapsedOk(s: State) {
    && (forall n :: n in s.lapsed ==> n < |s.accepted|)
    && (forall r: nat :: r in s.queue && r < |s.reqs| ==> (s.reqs[r].expired <==> s.reqs[r].num in s.lapsed))
    && (forall i :: 0 <= i < |s.delivered| ==> (s.delivered[i].status == TimedOut <==> s.delivered[i].num in s.lapsed))
  }

  ghost predicate Inv(s: State) {
    Partition(s) && EngineOk(s) && QueueOk(s) && ResultsOk(s) && OrderOk(s) && TimersOk(s) && LapsedOk(s)
  }

  // What the result of a submission must be.
  ghost predicate DeliveryOk(s: State, d: Delivery) {
    && d.num < |s.accepted| && d.ctx == s.accepted[d.num]
    && if d.num in s.lapsed then d.status == TimedOut else d.status.Done? && (d.num, d.status.code) in s.reported
  }

  lemma DeliveredOk(s: State, i: nat)
    requires Inv(s) && i < |s.delivered|
    ensures DeliveryOk(s, s.delivered[i])
  {
    hide Partition;
    hide RunningOk;
    hide BusyOk;
    hide QueueOk;
    hide OrderOk;
    hide TimersOk;
    hide InQueue;
    hide HandedOut;
  }

  // What is left of it when results are dropped.
  ghost predicate Core(s: State) { Partition(s) && EngineOk(s) && TimersOk(s) }

  lemma InvIs(s: State)
    ensures Inv(s) <==> Core(s) && QueueOk(s) && ResultsOk(s) && OrderOk(s) && LapsedOk(s)
  {
    hide Partition;
    hide EngineOk;
    hide TimersOk;
    hide QueueOk;
    hide ResultsOk;
    hide OrderOk;
    hide LapsedOk;
  }

  // ----- lists -----

  lemma WithoutPlaces(q: seq<nat>, i: nat)
    requires i < |q|
    ensures multiset(Without(q, i)) == multiset(q) - multiset{q[i]}
  {
    var a, b := q[..i], q[i + 1..];
    assert q == a + [q[i]] + b;
    calc {
      multiset(q);
      multiset(a) + multiset{q[i]} + multiset(b);
      multiset(a + b) + multiset{q[i]};
    }
  }

  lemma InList(q: seq<nat>, r: nat)
    ensures r in q <==> multiset(q)[r] > 0
  {
  }

  lemma OneList(s: State, r: nat)
    requires Partition(s)
    ensures r in s.queue ==> r !in s.late && r !in s.cached && r < |s.reqs| && multiset(s.queue)[r] == 1
    ensures r in s.late ==> r !in s.cached && r < |s.reqs| && multiset(s.late)[r] == 1
    ensures r in s.cached ==> r < |s.reqs| && multiset(s.cached)[r] == 1
  {
    InList(s.queue, r);
    InList(s.late, r);
    InList(s.cached, r);
    assert Places(s)[r] == multiset(s.queue)[r] + multiset(s.late)[r] + multiset(s.cached)[r];
  }

  lemma InWithoutOnce(q: seq<nat>, i: nat, r: nat)
    requires i < |q| && multiset(q)[q[i]] == 1
    ensures r in Without(q, i) <==> r in q && r != q[i]
  {
    WithoutPlaces(q, i);
    InList(q, r);
    InList(Without(q, i), r);
  }

  lemma {:induction false} InitPlaces(c: seq<nat>, r: nat)
    requires forall i :: 0 <= i < |c| ==> c[i] == i
    ensures multiset(c)[r] == if r < |c| then 1 else 0
    decreases |c|
  {
    if c != [] {
      var n := |c| - 1;
      assert c == c[..n] + [c[n]];
      InitPlaces(c[..n], r);
    }
  }

  lemma InitInv(s: State)
    requires Init(s)
    ensures Inv(s)
  {
    forall r: nat ensures Places(s)[r] == if r < |s.reqs| then 1 else 0 { InitPlaces(s.cached, r); }
  }

  // ----- submitting -----

  lemma SubmitLists(s: State, ctx: nat, deadline: nat, z: State)
    requires Partition(s) && s.cached != [] && s.cached[0] < |s.reqs| && z == Submit(s, ctx, deadline)
    ensures Partition(z) && !Busy(s, s.cached[0])
  {
    var r := s.cached[0];
    OneList(s, r);
    assert s.cached == [r] + z.cached;
    assert Places(z) == Places(s);
  }

  lemma SubmitEngine(s: State, ctx: nat, deadline: nat, z: State)
    requires EngineOk(s) && s.cached != [] && s.cached[0] < |s.reqs| && !Busy(s, s.cached[0])
    requires z == Submit(s, ctx, deadline)
    ensures EngineOk(z)
  {
    forall x: nat ensures Busy(z, x) <==> Busy(s, x) || x == s.cached[0] { }
    hide Busy;
    SubmitRunning(s, ctx, deadline, z);
    SubmitReports(s, ctx, deadline, z);
    hide RunningOk;
    hide ReportsOk;
  }

  lemma SubmitRunning(s: State, ctx: nat, deadline: nat, z: State)
    requires RunningOk(s) && s.cached != [] && s.cached[0] < |s.reqs| && !Busy(s, s.cached[0])
    requires forall x: nat :: Busy(z, x) <==> Busy(s, x) || x == s.cached[0]
    requires z == Submit(s, ctx, deadline)
    ensures RunningOk(z)
  {
    hide Busy;
  }

  lemma SubmitReports(s: State, ctx: nat, deadline: nat, z: State)
    requires ReportsOk(s) && s.cached != [] && s.cached[0] < |s.reqs| && z == Submit(s, ctx, deadline)
    ensures ReportsOk(z)
  {
  }

  lemma SubmitQueue(s: State, ctx: nat, deadline: nat, z: State)
    requires QueueOk(s) && ResultsOk(s) && OrderOk(s) && s.cached != [] && s.cached[0] < |s.reqs| && s.cached[0] !in s.queue
    requires z == Submit(s, ctx, deadline)
    ensures QueueOk(z) && OrderOk(z)
    ensures forall i :: 0 <= i < |s.queue| ==> NumAt(z, i) == NumAt(s, i)
    ensures NumAt(z, |s.queue|) == |s.accepted|
  {
    forall i | 0 <= i < |s.queue| ensures NumAt(z, i) == NumAt(s, i) < |s.accepted| && QueuedOk(z, i) {
      assert QueuedOk(s, i) && s.queue[i] in s.queue;
    }
    assert QueuedOk(z, |s.queue|);
  }

  lemma SubmitResults(s: State, ctx: nat, deadline: nat, z: State)
    requires QueueOk(s) && ResultsOk(s) && s.cached != [] && s.cached[0] < |s.reqs| && z == Submit(s, ctx, deadline)
    requires forall i :: 0 <= i < |s.queue| ==> NumAt(z, i) == NumAt(s, i)
    requires NumAt(z, |s.queue|) == |s.accepted|
    ensures ResultsOk(z)
  {
    hide NumAt;
    forall n: nat ensures InQueue(z, n) <==> InQueue(s, n) || n == |s.accepted| {
      if i :| 0 <= i < |s.queue| && NumAt(s, i) == n { assert NumAt(z, i) == n; }
      if i :| 0 <= i < |z.queue| && NumAt(z, i) == n { assert i < |s.queue| ==> NumAt(s, i) == n; }
    }
    forall n: nat ensures HandedOut(z, n) <==> HandedOut(s, n) { }
    forall n: nat | HandedOut(s, n) ensures n < |s.accepted| { }
  }

  lemma SubmitTimers(s: State, ctx: nat, deadline: nat, z: State)
    requires TimersOk(s) && s.cached != [] && s.cached[0] < |s.reqs| && s.cached[0] !in s.queue
    requires forall i :: 0 <= i < |s.timers| ==> s.timers[i].deadline <= deadline
    requires z == Submit(s, ctx, deadline)
    ensures TimersOk(z)
  {
    var r := s.cached[0];
    forall a | 0 <= a < |s.timers| ensures s.timers[a].arg != r { assert !Armed(s.timers, r); }
    forall x: nat ensures Armed(z.timers, x) <==> x in z.queue && x < |z.reqs| && !z.reqs[x].expired {
      ArmedSnoc(s.timers, Timer(deadline, r), x);
    }
  }

  lemma SubmitKeeps(s: State, ctx: nat, deadline: nat)
    requires Inv(s) && s.cached != [] && s.cached[0] < |s.reqs|
    requires forall i :: 0 <= i < |s.timers| ==> s.timers[i].deadline <= deadline
    ensures Inv(Submit(s, ctx, deadline))
  {
    hide Partition;
    hide EngineOk;
    hide QueueOk;
    hide ResultsOk;
    hide OrderOk;
    hide TimersOk;
    hide LapsedOk;
    hide NumAt;
    var z := Submit(s, ctx, deadline);
    SubmitLists(s, ctx, deadline, z);
    SubmitEngine(s, ctx, deadline, z);
    SubmitQueue(s, ctx, deadline, z);
    SubmitResults(s, ctx, deadline, z);
    SubmitTimers(s, ctx, deadline, z);
    SubmitLapsed(s, ctx, deadline, z);
  }

  lemma SubmitLapsed(s: State, ctx: nat, deadline: nat, z: State)
    requires LapsedOk(s) && s.cached != [] && s.cached[0] < |s.reqs| && s.cached[0] !in s.queue && z == Submit(s, ctx, deadline)
    ensures LapsedOk(z)
  {
  }

  lemma LapsedFrame(s: State, z: State)
    requires LapsedOk(s) && z.queue == s.queue && z.accepted == s.accepted && z.delivered == s.delivered && z.lapsed == s.lapsed
    requires |z.reqs| == |s.reqs| && forall r :: r in s.queue && r < |s.reqs| ==> z.reqs[r].num == s.reqs[r].num && z.reqs[r].expired == s.reqs[r].expired
    ensures LapsedOk(z)
  {
  }

  // Only objects outside the queue change: what is known of the queue stays.
  lemma QueueFrame(s: State, z: State)
    requires QueueOk(s) && ResultsOk(s) && OrderOk(s)
    requires z.queue == s.queue && z.accepted == s.accepted && z.delivered == s.delivered && z.ordered == s.ordered
    requires |z.reqs| == |s.reqs| && forall r :: r in s.queue && r < |s.reqs| ==> z.reqs[r].num == s.reqs[r].num && z.reqs[r].ctx == s.reqs[r].ctx
    ensures QueueOk(z) && ResultsOk(z) && OrderOk(z)
  {
    forall i | 0 <= i < |s.queue| ensures NumAt(z, i) == NumAt(s, i) && QueuedOk(z, i) {
      assert QueuedOk(s, i) && s.queue[i] in s.queue;
    }
    hide NumAt;
    forall n: nat ensures (InQueue(z, n) <==> InQueue(s, n)) && (HandedOut(z, n) <==> HandedOut(s, n)) {
      if i :| 0 <= i < |s.queue| && NumAt(s, i) == n { assert NumAt(z, i) == n; }
      if i :| 0 <= i < |z.queue| && NumAt(z, i) == n { assert NumAt(s, i) == n; }
    }
  }

  lemma RefuseKeeps(s: State, ctx: nat)
    requires Inv(s) && s.cached != [] && s.cached[0] < |s.reqs|
    ensures Inv(Refuse(s, ctx))
  {
    hide Partition;
    hide EngineOk;
    hide QueueOk;
    hide ResultsOk;
    hide OrderOk;
    hide LapsedOk;
    var z := Refuse(s, ctx);
    RefuseLists(s, ctx, z);
    RefuseEngine(s, ctx, z);
    QueueFrame(s, z);
    LapsedFrame(s, z);
  }

  lemma RefuseLists(s: State, ctx: nat, z: State)
    requires Partition(s) && s.cached != [] && s.cached[0] < |s.reqs| && z == Refuse(s, ctx)
    ensures Partition(z) && !Busy(s, s.cached[0])
  {
    var r := s.cached[0];
    OneList(s, r);
    assert s.cached == [r] + s.cached[1..];
    assert multiset(z.cached) == multiset(s.cached);
    assert Places(z) == Places(s);
  }

  lemma RefuseEngine(s: State, ctx: nat, z: State)
    requires EngineOk(s) && s.cached != [] && s.cached[0] < |s.reqs| && !Busy(s, s.cached[0]) && z == Refuse(s, ctx)
    ensures EngineOk(z)
  {
    forall x: nat ensures Busy(z, x) <==> Busy(s, x) { }
    hide Busy;
  }

  // ----- the engine -----

  lemma FinishKeeps(s: State, done: map<nat, int>)
    requires Inv(s)
    ensures Inv(Finish(s, done))
  {
    hide Inv;
    hide Core;
    hide QueueOk;
    hide ResultsOk;
    hide OrderOk;
    var z := Finish(s, done);
    hide LapsedOk;
    InvIs(s);
    FinishCore(s, done);
    QueueFrame(s, z);
    LapsedFrame(s, z);
    InvIs(z);
  }

  lemma FinishCore(s: State, done: map<nat, int>)
    requires Core(s)
    ensures Core(Finish(s, done))
  {
    hide RunningOk;
    hide BusyOk;
    hide ReportsOk;
    var z := Finish(s, done);
    forall x: nat ensures Busy(z, x) <==> Busy(s, x) { }
    FinishRunning(s, done, z);
    FinishBusy(s, z);
    FinishReports(s, done, z);
    assert Places(z) == Places(s);
  }

  lemma FinishRunning(s: State, done: map<nat, int>, z: State)
    requires RunningOk(s) && z == Finish(s, done) && forall x: nat :: Busy(z, x) <==> Busy(s, x)
    ensures RunningOk(z)
  {
    hide Busy;
    FinishRecords(s, done, z);
    assert z.running == s.running - done.Keys && z.reqs == s.reqs;
    hide Finish;
  }

  lemma FinishRecords(s: State, done: map<nat, int>, z: State)
    requires z == Finish(s, done)
    ensures forall r :: r in s.running && r !in z.running ==> r in z.records && (s.running[r], z.records[r]) in z.reported
    ensures forall r :: r !in s.running ==> (r in z.records <==> r in s.records) && (r in s.records ==> z.records[r] == s.records[r])
    ensures forall r :: r in z.running ==> (r in z.records <==> r in s.records)
    ensures s.reported <= z.reported
  {
    forall r | r in s.running && r !in z.running ensures (s.running[r], done[r]) in z.reported && r in z.records { assert r in done; }
  }

  lemma FinishBusy(s: State, z: State)
    requires BusyOk(s) && z.reqs == s.reqs && z.accepted == s.accepted && forall x: nat :: Busy(z, x) <==> Busy(s, x)
    ensures BusyOk(z)
  {
    hide Busy;
  }

  lemma FinishReports(s: State, done: map<nat, int>, z: State)
    requires RunningOk(s) && BusyOk(s) && ReportsOk(s) && z == Finish(s, done)
    ensures ReportsOk(z)
  {
    hide Busy;
    forall n, c | (n, c) in z.reported ensures (n, c) in s.reported || exists r :: Reports(s, done, r, n, c) {
      if (n, c) !in s.reported {
        var r :| r in done && r in s.running && (s.running[r], done[r]) == (n, c);
        assert Reports(s, done, r, n, c);
      }
    }
    forall r, q | r in s.running && q in s.running && s.running[r] == s.running[q] ensures r == q { }
  }

  ghost predicate Reports(s: State, done: map<nat, int>, r: nat, n: nat, c: int) {
    r in done && r in s.running && s.running[r] == n && done[r] == c
  }

  // ----- delivering -----

  lemma DeliverLists(s: State, i: nat, z: State)
    requires Partition(s) && i < |s.queue| && Ready(s, i) && z == Deliver(s, i)
    ensures Partition(z) && forall x :: x in z.queue <==> x in s.queue && x != s.queue[i]
    ensures s.queue[i] !in s.late
  {
    hide Disarm;
    var r := s.queue[i];
    assert r in s.queue;
    OneList(s, r);
    DeliverPlaces(s, i, z);
    hide Partition;
    forall x ensures x in z.queue <==> x in s.queue && x != r { InWithoutOnce(s.queue, i, x); }
  }

  lemma DeliverPlaces(s: State, i: nat, z: State)
    requires Partition(s) && i < |s.queue| && Ready(s, i) && z == Deliver(s, i)
    ensures Partition(z)
  {
    hide Disarm;
    WithoutPlaces(s.queue, i);
    hide Without;
    assert Places(z) == Places(s);
  }

  lemma DeliverEngine(s: State, i: nat, z: State)
    requires EngineOk(s) && i < |s.queue| && Ready(s, i) && z == Deliver(s, i) && s.queue[i] !in s.late
    requires forall x :: x in z.queue <==> x in s.queue && x != s.queue[i]
    ensures EngineOk(z)
  {
    hide RunningOk;
    hide BusyOk;
    hide ReportsOk;
    hide Disarm;
    var r := s.queue[i];
    assert Busy(s, r);
    forall x: nat ensures Busy(z, x) <==> Busy(s, x) && (x != r || s.reqs[r].expired) { }
    hide Busy;
    DeliverReports(s, i, z);
    DeliverBusy(s, i, z);
    DeliverRunning(s, i, z);
  }

  lemma DeliverBusy(s: State, i: nat, z: State)
    requires BusyOk(s) && i < |s.queue| && Ready(s, i) && z == Deliver(s, i)
    requires forall x: nat :: Busy(z, x) <==> Busy(s, x) && (x != s.queue[i] || s.reqs[s.queue[i]].expired)
    ensures BusyOk(z)
  {
    hide Busy;
    hide Disarm;
  }

  lemma DeliverRunning(s: State, i: nat, z: State)
    requires RunningOk(s) && i < |s.queue| && Ready(s, i) && z == Deliver(s, i)
    requires forall x: nat :: Busy(z, x) <==> Busy(s, x) && (x != s.queue[i] || s.reqs[s.queue[i]].expired)
    ensures RunningOk(z)
  {
    hide Busy;
    hide Disarm;
  }

  lemma DeliverReports(s: State, i: nat, z: State)
    requires RunningOk(s) && ReportsOk(s) && i < |s.queue| && Ready(s, i) && z == Deliver(s, i) && Busy(s, s.queue[i])
    ensures ReportsOk(z)
  {
    hide Busy;
    hide Disarm;
    var r := s.queue[i];
    forall k | 0 <= k < |z.delivered| && z.delivered[k].status.Done?
      ensures (z.delivered[k].num, z.delivered[k].status.code) in z.reported
    {
      if k == |s.delivered| { assert r !in s.running; }
    }
  }

  lemma DeliverQueue(s: State, i: nat, z: State)
    requires QueueOk(s) && OrderOk(s) && i < |s.queue| && s.queue[i] < |s.reqs| && (s.ordered ==> i == 0)
    requires Ready(s, i) && z == Deliver(s, i)
    ensures QueueOk(z) && OrderOk(z)
    ensures forall k :: 0 <= k < |z.queue| ==> NumAt(z, k) == NumAt(s, if k < i then k else k + 1)
  {
    WithoutAt(s.queue, i);
    assert z.delivered[|s.delivered|].num == NumAt(s, i);
    forall k | 0 <= k < |z.queue| ensures QueuedOk(z, k) && NumAt(z, k) == NumAt(s, if k < i then k else k + 1) {
      assert QueuedOk(s, if k < i then k else k + 1);
    }
  }

  lemma DeliverResults(s: State, i: nat, z: State)
    requires QueueOk(s) && ResultsOk(s) && i < |s.queue| && s.queue[i] < |s.reqs| && Ready(s, i) && z == Deliver(s, i)
    requires forall k :: 0 <= k < |z.queue| ==> NumAt(z, k) == NumAt(s, if k < i then k else k + 1)
    ensures ResultsOk(z)
  {
    var n0 := NumAt(s, i);
    assert QueuedOk(s, i) && InQueue(s, n0) && z.delivered[|s.delivered|].num == n0;
    forall n: nat ensures HandedOut(z, n) <==> HandedOut(s, n) || n == n0 {
      if k :| 0 <= k < |s.delivered| && s.delivered[k].num == n { assert z.delivered[k].num == n; }
    }
    forall k | 0 <= k < |s.delivered| ensures s.delivered[k].num != n0 { assert s.delivered[k].num == n0 ==> HandedOut(s, n0); }
    hide NumAt;
    forall n: nat ensures InQueue(z, n) <==> InQueue(s, n) && n != n0 { DeliverInQueue(s, i, z, n); }
  }

  lemma DeliverInQueue(s: State, i: nat, z: State, n: nat)
    requires QueueOk(s) && i < |s.queue| && z.queue == Without(s.queue, i)
    requires forall k :: 0 <= k < |z.queue| ==> NumAt(z, k) == NumAt(s, if k < i then k else k + 1)
    ensures InQueue(z, n) <==> InQueue(s, n) && n != NumAt(s, i)
  {
    hide NumAt;
    if k :| 0 <= k < |z.queue| && NumAt(z, k) == n { assert NumAt(s, if k < i then k else k + 1) == n; }
    if InQueue(s, n) && n != NumAt(s, i) {
      var k :| 0 <= k < |s.queue| && NumAt(s, k) == n;
      assert NumAt(z, if k < i then k else k - 1) == n;
    }
  }

  lemma DeliverTimers(s: State, i: nat, z: State)
    requires TimersOk(s) && i < |s.queue| && s.queue[i] < |s.reqs| && Ready(s, i) && z == Deliver(s, i)
    requires forall x :: x in z.queue <==> x in s.queue && x != s.queue[i]
    ensures TimersOk(z)
  {
    var r := s.queue[i];
    if !s.reqs[r].expired {
      DisarmFacts(s.timers, r, 0);
      forall x: nat ensures Armed(z.timers, x) <==> Armed(s.timers, x) && x != r { DisarmFacts(s.timers, r, x); }
    }
  }

  lemma DeliverKeeps(s: State, i: nat)
    requires Inv(s) && i < |s.queue| && Ready(s, i) && (s.ordered ==> i == 0)
    ensures Inv(Deliver(s, i))
  {
    hide Partition;
    hide EngineOk;
    hide QueueOk;
    hide ResultsOk;
    hide OrderOk;
    hide TimersOk;
    hide LapsedOk;
    hide NumAt;
    hide Disarm;
    var z := Deliver(s, i);
    DeliverLists(s, i, z);
    DeliverEngine(s, i, z);
    DeliverQueue(s, i, z);
    DeliverResults(s, i, z);
    DeliverTimers(s, i, z);
    DeliverLapsed(s, i, z);
  }

  lemma DeliverLapsed(s: State, i: nat, z: State)
    requires LapsedOk(s) && i < |s.queue| && Ready(s, i) && z == Deliver(s, i)
    requires forall x :: x in z.queue <==> x in s.queue && x != s.queue[i]
    ensures LapsedOk(z)
  {
    hide Disarm;
    assert s.queue[i] in s.queue;
  }

  // ----- expiring and reaping -----

  lemma ExpireKeeps(s: State)
    requires Inv(s) && s.timers != []
    ensures s.timers[0].arg < |s.reqs| && s.timers[0].arg in s.queue && !s.reqs[s.timers[0].arg].expired
    ensures Inv(Expire(s))
  {
    hide EngineOk;
    hide QueueOk;
    hide ResultsOk;
    hide OrderOk;
    hide LapsedOk;
    var r := s.timers[0].arg;
    assert Armed(s.timers, r);
    var z := Expire(s);
    ExpireEngine(s, z);
    QueueFrame(s, z);
    ExpireLapsed(s, z);
    assert forall k :: 0 <= k < |z.timers| ==> z.timers[k] == s.timers[k + 1];
    forall x: nat ensures Armed(z.timers, x) <==> Armed(s.timers, x) && x != r { ArmedCons(s.timers, x); }
    assert Places(z) == Places(s);
  }

  lemma ExpireLapsed(s: State, z: State)
    requires LapsedOk(s) && EngineOk(s) && ResultsOk(s) && QueueOk(s)
    requires s.timers != [] && s.timers[0].arg < |s.reqs| && s.timers[0].arg in s.queue && z == Expire(s)
    ensures LapsedOk(z)
  {
    hide RunningOk;
    hide ReportsOk;
    var r := s.timers[0].arg;
    var n := s.reqs[r].num;
    assert Busy(s, r);
    forall q: nat | q in s.queue && q < |s.reqs| && q != r ensures s.reqs[q].num != n { assert Busy(s, q); }
    var k :| 0 <= k < |s.queue| && s.queue[k] == r;
    assert QueuedOk(s, k) && NumAt(s, k) == n && InQueue(s, n) && !HandedOut(s, n);
    hide BusyOk;
    hide QueueOk;
  }

  lemma ExpireEngine(s: State, z: State)
    requires EngineOk(s) && s.timers != [] && s.timers[0].arg < |s.reqs| && z == Expire(s)
    ensures EngineOk(z)
  {
    forall x: nat ensures Busy(z, x) <==> Busy(s, x) { }
    hide Busy;
  }

  lemma ReapKeeps(s: State, i: nat)
    requires Inv(s) && i < |s.late| && s.late[i] < |s.reqs| && s.late[i] in s.records
    ensures Inv(Reap(s, i))
  {
    hide Inv;
    hide Core;
    hide QueueOk;
    hide ResultsOk;
    hide OrderOk;
    hide LapsedOk;
    var z := Reap(s, i);
    InvIs(s);
    ReapCore(s, i);
    QueueFrame(s, z);
    LapsedFrame(s, z);
    InvIs(z);
  }

  lemma ReapCore(s: State, i: nat)
    requires Core(s) && i < |s.late| && s.late[i] < |s.reqs| && s.late[i] in s.records
    ensures Core(Reap(s, i))
  {
    hide Partition;
    hide EngineOk;
    var z := Reap(s, i);
    ReapPlaces(s, i, z);
    ReapEngine(s, i, z);
  }

  lemma ReapPlaces(s: State, i: nat, z: State)
    requires Partition(s) && i < |s.late| && s.late[i] < |s.reqs| && z == Reap(s, i)
    ensures Partition(z) && s.late[i] !in s.queue && forall x :: x in z.late <==> x in s.late && x != s.late[i]
  {
    var r := s.late[i];
    assert r in s.late;
    OneList(s, r);
    WithoutPlaces(s.late, i);
    assert Places(z) == Places(s);
    forall x ensures x in z.late <==> x in s.late && x != r { InWithoutOnce(s.late, i, x); }
  }

  lemma ReapEngine(s: State, i: nat, z: State)
    requires EngineOk(s) && i < |s.late| && s.late[i] < |s.reqs| && s.late[i] in s.records && z == Reap(s, i)
    requires s.late[i] !in s.queue && forall x :: x in z.late <==> x in s.late && x != s.late[i]
    ensures EngineOk(z)
  {
    var r := s.late[i];
    assert Busy(s, r);
    forall x: nat ensures Busy(z, x) <==> Busy(s, x) && x != r { }
    hide Busy;
  }

  lemma StepKeepsInv(s: State, e: Event, z: State)
    requires Inv(s) && Step(s, e, z)
    ensures Inv(z)
  {
    hide Inv;
    match e
    case Accepted(ctx, deadline) => SubmitKeeps(s, ctx, deadline);
    case Refused(ctx) => RefuseKeeps(s, ctx);
    case EngineCompletes(done) => FinishKeeps(s, done);
    case Delivered(i) => DeliverKeeps(s, i);
    case TimerFires(now) => ExpireKeeps(s);
    case Reaped(i) => ReapKeeps(s, i);
  }

  ghost predicate Run(ss: seq<State>, es: seq<Event>) {
    && |ss| == |es| + 1 && Init(ss[0])
    && forall i :: 0 <= i < |es| ==> Step(ss[i], es[i], ss[i + 1])
  }

  lemma {:induction false} RunKeepsInv(ss: seq<State>, es: seq<Event>, i: nat)
    requires Run(ss, es) && i < |ss|
    ensures Inv(ss[i])
  {
    hide Inv;
    hide Step;
    if i == 0 {
      InitInv(ss[0]);
    } else {
      RunKeepsInv(ss, es, i - 1);
      StepKeepsInv(ss[i - 1], es[i - 1], ss[i]);
    }
  }

  /** In every run each request object is in exactly one of the three lists, and what the engine works on is queued or
   *  expired. */
  lemma ObjectsArePartitioned(ss: seq<State>, es: seq<Event>, i: nat, r: nat)
    requires Run(ss, es) && i < |ss| && r < |ss[i].reqs|
    ensures var s := ss[i];
      && (r in s.queue || r in s.late || r in s.cached)
      && !(r in s.queue && r in s.late) && !(r in s.queue && r in s.cached) && !(r in s.late && r in s.cached)
      && (r in s.running ==> r !in s.cached)
  {
    RunKeepsInv(ss, es, i);
    OneList(ss[i], r);
    InList(ss[i].queue, r);
    InList(ss[i].late, r);
    InList(ss[i].cached, r);
    assert Places(ss[i])[r] == 1;
  }

  /** In every run, the object a submission builds is one the engine is not working on: it has finished every submission
   *  the object was ever used for. */
  lemma OnlyIdleIsRebuilt(ss: seq<State>, es: seq<Event>, i: nat)
    requires Run(ss, es) && i < |es| && (es[i].Accepted? || es[i].Refused?)
    ensures ss[i].cached != [] && ss[i].cached[0] !in ss[i].running
  {
    RunKeepsInv(ss, es, i);
    assert Step(ss[i], es[i], ss[i + 1]);
    OneList(ss[i], ss[i].cached[0]);
  }

  /** In every run each accepted submission has exactly one result or is still queued, with its own context.  A result is a
   *  timeout if the submission's timer has fired, and else the one code that the engine reported for that very submission.
   *  With ordered polling the i-th result is that of the i-th submission, timeouts included. */
  lemma ExactlyOneResult(ss: seq<State>, es: seq<Event>, i: nat, n: nat)
    requires Run(ss, es) && i < |ss| && n < |ss[i].accepted|
    ensures var s := ss[i];
      && (InQueue(s, n) <==> !HandedOut(s, n))
      && (forall j, k :: 0 <= j < k < |s.delivered| ==> s.delivered[j].num != s.delivered[k].num)
      && (forall j :: 0 <= j < |s.delivered| ==> DeliveryOk(s, s.delivered[j]))
      && (forall c, d :: (n, c) in s.reported && (n, d) in s.reported ==> c == d)
      && (s.ordered ==> forall j :: 0 <= j < |s.delivered| ==> s.delivered[j].num == j)
  {
    RunKeepsInv(ss, es, i);
    forall j | 0 <= j < |ss[i].delivered| ensures DeliveryOk(ss[i], ss[i].delivered[j]) { DeliveredOk(ss[i], j); }
  }

  // ----- runs, by their events -----

  function Contexts(es: seq<Event>): seq<nat> {
    if es == [] then [] else
      var n := |es| - 1;
      if es[n].Accepted? then Contexts(es[..n]) + [es[n].ctx] else Contexts(es[..n])
  }

  function Deadlines(es: seq<Event>): seq<nat> {
    if es == [] then [] else
      var n := |es| - 1;
      if es[n].Accepted? then Deadlines(es[..n]) + [es[n].deadline] else Deadlines(es[..n])
  }

  // Every timer has the deadline its request was submitted with.
  ghost predicate HasDeadline(s: State, due: seq<nat>, t: Timer) {
    t.arg < |s.reqs| && s.reqs[t.arg].num < |due| && t.deadline == due[s.reqs[t.arg].num]
  }

  ghost predicate Timely(s: State, due: seq<nat>) {
    |due| == |s.accepted| && forall k :: 0 <= k < |s.timers| ==> HasDeadline(s, due, s.timers[k])
  }

  lemma {:induction false} LogsAreEvents(ss: seq<State>, es: seq<Event>, i: nat)
    requires Run(ss, es) && i < |ss|
    ensures ss[i].accepted == Contexts(es[..i]) && Timely(ss[i], Deadlines(es[..i]))
  {
    hide Inv;
    hide Step;
    if i > 0 {
      LogsAreEvents(ss, es, i - 1);
      RunKeepsInv(ss, es, i - 1);
      assert es[..i][..i - 1] == es[..i - 1] && es[..i][i - 1] == es[i - 1];
      OneMoreEvent(ss[i - 1], es[..i - 1], es[i - 1], ss[i], es[..i]);
    }
  }

  lemma OneMoreEvent(s: State, es: seq<Event>, e: Event, z: State, fs: seq<Event>)
    requires Inv(s) && Step(s, e, z) && fs != [] && fs[..|fs| - 1] == es && fs[|fs| - 1] == e
    requires s.accepted == Contexts(es) && Timely(s, Deadlines(es))
    ensures z.accepted == Contexts(fs) && Timely(z, Deadlines(fs))
  {
    hide Inv;
    hide HasDeadline;
    hide Disarm;
    if e.Accepted? || e.Refused? { CachedHasNoTimer(s); }
    var due := if e.Accepted? then Deadlines(es) + [e.deadline] else Deadlines(es);
    forall k | 0 <= k < |z.timers| ensures HasDeadline(z, due, z.timers[k]) { TimelyStep(s, e, z, Deadlines(es), due, k); }
  }

  lemma CachedHasNoTimer(s: State)
    requires Inv(s) && s.cached != []
    ensures forall k :: 0 <= k < |s.timers| ==> s.timers[k].arg != s.cached[0]
  {
    hide EngineOk;
    hide QueueOk;
    hide ResultsOk;
    hide OrderOk;
    hide LapsedOk;
    OneList(s, s.cached[0]);
    hide Partition;
    forall k | 0 <= k < |s.timers| ensures s.timers[k].arg != s.cached[0] { assert Armed(s.timers, s.timers[k].arg); }
  }

  lemma TimelyStep(s: State, e: Event, z: State, due: seq<nat>, more: seq<nat>, k: nat)
    requires Step(s, e, z) && Timely(s, due) && k < |z.timers|
    requires e.Accepted? || e.Refused? ==> s.cached != [] && forall k :: 0 <= k < |s.timers| ==> s.timers[k].arg != s.cached[0]
    requires more == if e.Accepted? then due + [e.deadline] else due
    ensures HasDeadline(z, more, z.timers[k])
  {
    hide Disarm;
    if !(e.Accepted? && k == |s.timers|) {
      var t := z.timers[k];
      if e.Delivered? { DisarmIn(s.timers, s.queue[e.i], t); }
      assert t in s.timers;
      var x :| 0 <= x < |s.timers| && s.timers[x] == t;
      assert HasDeadline(s, due, s.timers[x]);
    }
  }

  // Submission n is queued and has not expired.
  ghost predicate Waits(s: State, n: nat) {
    exists k :: 0 <= k < |s.queue| && s.queue[k] < |s.reqs| && s.reqs[s.queue[k]].num == n && !s.reqs[s.queue[k]].expired
  }

  // It stops waiting because a timer fires, at or after its own deadline.
  ghost predicate ExpiresAt(ss: seq<State>, es: seq<Event>, j: nat, n: nat)
    requires |ss| == |es| + 1 && j < |es|
  {
    && es[j].TimerFires? && Waits(ss[j], n) && !Waits(ss[j + 1], n)
    && n < |Deadlines(es[..j])| && Deadlines(es[..j])[n] <= es[j].now
  }

  ghost predicate Expires(ss: seq<State>, es: seq<Event>, i: nat, n: nat)
    requires |ss| == |es| + 1 && i <= |es|
  {
    exists j: nat :: j < i && ExpiresAt(ss, es, j, n)
  }

  lemma LapsesStep(s: State, e: Event, z: State, due: seq<nat>, n: nat)
    requires Inv(s) && Inv(z) && Step(s, e, z) && Timely(s, due)
    ensures n in z.lapsed && n !in s.lapsed <==>
      e.TimerFires? && Waits(s, n) && !Waits(z, n) && n < |due| && due[n] <= e.now
    ensures n in s.lapsed ==> n in z.lapsed
  {
    hide Inv;
    hide Waits;
    hide Disarm;
    if e.TimerFires? {
      ExpireKeeps(s);
      assert HasDeadline(s, due, s.timers[0]);
      var r := s.timers[0].arg;
      NotLapsed(s, r);
      WaitsExpire(s, z, n);
    }
  }

  lemma NotLapsed(s: State, r: nat)
    requires Inv(s) && r in s.queue && r < |s.reqs| && !s.reqs[r].expired
    ensures s.reqs[r].num !in s.lapsed && Waits(s, s.reqs[r].num)
  {
    hide Partition;
    hide EngineOk;
    hide QueueOk;
    hide ResultsOk;
    hide OrderOk;
    hide TimersOk;
    var k :| 0 <= k < |s.queue| && s.queue[k] == r;
    assert s.queue[k] < |s.reqs| && s.reqs[s.queue[k]].num == s.reqs[r].num;
  }

  // A waiting submission is one whose timer has not fired; so firing ends just one wait.
  lemma WaitsExpire(s: State, z: State, n: nat)
    requires Inv(s) && Inv(z) && s.timers != [] && s.timers[0].arg < |s.reqs| && z == Expire(s)
    ensures Waits(z, n) <==> Waits(s, n) && n != s.reqs[s.timers[0].arg].num
  {
    hide Inv;
    WaitsNotLapsed(z, n);
    var r := s.timers[0].arg;
    if Waits(s, n) && n != s.reqs[r].num {
      var k :| 0 <= k < |s.queue| && s.queue[k] < |s.reqs| && s.reqs[s.queue[k]].num == n && !s.reqs[s.queue[k]].expired;
      assert z.queue[k] < |z.reqs| && z.reqs[z.queue[k]] == s.reqs[z.queue[k]];
    }
    if Waits(z, n) {
      var k :| 0 <= k < |z.queue| && z.queue[k] < |z.reqs| && z.reqs[z.queue[k]].num == n && !z.reqs[z.queue[k]].expired;
      assert s.queue[k] < |s.reqs| && s.reqs[s.queue[k]].num == n && !s.reqs[s.queue[k]].expired;
    }
  }

  lemma WaitsNotLapsed(s: State, n: nat)
    requires Inv(s)
    ensures Waits(s, n) ==> n !in s.lapsed
  {
    hide Partition;
    hide EngineOk;
    hide QueueOk;
    hide ResultsOk;
    hide OrderOk;
    hide TimersOk;
    if Waits(s, n) {
      var k :| 0 <= k < |s.queue| && s.queue[k] < |s.reqs| && s.reqs[s.queue[k]].num == n && !s.reqs[s.queue[k]].expired;
      assert s.queue[k] in s.queue;
    }
  }

  lemma {:induction false} LapsedIffExpires(ss: seq<State>, es: seq<Event>, i: nat, n: nat)
    requires Run(ss, es) && i < |ss|
    ensures n in ss[i].lapsed <==> Expires(ss, es, i, n)
  {
    hide Inv;
    hide Step;
    hide Timely;
    hide Waits;
    if i > 0 {
      LapsedIffExpires(ss, es, i - 1, n);
      RunKeepsInv(ss, es, i - 1);
      RunKeepsInv(ss, es, i);
      LogsAreEvents(ss, es, i - 1);
      LapsesStep(ss[i - 1], es[i - 1], ss[i], Deadlines(es[..i - 1]), n);
      if n in ss[i].lapsed && n !in ss[i - 1].lapsed { assert ExpiresAt(ss, es, i - 1, n); }
    }
  }

  // The engine completes submission n with code c.
  ghost predicate CompletesAt(s: State, e: Event, r: nat, n: nat, c: int) {
    e.EngineCompletes? && r in e.done && e.done[r] == c && r in s.running && s.running[r] == n
  }

  ghost predicate Completes(ss: seq<State>, es: seq<Event>, i: nat, n: nat, c: int)
    requires |ss| == |es| + 1 && i <= |es|
  {
    exists j: nat, r :: j < i && CompletesAt(ss[j], es[j], r, n, c)
  }

  lemma {:induction false} ReportedIffCompletes(ss: seq<State>, es: seq<Event>, i: nat, n: nat, c: int)
    requires Run(ss, es) && i < |ss|
    ensures (n, c) in ss[i].reported <==> Completes(ss, es, i, n, c)
  {
    hide Step;
    if i > 0 {
      ReportedIffCompletes(ss, es, i - 1, n, c);
      ReportStep(ss[i - 1], es[i - 1], ss[i], n, c);
      if (n, c) in ss[i].reported && (n, c) !in ss[i - 1].reported {
        var r :| CompletesAt(ss[i - 1], es[i - 1], r, n, c);
        assert Completes(ss, es, i, n, c);
      }
    }
  }

  lemma ReportStep(s: State, e: Event, z: State, n: nat, c: int)
    requires Step(s, e, z)
    ensures (n, c) in z.reported <==> (n, c) in s.reported || exists r :: CompletesAt(s, e, r, n, c)
  {
    hide Disarm;
    if e.EngineCompletes? && (n, c) in z.reported && (n, c) !in s.reported {
      var r :| r in e.done && r in s.running && (s.running[r], e.done[r]) == (n, c);
      assert CompletesAt(s, e, r, n, c);
    }
  }

  /** In every run, read off its events: a result has the context of the submission it is for.  It is a timeout exactly when
   *  a timer fired for that submission while it was queued, at or after its deadline; otherwise it is a code that the engine
   *  completed that submission with. */
  lemma ResultsByEvents(ss: seq<State>, es: seq<Event>, i: nat, j: nat)
    requires Run(ss, es) && i < |ss| && j < |ss[i].delivered|
    ensures var d := ss[i].delivered[j];
      && d.num < |Contexts(es[..i])| && d.ctx == Contexts(es[..i])[d.num]
      && (d.status == TimedOut <==> Expires(ss, es, i, d.num))
      && (d.status.Done? ==> Completes(ss, es, i, d.num, d.status.code))
  {
    hide Inv;
    hide Expires;
    hide Completes;
    hide Timely;
    var d := ss[i].delivered[j];
    RunKeepsInv(ss, es, i);
    DeliveredOk(ss[i], j);
    LogsAreEvents(ss, es, i);
    LapsedIffExpires(ss, es, i, d.num);
    if d.status.Done? { ReportedIffCompletes(ss, es, i, d.num, d.status.code); }
    hide Run;
  }

  /** In every run a request has a live timer exactly while it is queued and has not expired. */
  lemma TimerWhileWaiting(ss: seq<State>, es: seq<Event>, i: nat, r: nat)
    requires Run(ss, es) && i < |ss|
    ensures var s := ss[i];
      Armed(s.timers, r) <==> r in s.queue && r < |s.reqs| && !s.reqs[r].expired
  {
    RunKeepsInv(ss, es, i);
  }

  // ----- what one Poll does -----

  // What the engine completes just before each check, one entry for each; nothing after the last entry.
  type Completions = seq<map<nat, int>>

  function First(news: Completions): map<nat, int> { if news == [] then map[] else news[0] }

  function Rest(news: Completions): Completions { if news == [] then [] else news[1..] }

  // The first loop: from index i on, with room for max results.
  ghost function Scan(s: State, i: nat, max: nat, news: Completions): State
    decreases |s.queue| - i
  {
    if i >= |s.queue| || max == 0 || s.queue[i] >= |s.reqs| then s else
      var r := s.queue[i];
      if s.reqs[r].expired then Scan(Deliver(s, i), i, max - 1, news) else
        var u := Finish(s, First(news));
        if r in u.records then Scan(Deliver(u, i), i, max - 1, Rest(news))
        else if s.ordered then u
        else Scan(u, i + 1, max, Rest(news))
  }

  // One round of the loop.
  lemma ScanRound(s: State, i: nat, max: nat, news: Completions)
    requires i < |s.queue| && max > 0 && s.queue[i] < |s.reqs|
    ensures var u := Finish(s, First(news));
      && u.queue == s.queue && u.reqs == s.reqs && u.ordered == s.ordered
      && (s.reqs[s.queue[i]].expired ==> Scan(s, i, max, news) == Scan(Deliver(s, i), i, max - 1, news))
      && (!s.reqs[s.queue[i]].expired && s.queue[i] in u.records ==>
           Scan(s, i, max, news) == Scan(Deliver(u, i), i, max - 1, Rest(news)))
      && (!s.reqs[s.queue[i]].expired && s.queue[i] !in u.records ==>
           Scan(s, i, max, news) == if s.ordered then u else Scan(u, i + 1, max, Rest(news)))
  {
    hide Deliver;
  }

  lemma ScanEnds(s: State, i: nat, max: nat, news: Completions)
    requires i >= |s.queue| || max == 0 || s.queue[i] >= |s.reqs|
    ensures Scan(s, i, max, news) == s
  {
  }

  // A request has expired, or the engine has recorded its completion.
  predicate HasOutcome(s: State, r: nat) { r < |s.reqs| && (s.reqs[r].expired || r in s.records) }

  // With room left, what was ready at the start has been handed out; ordered polling stops only at a request that is not.
  ghost predicate Scanned(s: State, z: State, max: nat, ready: set<nat>) {
    && s.delivered <= z.delivered && |z.delivered| <= |s.delivered| + max
    && z.ordered == s.ordered && |z.delivered| - |s.delivered| == |s.queue| - |z.queue|
    && (|z.delivered| < |s.delivered| + max && s.ordered ==> z.queue == [] || !HasOutcome(z, z.queue[0]))
    && (|z.delivered| < |s.delivered| + max && !s.ordered ==> forall k :: 0 <= k < |z.queue| ==> z.queue[k] !in ready)
  }

  ghost function ReadyObjects(s: State): set<nat> {
    set r | r in s.queue && HasOutcome(s, r)
  }

  /** Whatever the engine completes meanwhile, the first loop stops early only where it must: with ordered polling at a
   *  request that is neither expired nor completed; otherwise every request that was ready when it began has its result. */
  lemma ScanIsComplete(s: State, max: nat, news: Completions)
    requires Inv(s)
    ensures Inv(Scan(s, 0, max, news)) && Scanned(s, Scan(s, 0, max, news), max, ReadyObjects(s))
  {
    var ready := ReadyObjects(s);
    forall k | 0 <= k < |s.queue| && s.queue[k] in ready ensures Ready(s, k) { assert HasOutcome(s, s.queue[k]); }
    ScanFrom(s, 0, max, news, ready);
  }

  lemma {:induction false} ScanFrom(s: State, i: nat, max: nat, news: Completions, ready: set<nat>)
    requires Inv(s) && i <= |s.queue| && (s.ordered ==> i == 0)
    requires forall k :: 0 <= k < i ==> s.queue[k] !in ready
    requires forall k :: 0 <= k < |s.queue| && s.queue[k] in ready ==> Ready(s, k)
    ensures Inv(Scan(s, i, max, news)) && Scanned(s, Scan(s, i, max, news), max, ready)
    decreases |s.queue| - i
  {
    hide Inv;
    hide Scan;
    hide Scanned;
    hide Finish;
    hide Deliver;
    if i < |s.queue| && max > 0 {
      QueuedInRange(s, i);
      ScanRound(s, i, max, news);
      if s.reqs[s.queue[i]].expired {
        ScanDelivers(s, i, max, news, ready);
      } else {
        var u := Finish(s, First(news));
        FinishKeeps(s, First(news));
        FinishReady(s, First(news), ready);
        if s.queue[i] in u.records {
          ScanDelivers(u, i, max, Rest(news), ready);
        } else if s.ordered {
          ScanStops(u, max, ready);
        } else {
          ScanFrom(u, i + 1, max, Rest(news), ready);
        }
        ScannedFinish(s, First(news), Scan(s, i, max, news), max, ready);
      }
    } else {
      ScanEnds(s, i, max, news);
      ScanStops(s, max, ready);
    }
  }

  lemma ScanStops(s: State, max: nat, ready: set<nat>)
    requires max > 0 ==> if s.ordered then s.queue == [] || !HasOutcome(s, s.queue[0]) else forall k :: 0 <= k < |s.queue| ==> s.queue[k] !in ready
    ensures Scanned(s, s, max, ready)
  {
  }

  lemma ScannedFinish(s: State, done: map<nat, int>, z: State, max: nat, ready: set<nat>)
    requires Scanned(Finish(s, done), z, max, ready)
    ensures Scanned(s, z, max, ready)
  {
  }

  lemma FinishReady(s: State, done: map<nat, int>, ready: set<nat>)
    requires forall k :: 0 <= k < |s.queue| && s.queue[k] in ready ==> Ready(s, k)
    ensures var u := Finish(s, done); forall k :: 0 <= k < |u.queue| && u.queue[k] in ready ==> Ready(u, k)
  {
    var u := Finish(s, done);
    forall k | 0 <= k < |u.queue| && u.queue[k] in ready ensures Ready(u, k) { assert Ready(s, k); }
  }

  lemma {:induction false} ScanDelivers(s: State, i: nat, max: nat, news: Completions, ready: set<nat>)
    requires Inv(s) && i < |s.queue| && Ready(s, i) && max > 0 && (s.ordered ==> i == 0)
    requires forall k :: 0 <= k < i ==> s.queue[k] !in ready
    requires forall k :: 0 <= k < |s.queue| && s.queue[k] in ready ==> Ready(s, k)
    ensures var y := Scan(Deliver(s, i), i, max - 1, news); Inv(y) && Scanned(s, y, max, ready)
    decreases |s.queue| - i, 0
  {
    hide Inv;
    hide Deliver;
    hide Ready;
    DeliverKeeps(s, i);
    DeliverReady(s, i, ready);
    ScanFrom(Deliver(s, i), i, max - 1, news, ready);
  }

  lemma DeliverReady(s: State, i: nat, ready: set<nat>)
    requires i < |s.queue| && Ready(s, i) && (forall k :: 0 <= k < i ==> s.queue[k] !in ready)
    requires forall k :: 0 <= k < |s.queue| && s.queue[k] in ready ==> Ready(s, k)
    ensures var z := Deliver(s, i);
      && (forall k :: 0 <= k < i && k < |z.queue| ==> z.queue[k] !in ready)
      && (forall k :: 0 <= k < |z.queue| && z.queue[k] in ready ==> Ready(z, k))
      && |z.queue| == |s.queue| - 1 && z.ordered == s.ordered
      && s.delivered <= z.delivered && |z.delivered| == |s.delivered| + 1
  {
    hide Disarm;
    var z := Deliver(s, i);
    WithoutAt(s.queue, i);
    forall k | 0 <= k < |z.queue| && z.queue[k] in ready ensures Ready(z, k) {
      if k >= i { assert Ready(s, k + 1); }
    }
  }

  lemma QueuedInRange(s: State, i: nat)
    requires Inv(s) && i < |s.queue|
    ensures s.queue[i] < |s.reqs|
  {
    assert QueuedOk(s, i);
  }

  ghost function ExpireDue(s: State, now: nat): State
    decreases |s.timers|
  {
    if s.timers != [] && s.timers[0].deadline <= now && s.timers[0].arg < |s.reqs| then ExpireDue(Expire(s), now) else s
  }

  ghost predicate Marks(s: State, z: State, now: nat) {
    && |z.timers| <= |s.timers| && z.timers == s.timers[|s.timers| - |z.timers|..]
    && (forall k :: 0 <= k < |s.timers| ==> (k < |s.timers| - |z.timers| <==> s.timers[k].deadline <= now))
    && |z.reqs| == |s.reqs|
    && (forall r: nat :: r < |s.reqs| ==>
         z.reqs[r] == if Due(s.timers, r, now) then s.reqs[r].(expired := true) else s.reqs[r])
    && z == s.(reqs := z.reqs, timers := z.timers, lapsed := z.lapsed)
  }

  /** Exactly the requests whose timers are due are marked, and nothing else changes. */
  lemma {:induction false} ExpireDueMarks(s: State, now: nat)
    requires Inv(s)
    ensures Inv(ExpireDue(s, now)) && Marks(s, ExpireDue(s, now), now)
    decreases |s.timers|
  {
    hide Inv;
    hide Marks;
    if s.timers != [] && s.timers[0].deadline <= now {
      ExpireKeeps(s);
      ExpireDueMarks(Expire(s), now);
      ExpireThenMark(s, ExpireDue(Expire(s), now), now);
    } else {
      TimersSorted(s);
      NothingDue(s, now);
    }
  }

  lemma NothingDue(s: State, now: nat)
    requires Sorted(s.timers) && (s.timers == [] || s.timers[0].deadline > now)
    ensures Marks(s, s, now)
  {
    forall j: nat ensures !Due(s.timers, j, now) { }
    assert s.timers[0..] == s.timers;
  }

  lemma TimersSorted(s: State)
    requires Inv(s)
    ensures Sorted(s.timers)
  {
  }

  lemma ExpireThenMark(s: State, z: State, now: nat)
    requires s.timers != [] && s.timers[0].arg < |s.reqs| && s.timers[0].deadline <= now && Marks(Expire(s), z, now)
    ensures Marks(s, z, now)
  {
    hide Due;
    var y := Expire(s);
    forall j: nat { DueCons(s.timers, j, now); }
    assert z.timers == s.timers[|s.timers| - |z.timers|..];
    forall k | 0 <= k < |s.timers| ensures k < |s.timers| - |z.timers| <==> s.timers[k].deadline <= now {
      if k > 0 { assert y.timers[k - 1] == s.timers[k]; }
    }
  }

  // The second loop: expired requests the engine has finished meanwhile.
  ghost function ReapFrom(s: State, i: nat, news: Completions): State
    decreases |s.late| - i
  {
    if i >= |s.late| || s.late[i] >= |s.reqs| then s else
      var u := Finish(s, First(news));
      if s.late[i] in u.records then ReapFrom(Reap(u, i), i, Rest(news)) else ReapFrom(u, i + 1, Rest(news))
  }

  lemma ReapRound(s: State, i: nat, news: Completions)
    requires i < |s.late| && s.late[i] < |s.reqs|
    ensures var u := Finish(s, First(news));
      && u.late == s.late && u.reqs == s.reqs
      && ReapFrom(s, i, news)
         == if s.late[i] in u.records then ReapFrom(Reap(u, i), i, Rest(news)) else ReapFrom(u, i + 1, Rest(news))
  {
    hide Reap;
  }

  lemma ReapEnds(s: State, i: nat, news: Completions)
    requires i >= |s.late|
    ensures ReapFrom(s, i, news) == s
  {
  }

  // Exactly expired objects move, all that had a record before, only such that have one now, and nothing is handed out.
  ghost predicate Reaps(s: State, z: State, done: set<nat>) {
    && (forall r: nat :: r in z.late ==> r in s.late && r !in done)
    && (forall r: nat :: r in s.late ==> r in z.late || (r in z.cached && r in z.records))
    && (forall r: nat :: r in z.cached ==> r in s.cached || (r in s.late && r in z.records))
    && (forall r: nat :: r in s.cached ==> r in z.cached)
    && (forall r: nat :: r in s.records ==> r in z.records)
    && z.queue == s.queue && z.timers == s.timers && z.accepted == s.accepted && z.delivered == s.delivered
    && z.lapsed == s.lapsed
  }

  /** The second loop makes reusable exactly the expired objects whose record it finds: all those the engine had finished
   *  before, and if it finishes none meanwhile no others. */
  lemma ReapIsComplete(s: State, news: Completions)
    requires Inv(s)
    ensures var z := ReapFrom(s, 0, news);
      && Inv(z) && Reaps(s, z, s.records.Keys) && (news == [] ==> z.records == s.records)
  {
    hide Inv;
    hide Reaps;
    hide Core;
    InvIs(s);
    ReapFromKeeps(s, 0, news);
    forall k | 0 <= k < |s.late| && s.late[k] in s.records.Keys ensures s.late[k] in s.records { }
    ReapsFrom(s, 0, news, s.records.Keys);
    if news == [] { ReapsAlone(s, 0); }
  }

  lemma {:induction false} ReapFromKeeps(s: State, i: nat, news: Completions)
    requires Inv(s) && i <= |s.late|
    ensures Inv(ReapFrom(s, i, news))
    decreases |s.late| - i
  {
    hide Inv;
    hide Reap;
    hide Finish;
    hide ReapFrom;
    if i < |s.late| {
      LateInRange(s, i);
      ReapRound(s, i, news);
      var u := Finish(s, First(news));
      FinishKeeps(s, First(news));
      if s.late[i] in u.records {
        ReapKeeps(u, i);
        ReapLists(u, i);
        ReapFromKeeps(Reap(u, i), i, Rest(news));
      } else {
        ReapFromKeeps(u, i + 1, Rest(news));
      }
    } else {
      ReapEnds(s, i, news);
    }
  }

  lemma {:induction false} ReapsFrom(s: State, i: nat, news: Completions, done: set<nat>)
    requires Core(s) && i <= |s.late| && (forall k :: 0 <= k < i ==> s.late[k] !in done)
    requires done <= s.records.Keys
    ensures Core(ReapFrom(s, i, news)) && Reaps(s, ReapFrom(s, i, news), done)
    decreases |s.late| - i
  {
    hide Core;
    hide Reaps;
    hide Finish;
    hide Reap;
    hide ReapFrom;
    if i < |s.late| {
      LateOnce(s, i);
      ReapRound(s, i, news);
      var u := Finish(s, First(news));
      FinishCore(s, First(news));
      FinishFrame(s, First(news));
      if s.late[i] in u.records {
        ReapCore(u, i);
        ReapLists(u, i);
        ReapsFrom(Reap(u, i), i, Rest(news), done);
        ReapThenReaps(s, u, Reap(u, i), ReapFrom(Reap(u, i), i, Rest(news)), i, done);
      } else {
        ReapsFrom(u, i + 1, Rest(news), done);
        WaitThenReaps(s, u, ReapFrom(u, i + 1, Rest(news)), done);
      }
    } else {
      ReapEnds(s, i, news);
      NothingToReap(s, done);
    }
  }

  lemma NothingToReap(s: State, done: set<nat>)
    requires forall k :: 0 <= k < |s.late| ==> s.late[k] !in done
    ensures Reaps(s, s, done)
  {
  }

  lemma WaitThenReaps(s: State, u: State, z: State, done: set<nat>)
    requires Reaps(u, z, done) && (forall r :: r in s.records ==> r in u.records)
    requires u == s.(running := u.running, records := u.records, reported := u.reported)
    ensures Reaps(s, z, done)
  {
  }

  lemma ReapLists(s: State, i: nat)
    requires i < |s.late| && s.late[i] < |s.reqs|
    ensures Reap(s, i).late == Without(s.late, i) && Reap(s, i).records == s.records
  {
  }

  lemma ReapThenReaps(s: State, u: State, y: State, z: State, i: nat, done: set<nat>)
    requires i < |u.late| && u.late[i] < |u.reqs| && u.late[i] in u.records && y == Reap(u, i) && Reaps(y, z, done)
    requires forall r: nat :: r in y.late <==> r in u.late && r != u.late[i]
    requires u == s.(running := u.running, records := u.records, reported := u.reported)
    requires forall r :: r in s.records ==> r in u.records
    ensures Reaps(s, z, done)
  {
    assert forall r: nat :: r in y.cached <==> r in u.cached || r == u.late[i];
  }

  lemma LateInRange(s: State, i: nat)
    requires Inv(s) && i < |s.late|
    ensures s.late[i] < |s.reqs|
  {
    hide Inv;
    hide Core;
    InvIs(s);
    LateOnce(s, i);
  }

  lemma LateOnce(s: State, i: nat)
    requires Core(s) && i < |s.late|
    ensures s.late[i] < |s.reqs|
    ensures forall r: nat :: r in Without(s.late, i) <==> r in s.late && r != s.late[i]
    ensures forall k :: 0 <= k < i ==> Without(s.late, i)[k] == s.late[k]
  {
    hide EngineOk;
    hide TimersOk;
    OneList(s, s.late[i]);
    hide Partition;
    WithoutAt(s.late, i);
    hide Without;
    forall r: nat ensures r in Without(s.late, i) <==> r in s.late && r != s.late[i] { InWithoutOnce(s.late, i, r); }
  }

  lemma {:induction false} ReapsAlone(s: State, i: nat)
    ensures ReapFrom(s, i, []).records == s.records
    decreases |s.late| - i
  {
    if i < |s.late| && s.late[i] < |s.reqs| {
      var u := Finish(s, map[]);
      assert u.records == s.records;
      if s.late[i] in u.records { ReapsAlone(Reap(u, i), i); } else { ReapsAlone(u, i + 1); }
    }
  }

  // ----- delivery -----

  // One Poll.
  ghost function Polled(s: State, max: nat, news: Completions, now: nat, later: Completions): State {
    ReapFrom(ExpireDue(Scan(s, 0, max, news), now), 0, later)
  }

  ghost predicate AllReady(s: State) { forall k :: 0 <= k < |s.queue| ==> Ready(s, k) }

  ghost predicate AllHaveOutcomes(s: State) { forall k :: 0 <= k < |s.queue| ==> HasOutcome(s, s.queue[k]) }

  lemma AllReadyIff(s: State)
    ensures AllReady(s) <==> AllHaveOutcomes(s)
  {
    assert forall k :: 0 <= k < |s.queue| ==> (Ready(s, k) <==> HasOutcome(s, s.queue[k]));
  }

  // Results that are ready are handed out, as many as there is room for.
  lemma ReadyAreDelivered(s: State, max: nat, news: Completions)
    requires Inv(s) && AllReady(s) && |s.queue| <= max
    ensures Scan(s, 0, max, news).queue == []
  {
    hide Inv;
    hide Scan;
    hide Ready;
    var z := Scan(s, 0, max, news);
    ScanIsComplete(s, max, news);
    ScanReady(s, 0, max, news);
    AllReadyIff(s);
    AllReadyIff(z);
    hide AllReady;
    forall r | r in s.queue ensures r in ReadyObjects(s) {
      var k :| 0 <= k < |s.queue| && s.queue[k] == r;
      assert HasOutcome(s, s.queue[k]);
    }
    NoneLeft(s, z, max, ReadyObjects(s));
  }

  lemma NoneLeft(s: State, z: State, max: nat, ready: set<nat>)
    requires Scanned(s, z, max, ready) && |s.queue| <= max && AllHaveOutcomes(z)
    requires forall k :: 0 <= k < |z.queue| ==> z.queue[k] in ready
    ensures z.queue == []
  {
    HasFirst(z.queue);
  }

  // What is ready stays so, and nothing joins the queue or gets a timer.
  lemma {:induction false} ScanReady(s: State, i: nat, max: nat, news: Completions)
    requires AllReady(s)
    ensures var z := Scan(s, i, max, news); AllReady(z) && forall k :: 0 <= k < |z.queue| ==> z.queue[k] in s.queue
    decreases |s.queue| - i
  {
    hide Ready;
    hide Deliver;
    hide Finish;
    hide Scan;
    if i < |s.queue| && max > 0 {
      InRangeWhenReady(s, i);
      ScanRound(s, i, max, news);
      var u := Finish(s, First(news));
      FinishAllReady(s, First(news));
      if s.reqs[s.queue[i]].expired {
        DeliverAllReady(s, i);
        ScanReady(Deliver(s, i), i, max - 1, news);
      } else {
        DeliverAllReady(u, i);
        RecordWhenReady(s, i, First(news));
        ScanReady(Deliver(u, i), i, max - 1, Rest(news));
      }
    } else {
      ScanEnds(s, i, max, news);
    }
  }

  lemma InRangeWhenReady(s: State, i: nat)
    requires i < |s.queue| && Ready(s, i)
    ensures s.queue[i] < |s.reqs|
  {
  }

  lemma RecordWhenReady(s: State, i: nat, done: map<nat, int>)
    requires i < |s.queue| && Ready(s, i) && s.queue[i] < |s.reqs| && !s.reqs[s.queue[i]].expired
    ensures s.queue[i] in Finish(s, done).records
  {
  }

  lemma FinishAllReady(s: State, done: map<nat, int>)
    requires AllReady(s)
    ensures AllReady(Finish(s, done)) && Finish(s, done).queue == s.queue
  {
    var u := Finish(s, done);
    forall k | 0 <= k < |u.queue| ensures Ready(u, k) { assert Ready(s, k); }
  }

  lemma DeliverAllReady(s: State, i: nat)
    requires i < |s.queue| && AllReady(s)
    ensures var z := Deliver(s, i);
      AllReady(z) && |z.queue| == |s.queue| - 1 && forall k :: 0 <= k < |z.queue| ==> z.queue[k] in s.queue
  {
    hide Disarm;
    var z := Deliver(s, i);
    WithoutAt(s.queue, i);
    forall k | 0 <= k < |z.queue| ensures Ready(z, k) && z.queue[k] in s.queue {
      assert Ready(s, if k < i then k else k + 1);
    }
  }

  // With nothing completed meanwhile, a request that is not ready stays queued.
  lemma {:induction false} ScanLeaves(s: State, i: nat, max: nat, q: nat)
    requires q in s.queue && q < |s.reqs| && !s.reqs[q].expired && q !in s.records
    ensures q in Scan(s, i, max, []).queue
    decreases |s.queue| - i
  {
    hide Scan;
    hide Deliver;
    if i < |s.queue| && max > 0 && s.queue[i] < |s.reqs| {
      ScanRound(s, i, max, []);
      var u := Finish(s, map[]);
      assert u.records == s.records;
      if Ready(s, i) {
        DeliverOther(s, i, q);
        DeliverOther(u, i, q);
        ScanLeaves(Deliver(s, i), i, max - 1, q);
        ScanLeaves(Deliver(u, i), i, max - 1, q);
      } else {
        ScanLeaves(u, i + 1, max, q);
      }
    } else {
      ScanEnds(s, i, max, []);
    }
  }

  lemma DeliverOther(s: State, i: nat, q: nat)
    requires i < |s.queue| && Ready(s, i) && q in s.queue && q < |s.reqs| && !s.reqs[q].expired && q !in s.records
    ensures var z := Deliver(s, i);
      && q in z.queue && q < |z.reqs| && !z.reqs[q].expired && q !in z.records && |z.queue| == |s.queue| - 1
  {
    hide Disarm;
    var z := Deliver(s, i);
    WithoutAt(s.queue, i);
    var k :| 0 <= k < |s.queue| && s.queue[k] == q;
    assert z.queue[if k < i then k else k - 1] == q;
  }

  /** With nothing completed meanwhile, the first loop empties the queue exactly when there is room for all and every
   *  queued request has expired or has its record. */
  lemma ScanEmptiesIff(s: State, max: nat)
    requires Inv(s)
    ensures Scan(s, 0, max, []).queue == [] <==> |s.queue| <= max && AllHaveOutcomes(s)
  {
    AllReadyIff(s);
    hide Inv;
    hide Scan;
    if |s.queue| <= max && AllReady(s) {
      ReadyAreDelivered(s, max, []);
    } else {
      ScanIsComplete(s, max, []);
      if k :| 0 <= k < |s.queue| && !Ready(s, k) {
        QueuedInRange(s, k);
        ScanLeaves(s, 0, max, s.queue[k]);
      }
    }
  }

  // No timer is set meanwhile.
  lemma {:induction false} ScanTimers(s: State, i: nat, max: nat, news: Completions, t: Timer)
    ensures var z := Scan(s, i, max, news);
      (t in z.timers ==> t in s.timers) && |z.queue| <= |s.queue| && z.lapsed == s.lapsed
    decreases |s.queue| - i
  {
    hide Deliver;
    hide Scan;
    if i < |s.queue| && max > 0 && s.queue[i] < |s.reqs| {
      ScanRound(s, i, max, news);
      var u := Finish(s, First(news));
      if s.reqs[s.queue[i]].expired {
        DeliverDisarms(s, i, t);
        ScanTimers(Deliver(s, i), i, max - 1, news, t);
      } else if s.queue[i] in u.records {
        DeliverDisarms(u, i, t);
        ScanTimers(Deliver(u, i), i, max - 1, Rest(news), t);
      } else if !s.ordered {
        ScanTimers(u, i + 1, max, Rest(news), t);
      }
    } else {
      ScanEnds(s, i, max, news);
    }
  }

  lemma DeliverDisarms(s: State, i: nat, t: Timer)
    requires i < |s.queue| && Ready(s, i)
    ensures var z := Deliver(s, i);
      (t in z.timers ==> t in s.timers) && |z.queue| == |s.queue| - 1 && z.lapsed == s.lapsed
  {
    DisarmIn(s.timers, s.queue[i], t);
  }

  // After a poll at or after every deadline, whatever is still queued has expired.
  lemma PollMarksAll(s: State, max: nat, news: Completions, now: nat, later: Completions)
    requires Inv(s) && forall t :: t in s.timers ==> t.deadline <= now
    ensures var z := Polled(s, max, news, now, later);
      && Inv(z) && AllReady(z) && AllHaveOutcomes(z) && z.timers == [] && |z.queue| <= |s.queue|
  {
    hide Inv;
    hide Scan;
    hide ExpireDue;
    hide ReapFrom;
    var a := Scan(s, 0, max, news);
    var b := ExpireDue(a, now);
    ScanIsComplete(s, max, news);
    forall t ensures t in a.timers ==> t in s.timers { ScanTimers(s, 0, max, news, t); }
    ScanTimers(s, 0, max, news, Timer(0, 0));
    ExpireDueMarks(a, now);
    ReapIsComplete(b, later);
    MarkedAll(a, b, now);
    NoTimerIsReady(Polled(s, max, news, now, later));
    AllReadyIff(Polled(s, max, news, now, later));
  }

  lemma MarkedAll(a: State, b: State, now: nat)
    requires Marks(a, b, now) && forall t :: t in a.timers ==> t.deadline <= now
    ensures b.timers == [] && b.queue == a.queue
  {
    var n := |a.timers|;
    assert n > 0 ==> a.timers[n - 1] in a.timers;
  }

  lemma NoTimerIsReady(s: State)
    requires Inv(s) && s.timers == []
    ensures AllReady(s)
  {
    hide Partition;
    hide EngineOk;
    hide ResultsOk;
    hide OrderOk;
    forall k | 0 <= k < |s.queue| ensures Ready(s, k) {
      assert QueuedOk(s, k) && s.queue[k] in s.queue && !Armed(s.timers, s.queue[k]);
    }
  }

  /** Two polls, the first at or after every deadline and the second with room for what is queued, hand out a result for
   *  every submission accepted so far. */
  lemma TwoPollsDeliverAll(s: State, max: nat, news: Completions, now: nat, later: Completions,
                           room: nat, news2: Completions, now2: nat, later2: Completions)
    requires Inv(s) && (forall t :: t in s.timers ==> t.deadline <= now) && |s.queue| <= room
    ensures var z := Polled(Polled(s, max, news, now, later), room, news2, now2, later2);
      Inv(z) && z.queue == [] && z.timers == [] && forall n: nat :: n < |z.accepted| ==> HandedOut(z, n)
  {
    hide Inv;
    hide Scan;
    hide ExpireDue;
    hide ReapFrom;
    var y := Polled(s, max, news, now, later);
    PollMarksAll(s, max, news, now, later);
    PollMarksAll(y, room, news2, now2, later2);
    ReadyAreDelivered(y, room, news2);
    PollKeepsQueue(y, room, news2, now2, later2);
    var z := Polled(y, room, news2, now2, later2);
    forall n: nat | n < |z.accepted| ensures HandedOut(z, n) { NotQueuedIsHandedOut(z, n); }
  }

  lemma PollKeepsQueue(s: State, max: nat, news: Completions, now: nat, later: Completions)
    requires Inv(s)
    ensures Polled(s, max, news, now, later).queue == Scan(s, 0, max, news).queue
  {
    hide Inv;
    hide Scan;
    hide ExpireDue;
    hide ReapFrom;
    var a := Scan(s, 0, max, news);
    ScanIsComplete(s, max, news);
    ExpireDueMarks(a, now);
    ReapIsComplete(ExpireDue(a, now), later);
  }

  lemma NotQueuedIsHandedOut(s: State, n: nat)
    requires Inv(s) && s.queue == [] && n < |s.accepted|
    ensures HandedOut(s, n)
  {
    hide Partition;
    hide EngineOk;
    hide QueueOk;
    hide OrderOk;
    hide TimersOk;
    assert !InQueue(s, n);
  }

  // ----- closing -----

  // PollDiscardedResult takes the i-th queued request, whose record it found, out of the queue and drops the result.
  function Discard(s: State, i: nat): State
    requires i < |s.queue| && s.queue[i] < |s.reqs|
  {
    var r := s.queue[i];
    s.(queue := Without(s.queue, i), cached := s.cached + [r], timers := Disarm(s.timers, r),
       reqs := s.reqs[r := s.reqs[r].(completed := true)])
  }

  lemma DiscardKeeps(s: State, i: nat)
    requires Core(s) && i < |s.queue| && Ready(s, i) && !s.reqs[s.queue[i]].expired
    ensures Core(Discard(s, i))
  {
    hide Partition;
    hide EngineOk;
    hide TimersOk;
    hide Disarm;
    var z := Deliver(s, i);
    DeliverLists(s, i, z);
    DeliverEngine(s, i, z);
    DeliverTimers(s, i, z);
    assert Discard(s, i) == z.(delivered := s.delivered);
    DropLog(z, s.delivered);
  }

  lemma DropLog(s: State, log: seq<Delivery>)
    requires Core(s) && log <= s.delivered
    ensures Core(s.(delivered := log))
  {
    hide RunningOk;
    hide BusyOk;
    var z := s.(delivered := log);
    forall x: nat ensures Busy(z, x) <==> Busy(s, x) { }
    assert Places(z) == Places(s);
    DropRunning(s, z);
  }

  lemma DropRunning(s: State, z: State)
    requires RunningOk(s) && BusyOk(s) && z == s.(delivered := z.delivered)
    ensures RunningOk(z) && BusyOk(z)
  {
    forall x: nat ensures Busy(z, x) <==> Busy(s, x) { }
    hide Busy;
  }

  // The first loop of PollDiscardedResult; there is no outcome when it removes a timer that is not in the list any more.
  ghost function DiscardFrom(s: State, i: nat, news: Completions): Option<State>
    decreases |s.queue| - i
  {
    if i >= |s.queue| || s.queue[i] >= |s.reqs| then Some(s) else
      var u := Finish(s, First(news));
      if s.queue[i] !in u.records then DiscardFrom(u, i + 1, Rest(news))
      else if Armed(s.timers, s.queue[i]) then DiscardFrom(Discard(u, i), i, Rest(news))
      else None
  }

  lemma DiscardRound(s: State, i: nat, news: Completions)
    requires i < |s.queue| && s.queue[i] < |s.reqs|
    ensures var u := Finish(s, First(news));
      && u == s.(running := u.running, records := u.records, reported := u.reported)
      && (s.queue[i] !in u.records ==> DiscardFrom(s, i, news) == DiscardFrom(u, i + 1, Rest(news)))
      && (s.queue[i] in u.records && Armed(s.timers, s.queue[i]) ==>
           DiscardFrom(s, i, news) == DiscardFrom(Discard(u, i), i, Rest(news)))
      && (s.queue[i] in u.records && !Armed(s.timers, s.queue[i]) ==> DiscardFrom(s, i, news) == None)
  {
    hide Discard;
    hide Armed;
  }

  ghost predicate ExpiredAt(s: State, k: nat)
    requires k < |s.queue|
  {
    s.queue[k] < |s.reqs| && s.reqs[s.queue[k]].expired
  }

  // An expired request is met only if it has a record by then.
  ghost predicate NoStale(s: State, i: nat, news: Completions) {
    forall k :: i <= k < |s.queue| && ExpiredAt(s, k) ==> news == [] && s.queue[k] !in s.records
  }

  lemma QueuedCore(s: State, i: nat)
    requires Core(s) && i < |s.queue|
    ensures s.queue[i] < |s.reqs| && (Armed(s.timers, s.queue[i]) <==> !s.reqs[s.queue[i]].expired)
  {
    hide EngineOk;
    assert s.queue[i] in s.queue;
    OneList(s, s.queue[i]);
  }

  // What the first loop leaves.
  ghost predicate Discards(s: State, z: State) {
    && (forall r: nat :: r in z.queue ==> r in s.queue) && z.late == s.late && |z.reqs| == |s.reqs|
    && (forall r: nat :: r in s.queue ==> r in z.queue || r in z.records)
  }

  lemma {:induction false} DiscardSafe(s: State, i: nat, news: Completions)
    requires Core(s) && i <= |s.queue| && NoStale(s, i, news)
    ensures var d := DiscardFrom(s, i, news);
      && d.Some? && Core(d.value) && Discards(s, d.value) && (forall r :: r in s.records ==> r in d.value.records)
      && (news == [] ==> d.value.records == s.records)
    decreases |s.queue| - i
  {
    hide Core;
    hide Discard;
    hide DiscardFrom;
    hide Armed;
    if i < |s.queue| {
      QueuedCore(s, i);
      DiscardRound(s, i, news);
      var u := Finish(s, First(news));
      FinishCore(s, First(news));
      FinishFrame(s, First(news));
      assert news == [] ==> u.records == s.records;
      hide Finish;
      if s.queue[i] in u.records {
        assert !ExpiredAt(s, i) && Ready(u, i);
        DiscardKeeps(u, i);
        DiscardQueue(u, i);
        ShiftStale(u, i, Discard(u, i), Rest(news));
        DiscardSafe(Discard(u, i), i, Rest(news));
      } else {
        assert forall k :: 0 <= k < |u.queue| ==> (ExpiredAt(u, k) <==> ExpiredAt(s, k));
        DiscardSafe(u, i + 1, Rest(news));
      }
    } else {
      DiscardEnds(s, i, news);
    }
  }

  lemma DiscardEnds(s: State, i: nat, news: Completions)
    requires i >= |s.queue|
    ensures DiscardFrom(s, i, news) == Some(s)
  {
  }

  lemma DiscardQueue(s: State, i: nat)
    requires Core(s) && i < |s.queue| && s.queue[i] < |s.reqs|
    ensures var z := Discard(s, i);
      && z.late == s.late && z.records == s.records && |z.reqs| == |s.reqs| && |z.queue| == |s.queue| - 1
      && (forall r :: r in z.queue <==> r in s.queue && r != s.queue[i])
      && (forall k :: 0 <= k < |z.queue| ==> z.queue[k] == s.queue[if k < i then k else k + 1])
      && (forall r: nat :: r < |s.reqs| ==> z.reqs[r].expired == s.reqs[r].expired)
  {
    hide EngineOk;
    hide TimersOk;
    hide Disarm;
    assert s.queue[i] in s.queue;
    OneList(s, s.queue[i]);
    hide Partition;
    WithoutAt(s.queue, i);
    forall r ensures r in Discard(s, i).queue <==> r in s.queue && r != s.queue[i] { InWithoutOnce(s.queue, i, r); }
  }

  lemma ShiftStale(s: State, i: nat, z: State, news: Completions)
    requires i < |s.queue| && NoStale(s, i, news) && z.records == s.records && |z.reqs| == |s.reqs|
    requires |z.queue| == |s.queue| - 1
    requires forall k :: 0 <= k < |z.queue| ==> z.queue[k] == s.queue[if k < i then k else k + 1]
    requires forall r: nat :: r < |s.reqs| ==> z.reqs[r].expired == s.reqs[r].expired
    ensures NoStale(z, i, news)
  {
    forall k | i <= k < |z.queue| && ExpiredAt(z, k) ensures news == [] && z.queue[k] !in z.records {
      assert ExpiredAt(s, k + 1);
    }
  }

  // An expired request with a record is met, whatever happens before.
  lemma {:induction false} DiscardMeets(s: State, i: nat, news: Completions, k: nat)
    requires Core(s) && i <= k < |s.queue| && ExpiredAt(s, k) && s.queue[k] in Finish(s, First(news)).records
    ensures DiscardFrom(s, i, news) == None
    decreases |s.queue| - i
  {
    hide Core;
    hide Discard;
    hide DiscardFrom;
    hide Armed;
    hide Finish;
    QueuedCore(s, i);
    DiscardRound(s, i, news);
    var u := Finish(s, First(news));
    FinishCore(s, First(news));
    if s.queue[i] !in u.records {
      FinishFrame(u, First(Rest(news)));
      assert ExpiredAt(u, k);
      DiscardMeets(u, i + 1, Rest(news), k);
    } else if !s.reqs[s.queue[i]].expired {
      var z := Discard(u, i);
      DiscardKeeps(u, i);
      DiscardQueue(u, i);
      FinishFrame(z, First(Rest(news)));
      assert k != i && z.queue[k - 1] == u.queue[k];
      DiscardMeets(z, i, Rest(news), k - 1);
    }
  }

  /** With nothing completed meanwhile, every timer that closing removes is in the list if and only if no queued request
   *  that has a record has expired. */
  lemma DiscardIff(s: State)
    requires Inv(s)
    ensures DiscardFrom(s, 0, []).Some? <==> forall k :: 0 <= k < |s.queue| && ExpiredAt(s, k) ==> s.queue[k] !in s.records
  {
    hide Inv;
    hide Core;
    hide DiscardFrom;
    InvIs(s);
    if k :| 0 <= k < |s.queue| && ExpiredAt(s, k) && s.queue[k] in s.records {
      FinishFrame(s, map[]);
      DiscardMeets(s, 0, [], k);
    } else {
      DiscardSafe(s, 0, []);
    }
  }

  /** Whatever the engine completes meanwhile, if and only if no queued request has expired. */
  lemma DiscardAlwaysIff(s: State)
    requires Inv(s)
    ensures (forall news: Completions :: DiscardFrom(s, 0, news).Some?) <==> forall k :: 0 <= k < |s.queue| ==> !ExpiredAt(s, k)
  {
    hide Inv;
    hide Core;
    hide DiscardFrom;
    InvIs(s);
    if k :| 0 <= k < |s.queue| && ExpiredAt(s, k) {
      var news: Completions := [map[s.queue[k] := 0]];
      EngineMayFinish(s, k);
      DiscardMeets(s, 0, news, k);
    } else {
      forall news: Completions ensures DiscardFrom(s, 0, news).Some? { DiscardSafe(s, 0, news); }
    }
  }

  lemma EngineMayFinish(s: State, k: nat)
    requires Core(s) && k < |s.queue|
    ensures s.queue[k] in Finish(s, map[s.queue[k] := 0]).records
  {
    hide Partition;
    hide BusyOk;
    hide ReportsOk;
    hide TimersOk;
    assert Busy(s, s.queue[k]);
  }

  // A new channel, one request, its timer fires, and the engine completes it.
  ghost function Opened(): State {
    State([], [], seq(IO_DEPTH, i => i), seq(IO_DEPTH, _ => Req(0, 0, false, false)), [], true, map[], map[], {}, [], [],
          {})
  }

  lemma LateSteps(a: State, b: State, c: State)
    requires a == Submit(Opened(), 10, 5) && a.timers == [Timer(5, 0)] && b == Expire(a) && c == Finish(b, map[0 := 0])
    ensures Run([Opened(), a, b, c], [Accepted(10, 5), TimerFires(5), EngineCompletes(map[0 := 0])])
  {
    hide Finish;
  }

  /** It can happen: the request expires while it is queued, the engine completes it, and the channel is closed before the
   *  next poll.  Its timer has been released when closing removes it. */
  lemma StaleTimerIsReachable()
    ensures var a := Submit(Opened(), 10, 5);
      && a.timers == [Timer(5, 0)]
      && var c := Finish(Expire(a), map[0 := 0]);
      && Run([Opened(), a, Expire(a), c], [Accepted(10, 5), TimerFires(5), EngineCompletes(map[0 := 0])])
      && DiscardFrom(c, 0, []) == None
  {
    hide Run;
    hide DiscardFrom;
    var a := Submit(Opened(), 10, 5);
    assert a.timers == [Timer(5, 0)];
    var b := Expire(a);
    var c := Finish(b, map[0 := 0]);
    LateSteps(a, b, c);
    RunKeepsInv([Opened(), a, b, c], [Accepted(10, 5), TimerFires(5), EngineCompletes(map[0 := 0])], 3);
    assert c.queue == [0] && ExpiredAt(c, 0) && 0 in c.records;
    DiscardIff(c);
  }

  /** A channel that closes owns only objects the engine has finished, and no timer. */
  lemma ClosedIsIdle(s: State, r: nat)
    requires Core(s) && s.queue == [] && s.late == []
    ensures s.running == map[] && s.timers == [] && (r in s.cached <==> r < |s.reqs|)
  {
    hide BusyOk;
    hide ReportsOk;
    hide Places;
    forall x ensures !Busy(s, x) { }
    FirstArmed(s.timers);
    ClosedPlaces(s, r);
  }

  lemma ClosedPlaces(s: State, r: nat)
    requires Partition(s) && s.queue == [] && s.late == []
    ensures r in s.cached <==> r < |s.reqs|
  {
    InList(s.cached, r);
    assert Places(s)[r] == multiset(s.cached)[r];
  }

  /** With no queued request expired and nothing completed meanwhile, closing succeeds if and only if the engine works on
   *  nothing. */
  lemma CloseIff(s: State)
    requires Inv(s) && forall k :: 0 <= k < |s.queue| ==> !ExpiredAt(s, k)
    ensures var d := DiscardFrom(s, 0, []);
      && d.Some?
      && var z := ReapFrom(d.value, 0, []);
      (z.queue == [] && z.late == []) <==> s.running == map[]
  {
    hide Inv;
    hide Core;
    hide DiscardFrom;
    hide ReapFrom;
    InvIs(s);
    DiscardSafe(s, 0, []);
    var y := DiscardFrom(s, 0, []).value;
    ReapsFrom(y, 0, [], y.records.Keys);
    ReapsAlone(y, 0);
    var z := ReapFrom(y, 0, []);
    if s.running == map[] {
      forall r: nat | r in s.queue || r in s.late ensures r in s.records { IdleHasRecord(s, r); }
      DiscardAlone(s, 0);
      HasFirst(y.queue);
      HasFirst(z.late);
    } else if z.queue == [] && z.late == [] {
      var r :| r in s.running;
      RunningHasNone(s, r);
    }
  }

  lemma IdleHasRecord(s: State, r: nat)
    requires Core(s) && Busy(s, r) && r !in s.running
    ensures r in s.records
  {
    hide Partition;
    hide BusyOk;
    hide ReportsOk;
    hide TimersOk;
  }

  lemma RunningHasNone(s: State, r: nat)
    requires Core(s) && r in s.running
    ensures Busy(s, r) && r !in s.records
  {
    hide Partition;
    hide BusyOk;
    hide ReportsOk;
    hide TimersOk;
  }

  // What has a record is discarded.
  lemma {:induction false} DiscardAlone(s: State, i: nat)
    requires Core(s) && i <= |s.queue| && NoStale(s, i, []) && (forall k :: 0 <= k < i ==> s.queue[k] !in s.records)
    ensures var d := DiscardFrom(s, i, []); d.Some? && forall k :: 0 <= k < |d.value.queue| ==> d.value.queue[k] !in s.records
    decreases |s.queue| - i
  {
    hide Core;
    hide Discard;
    hide DiscardFrom;
    hide Armed;
    if i < |s.queue| {
      QueuedCore(s, i);
      DiscardRound(s, i, []);
      var u := Finish(s, map[]);
      FinishCore(s, map[]);
      assert u.records == s.records && forall k :: 0 <= k < |u.queue| ==> (ExpiredAt(u, k) <==> ExpiredAt(s, k));
      hide Finish;
      if s.queue[i] in u.records {
        assert !ExpiredAt(s, i) && Ready(u, i);
        DiscardKeeps(u, i);
        DiscardQueue(u, i);
        ShiftStale(u, i, Discard(u, i), []);
        DiscardAlone(Discard(u, i), i);
      } else {
        DiscardAlone(u, i + 1);
      }
    } else {
      DiscardEnds(s, i, []);
    }
  }

  // ----- the channel object -----

  datatype Code = Ok | ResourceBusy | EngineError

  datatype Logs = Logs(reported: set<(nat, int)>, accepted: seq<nat>, delivered: seq<Delivery>, lapsed: set<nat>)

  const IO_DEPTH: nat := 128

  class Channel {
    const timers: Manager
    const ordered: bool
    var queue: seq<nat>
    var late: seq<nat>
    var cached: seq<nat>
    var reqs: seq<Req>
    var timerCtx: seq<Ref>
    var count: nat                 // submissions accepted so far
    var running: map<nat, nat>     // of the engine
    var records: map<nat, int>     // of the engine
    ghost var g: Logs

    constructor (timeout: nat, inOrder: bool)
      ensures Valid() && Init(Abs()) && ordered == inOrder && |reqs| == IO_DEPTH && fresh(timers)
    {
      timers := new Manager(timeout);
      ordered := inOrder;
      queue, late, cached := [], [], seq(IO_DEPTH, i => i);
      reqs := seq(IO_DEPTH, _ => Req(0, 0, false, false));
      timerCtx := seq(IO_DEPTH, _ => 0);
      running, records := map[], map[];
      count, g := 0, Logs({}, [], [], {});
      new;
      InitInv(Abs());
    }

    ghost function Abs(): State
      reads this, timers
    {
      State(queue, late, cached, reqs, timers.Live(), ordered, running, records, g.reported, g.accepted, g.delivered,
            g.lapsed)
    }

    ghost predicate Valid()
      reads this, timers
    {
      && timers.Valid() && Inv(Abs()) && |timerCtx| == |reqs| && count == |g.accepted|
      && TimersKnown(timerCtx, timers.list, timers.Live())
    }

    // What is left of it when results are dropped.
    ghost predicate Sound()
      reads this, timers
    {
      timers.Valid() && Core(Abs()) && |timerCtx| == |reqs| && TimersKnown(timerCtx, timers.list, timers.Live())
    }

    /** `SubmitRequest`: engineOk is whether the engine takes the request. */
    method SubmitRequest(ctx: nat, now: nat, timerRef: Ref, engineOk: bool) returns (r: Code)
      requires Valid() && now >= timers.clock && timerRef != 0 && timerRef !in timers.ctxs
      modifies this, timers
      ensures Valid() && (r == ResourceBusy <==> old(cached) == [])
      ensures old(cached) != [] ==>
        && old(cached)[0] < |old(reqs)| && old(cached)[0] !in old(running) && (r == Ok <==> engineOk)
        && Abs() == (if engineOk then Submit(old(Abs()), ctx, now + timers.timeout) else Refuse(old(Abs()), ctx))
        && (engineOk ==>
             && queue == old(queue) + [old(cached)[0]] && cached == old(cached)[1..]
             && g.accepted == old(g.accepted) + [ctx] && timers.Live() == old(timers.Live()) + [Timer(now + timers.timeout, old(cached)[0])])
        && (!engineOk ==> queue == old(queue) && cached == old(cached)[1..] + [old(cached)[0]] && g == old(g))
      ensures old(cached) == [] ==> Abs() == old(Abs())
    {
      hide Manager.Live;
      hide Inv;
      hide TimersKnown;
      hide Submit;
      hide Refuse;
      if cached == [] { return ResourceBusy; }
      CachedInRange(Abs());
      if engineOk {
        Start(ctx, now, timerRef);
        return Ok;
      } else {
        PutBack(ctx);
        return EngineError;
      }
    }

    // The first cached object is built and given to the engine.
    method Start(ctx: nat, now: nat, timerRef: Ref)
      requires Valid() && cached != [] && cached[0] < |reqs|
      requires now >= timers.clock && timerRef != 0 && timerRef !in timers.ctxs
      modifies this, timers
      ensures Valid() && Abs() == Submit(old(Abs()), ctx, now + timers.timeout)
      ensures queue == old(queue) + [old(cached)[0]] && cached == old(cached)[1..] && g.accepted == old(g.accepted) + [ctx]
      ensures timers.Live() == old(timers.Live()) + [Timer(now + timers.timeout, old(cached)[0])]
    {
      hide Manager.Live;
      hide Manager.Valid;
      hide Inv;
      hide TimersKnown;
      ghost var s := Abs();
      DueLater(timers, now);
      SubmitKeeps(s, ctx, now + timers.timeout);
      var q := cached[0];
      KnownNew(timerCtx, timers.list, s, q, timerRef, now + timers.timeout);
      timers.AddTimer(q, now, timerRef);
      reqs, timerCtx := reqs[q := Req(count, ctx, false, false)], timerCtx[q := timerRef];
      records, running := records - {q}, running[q := count];
      cached, queue, count := cached[1..], queue + [q], count + 1;
      g := g.(accepted := g.accepted + [ctx]);
      assert Abs() == Submit(s, ctx, now + timers.timeout);
    }

    // The engine refuses it.
    method PutBack(ctx: nat)
      requires Valid() && cached != [] && cached[0] < |reqs|
      modifies this`cached, this`reqs, this`records
      ensures Valid() && Abs() == Refuse(old(Abs()), ctx) && cached == old(cached)[1..] + [old(cached)[0]]
    {
      hide Manager.Live;
      hide Manager.Valid;
      hide Inv;
      hide TimersKnown;
      RefuseKeeps(Abs(), ctx);
      var q := cached[0];
      reqs := reqs[q := Req(count, ctx, false, false)];
      records := records - {q};
      cached := cached[1..] + [q];
    }

    // The engine completes some of what it works on.
    method EngineRuns(done: map<nat, int>)
      requires Sound()
      modifies this`running, this`records, this`g
      ensures Sound() && (old(Valid()) ==> Valid()) && Abs() == Finish(old(Abs()), done) && g.delivered == old(g.delivered)
    {
      hide Manager.Live;
      hide Manager.Valid;
      hide Inv;
      hide Core;
      hide TimersKnown;
      FinishCore(Abs(), done);
      if Inv(Abs()) { FinishKeeps(Abs(), done); }
      ghost var s := Abs();
      g := g.(reported := g.reported + (set r | r in done && r in running :: (running[r], done[r])));
      records, running := records + (map r | r in done && r in running :: done[r]), running - done.Keys;
      assert Abs() == Finish(s, done);
    }

    // The i-th queued request leaves the queue with a result.
    method DeliverAt(i: nat) returns (d: Delivery)
      requires Valid() && i < |queue| && Ready(Abs(), i) && (ordered ==> i == 0)
      modifies this, timers
      ensures queue == Without(old(queue), i)
      ensures Valid() && Abs() == Deliver(old(Abs()), i) && timers.clock == old(timers.clock)
      ensures g.delivered == old(g.delivered) + [d] && g.lapsed == old(g.lapsed) && DeliveryOk(Abs(), d)
    {
      hide Manager.Live;
      hide Manager.Valid;
      hide Inv;
      hide TimersKnown;
      hide Disarm;
      hide Without;
      hide Core;
      ghost var s := Abs();
      DeliverKeeps(s, i);
      var r := queue[i];
      if reqs[r].expired {
        late, d := late + [r], Delivery(reqs[r].num, reqs[r].ctx, TimedOut);
      } else {
        InvIs(s);
        QueuedTimer(s, i);
        d := Delivery(reqs[r].num, reqs[r].ctx, Done(records[r]));
        Retire(r);
      }
      queue, g := Without(queue, i), Logs(g.reported, g.accepted, g.delivered + [d], g.lapsed);
      assert Abs() == Deliver(s, i);
      DeliveredOk(Abs(), |g.delivered| - 1);
    }

    // Its result is the n-th that is handed out.
    method HandOut(i: nat, out: array<Delivery>, n: nat, ghost before: seq<Delivery>)
      requires Valid() && i < |queue| && Ready(Abs(), i) && (ordered ==> i == 0)
      requires n < out.Length && g.delivered == before + out[..n]
      modifies this, timers, out
      ensures queue == Without(old(queue), i)
      ensures Valid() && Abs() == Deliver(old(Abs()), i) && timers.clock == old(timers.clock)
      ensures g.delivered == before + out[..n + 1]
    {
      hide Manager.Live;
      hide Manager.Valid;
      hide Inv;
      hide TimersKnown;
      hide Deliver;
      hide DeliveryOk;
      hide Without;
      var d := DeliverAt(i);
      out[n] := d;
      assert out[..n + 1] == out[..n] + [d];
    }

    // A request whose record was found: its timer is removed, and its object can be used again.
    method Retire(r: nat)
      requires timers.Valid() && r < |reqs| == |timerCtx| && TimersKnown(timerCtx, timers.list, timers.Live())
      requires Armed(timers.Live(), r) && DistinctArgs(timers.Live())
      modifies this`reqs, this`cached, timers
      ensures timers.Valid() && timers.clock == old(timers.clock) && timers.Live() == Disarm(old(timers.Live()), r)
      ensures TimersKnown(timerCtx, timers.list, timers.Live())
      ensures reqs == old(reqs)[r := old(reqs)[r].(completed := true)] && cached == old(cached) + [r]
    {
      hide Manager.Live;
      hide Manager.Valid;
      hide Disarm;
      hide Without;
      ghost var ts, list := timers.Live(), timers.list;
      ghost var j := TimerIndex(ts, r);
      DisarmIsWithout(ts, r, j);
      KnownWithout(timerCtx, list, ts, j);
      assert timerCtx[r] == list[j];
      hide TimersKnown;
      reqs := reqs[r := reqs[r].(completed := true)];
      timers.RemoveTimer(timerCtx[r], j);
      cached := cached + [r];
    }

    // The first loop of `Poll`; before each check the engine may complete some more.
    method PollQueue(news: Completions, out: array<Delivery>, max: nat) returns (n: nat)
      requires Valid() && out.Length >= max
      modifies this, timers, out
      ensures Valid() && n <= max && timers.clock == old(timers.clock)
      ensures Abs() == Scan(old(Abs()), 0, max, news) && Scanned(old(Abs()), Abs(), max, old(ReadyObjects(Abs())))
      ensures g.delivered == old(g.delivered) + out[..n] && g.lapsed == old(g.lapsed)
    {
      hide Manager.Live;
      hide Manager.Valid;
      hide Inv;
      hide TimersKnown;
      hide Deliver;
      hide Finish;
      hide Scanned;
      hide ReadyObjects;
      hide Scan;
      hide Core;
      hide First;
      hide Rest;
      hide DeliveryOk;
      ghost var s := Abs();
      ScanTimers(s, 0, max, news, Timer(0, 0));
      n := 0;
      var i, rest := 0, news;
      while i < |queue| && n < max
        invariant Valid() && timers.clock == old(timers.clock) && n <= max && i <= |queue| && (ordered ==> i == 0)
        invariant Scan(Abs(), i, max - n, rest) == Scan(s, 0, max, news)
        invariant g.delivered == old(g.delivered) + out[..n]
        decreases |queue| - i
      {
        QueuedInRange(Abs(), i);
        ScanRound(Abs(), i, max - n, rest);
        InvIs(Abs());
        var r := queue[i];
        if reqs[r].expired {
          HandOut(i, out, n, old(g.delivered));
          n := n + 1;
          continue;
        }
        EngineRuns(First(rest));
        rest := Rest(rest);
        if r in records {
          HandOut(i, out, n, old(g.delivered));
          n := n + 1;
        } else if ordered {
          assert Abs() == Scan(s, 0, max, news);
          ScanIsComplete(s, max, news);
          return;
        } else {
          i := i + 1;
        }
      }
      ScanIsComplete(s, max, news);
      ScanEnds(Abs(), i, max - n, rest);
    }

    /** The timers that are due mark their requests. */
    method HandleTimeouts(now: nat)
      requires Valid() && now >= timers.clock
      modifies this`reqs, this`g, timers
      ensures Valid() && timers.clock == now && g.delivered == old(g.delivered) && Abs() == ExpireDue(old(Abs()), now) && Marks(old(Abs()), Abs(), now)
    {
      hide Manager.Live;
      hide Manager.Valid;
      hide Inv;
      hide TimersKnown;
      hide Marks;
      ghost var s, list := Abs(), timers.list;
      ghost var a := s;
      ExpireDueMarks(s, now);
      var fired := timers.HandleTimeout(now);
      KnownAfter(timerCtx, list, s.timers, |fired|);
      for n := 0 to |fired|
        invariant timers.Valid() && timers.clock == now && Inv(a) && |timerCtx| == |reqs|
        invariant timers.Live() == s.timers[|fired|..] && timers.list == list[|fired|..]
        invariant a == Abs().(timers := s.timers[n..]) && ExpireDue(a, now) == ExpireDue(s, now)
        invariant g.delivered == old(g.delivered) && count == |g.accepted|
      {
        assert a.timers[0] == s.timers[n] && fired[n] == s.timers[n].arg;
        ExpireKeeps(a);
        g := g.(lapsed := g.lapsed + {reqs[fired[n]].num});
        reqs := reqs[fired[n] := reqs[fired[n]].(expired := true)];
        assert s.timers[n..][1..] == s.timers[n + 1..];
        a := Expire(a);
      }
      assert a == Abs();
    }

    // The second loop of `Poll`; before each check the engine may complete some more.
    method PollExpired(news: Completions)
      requires Sound()
      modifies this`late, this`cached, this`reqs, this`running, this`records, this`g
      ensures Sound() && (old(Valid()) ==> Valid()) && Abs() == ReapFrom(old(Abs()), 0, news) && g.delivered == old(g.delivered)
      ensures Reaps(old(Abs()), Abs(), old(records).Keys) && (news == [] ==> records == old(records))
    {
      hide Manager.Live;
      hide Manager.Valid;
      hide Inv;
      hide Core;
      hide TimersKnown;
      hide Finish;
      hide Reaps;
      hide Reap;
      hide ReapFrom;
      ghost var s := Abs();
      ReapsFrom(s, 0, news, records.Keys);
      if news == [] { ReapsAlone(s, 0); }
      var i, rest := 0, news;
      while i < |late|
        invariant Sound() && (old(Valid()) ==> Valid()) && i <= |late| && g.delivered == old(g.delivered)
        invariant ReapFrom(Abs(), i, rest) == ReapFrom(s, 0, news)
        decreases |late| - i
      {
        LateOnce(Abs(), i);
        ReapRound(Abs(), i, rest);
        EngineRuns(First(rest));
        rest := Rest(rest);
        if late[i] in records { ReapAt(i); } else { i := i + 1; }
      }
      ReapEnds(Abs(), i, rest);
    }

    // The i-th expired object has a record.
    method ReapAt(i: nat)
      requires Sound() && i < |late| && late[i] < |reqs| && late[i] in records
      modifies this`late, this`cached, this`reqs
      ensures Sound() && (old(Valid()) ==> Valid()) && |late| == |old(late)| - 1 && Abs() == Reap(old(Abs()), i)
    {
      hide Manager.Live;
      hide Manager.Valid;
      hide Inv;
      hide Core;
      hide TimersKnown;
      var r := late[i];
      ReapCore(Abs(), i);
      if Inv(Abs()) { ReapKeeps(Abs(), i); }
      cached, reqs, late := cached + [r], reqs[r := reqs[r].(completed := true)], Without(late, i);
    }

    // The first loop of `PollDiscardedResult`.
    method PollDiscarded(news: Completions)
      requires Sound() && forall k :: 0 <= k < |queue| ==> !ExpiredAt(Abs(), k)
      modifies this`queue, this`cached, this`reqs, this`running, this`records, this`g, timers
      ensures Sound() && DiscardFrom(old(Abs()), 0, news) == Some(Abs())
    {
      hide Manager.Live;
      hide Manager.Valid;
      hide Core;
      hide TimersKnown;
      hide Finish;
      hide Discard;
      hide DiscardFrom;
      hide ExpiredAt;
      ghost var s := Abs();
      var i, rest := 0, news;
      while i < |queue|
        invariant Sound() && i <= |queue| && DiscardFrom(Abs(), i, rest) == DiscardFrom(s, 0, news)
        invariant forall k :: 0 <= k < |queue| ==> !ExpiredAt(Abs(), k)
        decreases |queue| - i
      {
        QueuedCore(Abs(), i);
        DiscardRound(Abs(), i, rest);
        UnexpiredAt(Abs(), i);
        FinishUnexpired(Abs(), First(rest));
        EngineRuns(First(rest));
        rest := Rest(rest);
        if queue[i] in records { DiscardAt(i); } else { i := i + 1; }
      }
      DiscardEnds(Abs(), i, rest);
    }

    // The i-th queued request has a record and has not expired.
    method DiscardAt(i: nat)
      requires Sound() && i < |queue| && queue[i] < |reqs| && queue[i] in records
      requires forall k :: 0 <= k < |queue| ==> !ExpiredAt(Abs(), k)
      modifies this`queue, this`cached, this`reqs, timers
      ensures Sound() && |queue| == |old(queue)| - 1 && Abs() == Discard(old(Abs()), i)
      ensures forall k :: 0 <= k < |queue| ==> !ExpiredAt(Abs(), k)
    {
      hide Manager.Live;
      hide Manager.Valid;
      hide Core;
      hide TimersKnown;
      hide Disarm;
      hide Without;
      ghost var s := Abs();
      UnexpiredAt(s, i);
      DiscardKeeps(s, i);
      DiscardUnexpired(s, i);
      DiscardQueue(s, i);
      QueuedTimer(s, i);
      Retire(queue[i]);
      queue := Without(queue, i);
      assert Abs() == Discard(s, i);
    }

    /** `Close`: what the engine has finished is discarded; it succeeds when nothing else is queued or expired.  The source
     *  removes the timer of every discarded request, so none of the queued ones may have expired. */
    method Close(news: Completions, later: Completions) returns (r: Code)
      requires Valid() && forall k :: 0 <= k < |queue| ==> !ExpiredAt(Abs(), k)
      modifies this, timers
      ensures Sound() && (r == Ok <==> queue == [] && late == []) && (r == ResourceBusy <==> r != Ok)
      ensures DiscardFrom(old(Abs()), 0, news).Some? && Abs() == ReapFrom(DiscardFrom(old(Abs()), 0, news).value, 0, later)
      ensures r == Ok ==> running == map[] && timers.Live() == [] && forall q: nat :: q < |reqs| ==> q in cached
      ensures news == later == [] ==> (r == Ok <==> old(running) == map[])
    {
      hide Manager.Live;
      hide Manager.Valid;
      hide Inv;
      hide Core;
      hide TimersKnown;
      hide DiscardFrom;
      hide ReapFrom;
      hide Reaps;
      ghost var s := Abs();
      InvIs(s);
      CloseIff(s);
      PollDiscarded(news);
      PollExpired(later);
      if queue != [] || late != [] { return ResourceBusy; }
      ClosedIsIdle(Abs(), 0);
      forall q: nat | q < |reqs| ensures q in cached { ClosedIsIdle(Abs(), q); }
      return Ok;
    }

    /** `Poll`: results are handed out, then due timers fire, then expired objects the engine has finished are reclaimed. */
    method Poll(news: Completions, now: nat, later: Completions, out: array<Delivery>, max: nat) returns (n: nat)
      requires Valid() && now >= timers.clock && out.Length >= max
      modifies this, timers, out
      ensures Valid() && n <= max && timers.clock == now
      ensures Abs() == Polled(old(Abs()), max, news, now, later) && g.delivered == old(g.delivered) + out[..n]
      ensures forall k :: 0 <= k < n ==> DeliveryOk(Abs(), out[k]) && (out[k].status == TimedOut <==> out[k].num in old(g.lapsed))
      ensures now >= old(timers.clock) + timers.timeout ==> AllHaveOutcomes(Abs()) && timers.Live() == []
      ensures old(AllHaveOutcomes(Abs())) && |old(queue)| <= max ==> queue == []
    {
      hide Manager.Live;
      hide Manager.Valid;
      hide Inv;
      hide TimersKnown;
      hide Scan;
      hide ExpireDue;
      hide ReapFrom;
      hide Scanned;
      hide ReadyObjects;
      hide Marks;
      hide Reaps;
      hide Core;
      hide AllReady;
      hide AllHaveOutcomes;
      ghost var s := Abs();
      AllReadyIff(s);
      DueLater(timers, timers.clock);
      if now >= timers.clock + timers.timeout { PollMarksAll(s, max, news, now, later); }
      if AllReady(s) && |queue| <= max { ReadyAreDelivered(s, max, news); }
      PollKeepsQueue(s, max, news, now, later);
      hide DeliveryOk;
      n := PollQueue(news, out, max);
      DeliveredSince(s, Abs(), out[..n]);
      TimedOutIff(Abs(), out[..n]);
      HandleTimeouts(now);
      InvIs(Abs());
      PollExpired(later);
      DeliveredSince(s, Abs(), out[..n]);
    }
  }

  lemma FinishFrame(s: State, done: map<nat, int>)
    ensures var u := Finish(s, done);
      && u.queue == s.queue && u.late == s.late && u.reqs == s.reqs && u.ordered == s.ordered
      && u.accepted == s.accepted && u.delivered == s.delivered && u.timers == s.timers && u.cached == s.cached
      && (forall r :: r in s.records ==> r in u.records) && u == s.(running := u.running, records := u.records, reported := u.reported)
  {
  }

  // What was handed out in between.
  lemma DeliveredSince(s: State, z: State, out: seq<Delivery>)
    requires Inv(z) && z.delivered == s.delivered + out
    ensures forall k :: 0 <= k < |out| ==> DeliveryOk(z, out[k])
  {
    hide Inv;
    hide DeliveryOk;
    forall k | 0 <= k < |out| ensures DeliveryOk(z, out[k]) { DeliveredOk(z, |s.delivered| + k); }
  }

  lemma TimedOutIff(s: State, out: seq<Delivery>)
    requires forall k :: 0 <= k < |out| ==> DeliveryOk(s, out[k])
    ensures forall k :: 0 <= k < |out| ==> (out[k].status == TimedOut <==> out[k].num in s.lapsed)
  {
  }

  lemma CachedInRange(s: State)
    requires Inv(s) && s.cached != []
    ensures s.cached[0] < |s.reqs| && s.cached[0] !in s.running
  {
    OneList(s, s.cached[0]);
  }

  lemma QueuedTimer(s: State, i: nat)
    requires Core(s) && i < |s.queue| && s.queue[i] < |s.reqs| && !s.reqs[s.queue[i]].expired
    ensures Armed(s.timers, s.queue[i]) && DistinctArgs(s.timers)
  {
    hide Partition;
    hide EngineOk;
    assert s.queue[i] in s.queue;
  }

  lemma UnexpiredAt(s: State, i: nat)
    requires i < |s.queue| && s.queue[i] < |s.reqs| && !ExpiredAt(s, i)
    ensures !s.reqs[s.queue[i]].expired
  {
  }

  lemma FinishUnexpired(s: State, done: map<nat, int>)
    requires forall k :: 0 <= k < |s.queue| ==> !ExpiredAt(s, k)
    ensures var u := Finish(s, done); u.queue == s.queue && forall k :: 0 <= k < |u.queue| ==> !ExpiredAt(u, k)
  {
    forall k | 0 <= k < |s.queue| ensures !ExpiredAt(Finish(s, done), k) { assert !ExpiredAt(s, k); }
  }

  lemma DiscardUnexpired(s: State, i: nat)
    requires Core(s) && i < |s.queue| && s.queue[i] < |s.reqs| && forall k :: 0 <= k < |s.queue| ==> !ExpiredAt(s, k)
    ensures var z := Discard(s, i); forall k :: 0 <= k < |z.queue| ==> !ExpiredAt(z, k)
  {
    hide Core;
    hide Discard;
    DiscardQueue(s, i);
    var z := Discard(s, i);
    forall k | 0 <= k < |z.queue| ensures !ExpiredAt(z, k) { assert !ExpiredAt(s, if k < i then k else k + 1); }
  }

  lemma KnownNew(ctxs: seq<Ref>, list: seq<Ref>, s: State, q: nat, r: Ref, deadline: nat)
    requires Inv(s) && s.cached != [] && q == s.cached[0] < |ctxs| && TimersKnown(ctxs, list, s.timers)
    ensures TimersKnown(ctxs[q := r], list + [r], s.timers + [Timer(deadline, q)])
  {
    OneList(s, q);
    forall j | 0 <= j < |s.timers| ensures s.timers[j].arg != q { assert !Armed(s.timers, q); }
  }
}
