/** The multi-producer single-consumer queue of `mpsc_queue.h`, one atomic memory access per step.
 *
 *  Producers allocate a node, exchange it into `head_`, link it behind the previous head and count it; the
 *  consumer loads, spins, unlinks, moves the element out, deletes.  Node addresses may be reused as soon
 *  as they are deleted.  Logs are kept beside the program's own state: `order`, the nodes in the order
 *  of the exchanges on `head_` after the first stub, `pushed`, the elements these were made for, `popped`, the
 *  elements in the order `Pop` returned them, and in a producer the element it pushes and the number of its
 *  exchange.
 */
module MpscQueue {
  import opened Common

  type Ref = nat
  type Thread = nat
  type Elem = nat  // the queue is used for addresses of blocks; elements are never inspected

  datatype Node = Node(elem: Option<Elem>, next: Option<Ref>)

  // Where a producer is inside `Push`; one that is not in the map is outside.
  datatype Producer =
    | Made(node: Ref, x: Elem)                      // node allocated for x, not yet exchanged
    | Exchanged(prev: Ref, node: Ref, ticket: nat)  // owes the link prev -> node
    | Linked                                        // owes the size count

  // Where the consumer is inside `Pop` or `Empty`.
  datatype Consumer =
    | Outside
    | PopSawNull                      // loaded a null next; about to load head_
    | Spinning                        // queue only looks empty
    | Have(next: Ref)
    | Cleared(next: Ref)              // tail's next reset to null
    | Moved(next: Ref, x: Elem)       // element moved out of the next node
    | Advanced(prev: Ref, x: Elem)    // tail_ switched; previous stub still to be deleted
    | Deleted(x: Elem)                // size_ still to be decremented
    | EmptySawNull                    // in Empty: loaded a null next; about to load head_

  datatype State = State(
    heap: map<Ref, Node>, head: Ref, tail: Ref, size: int,
    producers: map<Thread, Producer>, consumer: Consumer,
    order: seq<Ref>, pushed: seq<Elem>, popped: seq<Elem>)

  datatype Event =
    | New(p: Thread, node: Ref, x: Elem) | Exchange(p: Thread) | Link(p: Thread) | Count(p: Thread)
    | PopLoad | PopHead | PopSpin | PopClear | PopMove | PopAdvance | PopDelete | PopCount
    | EmptyLoad | EmptyHead(answer: bool)

  ghost predicate Init(s: State) {
    && s.heap == map[s.tail := Node(None, None)]
    && s.head == s.tail && s.size == 0 && s.producers == map[] && s.consumer == Outside
    && s.order == [s.tail] && s.pushed == [] && s.popped == []
  }

  ghost predicate ProducerStep(s: State, e: Event, t: State) {
    match e
    case New(p, node, x) =>
      && p !in s.producers && node !in s.heap
      && t == s.(heap := s.heap[node := Node(Some(x), None)], producers := s.producers[p := Made(node, x)])
    case Exchange(p) =>
      && p in s.producers && s.producers[p].Made?
      && var node := s.producers[p].node;
      && node in s.heap
      && t == s.(head := node, producers := s.producers[p := Exchanged(s.head, node, |s.pushed|)],
                 order := s.order + [node], pushed := s.pushed + [s.producers[p].x])
    case Link(p) =>
      && p in s.producers && s.producers[p].Exchanged?
      && var prev := s.producers[p].prev;
      && prev in s.heap
      && t == s.(heap := s.heap[prev := s.heap[prev].(next := Some(s.producers[p].node))],
                 producers := s.producers[p := Linked])
    case Count(p) =>
      && p in s.producers && s.producers[p] == Linked
      && t == s.(size := Wrap(s.size + 1), producers := s.producers - {p})
    case _ => false
  }

  ghost predicate ConsumerStep(s: State, e: Event, t: State) {
    match e
    case PopLoad =>
      && s.consumer == Outside && s.tail in s.heap
      && t == s.(consumer := match s.heap[s.tail].next case None => PopSawNull case Some(n) => Have(n))
    case PopHead =>   // returns false when head_ is tail_
      && s.consumer == PopSawNull
      && t == s.(consumer := if s.head == s.tail then Outside else Spinning)
    case PopSpin =>
      && s.consumer == Spinning && s.tail in s.heap
      && t == s.(consumer := match s.heap[s.tail].next case None => Spinning case Some(n) => Have(n))
    case PopClear =>
      && s.consumer.Have? && s.tail in s.heap
      && t == s.(heap := s.heap[s.tail := s.heap[s.tail].(next := None)], consumer := Cleared(s.consumer.next))
    case PopMove =>
      && s.consumer.Cleared? && s.consumer.next in s.heap && s.heap[s.consumer.next].elem.Some?
      && var n := s.consumer.next;
      && t == s.(heap := s.heap[n := s.heap[n].(elem := None)], consumer := Moved(n, s.heap[n].elem.value))
    case PopAdvance =>
      && s.consumer.Moved?
      && t == s.(tail := s.consumer.next, consumer := Advanced(s.tail, s.consumer.x))
    case PopDelete =>
      && s.consumer.Advanced? && s.consumer.prev in s.heap
      && t == s.(heap := s.heap - {s.consumer.prev}, consumer := Deleted(s.consumer.x))
    case PopCount =>  // returns true
      && s.consumer.Deleted?
      && t == s.(size := Wrap(s.size - 1), consumer := Outside, popped := s.popped + [s.consumer.x])
    case EmptyLoad => // returns false when next is not null
      && s.consumer == Outside && s.tail in s.heap
      && t == s.(consumer := if s.heap[s.tail].next == None then EmptySawNull else Outside)
    case EmptyHead(answer) =>
      && s.consumer == EmptySawNull && answer == (s.head == s.tail)
      && t == s.(consumer := Outside)
    case _ => false
  }

  ghost predicate Step(s: State, e: Event, t: State) {
    ProducerStep(s, e, t) || ConsumerStep(s, e, t)
  }

  // ----- the invariant -----

  // Taken out of the queue and not yet returned.
  function InHand(c: Consumer): seq<Elem> {
    if c.Advanced? || c.Deleted? then [c.x] else []
  }

  // The position of tail_ in the exchange order.
  function Gone(s: State): nat { |s.popped| + |InHand(s.consumer)| }

  // From tail_ on, the nodes in exchange order are allocated and distinct, the last one being head_.
  ghost predicate Window(s: State) {
    var g := Gone(s);
    && |s.order| == |s.pushed| + 1 && g < |s.order|
    && s.order[g] == s.tail && s.order[|s.pushed|] == s.head
    && (forall i :: g <= i < |s.order| ==> s.order[i] in s.heap)
    && (forall i, j :: g <= i < j < |s.order| ==> s.order[i] != s.order[j])
  }

  // A link leads to the next node in exchange order, or is missing.
  ghost predicate Links(s: State)
    requires Window(s)
  {
    && s.heap[s.head].next == None
    && forall i :: Gone(s) <= i < |s.pushed| ==>
         s.heap[s.order[i]].next == None || s.heap[s.order[i]].next == Some(s.order[i + 1])
  }

  predicate Unlinking(c: Consumer) { c.Cleared? || c.Moved? }

  predicate Owes(s: State, p: Thread) { p in s.producers && s.producers[p].Exchanged? }

  // What a producer owes is a missing link between live neighbours, and not one the consumer took away.
  ghost predicate OwesLink(s: State, p: Thread)
    requires Window(s) && Owes(s, p)
  {
    var k := s.producers[p].ticket;
    && Gone(s) <= k < |s.pushed|
    && s.producers[p].prev == s.order[k] && s.producers[p].node == s.order[k + 1]
    && s.heap[s.order[k]].next == None
    && !(Unlinking(s.consumer) && k == Gone(s))
  }

  ghost predicate Owers(s: State)
    requires Window(s)
  {
    forall p :: Owes(s, p) ==> OwesLink(s, p)
  }

  ghost predicate OneOwer(s: State) {
    forall p, q :: Owes(s, p) && Owes(s, q) && p != q ==> s.producers[p].ticket != s.producers[q].ticket
  }

  ghost predicate Owed(s: State, k: nat) { exists p :: Owes(s, p) && s.producers[p].ticket == k }

  // A missing link is owed by some producer, or the consumer has just taken it away.
  ghost predicate Awaited(s: State)
    requires Window(s)
  {
    forall k :: Gone(s) <= k < |s.pushed| && s.heap[s.order[k]].next == None ==>
      Owed(s, k) || (k == Gone(s) && Unlinking(s.consumer))
  }

  predicate Makes(s: State, p: Thread) { p in s.producers && s.producers[p].Made? }

  // Nodes not yet exchanged are private to their producer.
  ghost predicate Private(s: State) {
    && (forall p :: Makes(s, p) ==>
         var n := s.producers[p].node;
         && n in s.heap && s.heap[n].elem == Some(s.producers[p].x) && s.heap[n].next == None
         && !(s.consumer.Advanced? && s.consumer.prev == n)
         && (forall i :: Gone(s) <= i < |s.order| ==> s.order[i] != n))
    && (forall p, q :: Makes(s, p) && Makes(s, q) && p != q ==> s.producers[p].node != s.producers[q].node)
  }

  ghost predicate ConsumerOk(s: State)
    requires Window(s)
  {
    var g := Gone(s);
    match s.consumer
    case Have(n) => g < |s.pushed| && n == s.order[g + 1] && s.heap[s.tail].next == Some(n)
    case Cleared(n) => g < |s.pushed| && n == s.order[g + 1]
    case Moved(n, x) => g < |s.pushed| && n == s.order[g + 1] && x == s.pushed[g]
    case Spinning => g < |s.pushed|
    case Advanced(prev, _) => prev in s.heap && forall i :: g <= i < |s.order| ==> s.order[i] != prev
    case _ => true
  }

  // Everything before tail_ has been popped in order; the nodes after it hold what was pushed.
  ghost predicate Contents(s: State)
    requires Window(s)
  {
    var g := Gone(s);
    && s.popped + InHand(s.consumer) == s.pushed[..g]
    && (forall i :: g <= i < |s.pushed| && !(i == g && s.consumer.Moved?) ==>
         s.heap[s.order[i + 1]].elem == Some(s.pushed[i]))
  }

  ghost predicate InWindow(s: State, r: Ref) { exists i :: Gone(s) <= i < |s.order| && s.order[i] == r }

  ghost predicate IsMade(s: State, r: Ref) { exists p :: Makes(s, p) && s.producers[p].node == r }

  // Nothing leaks: every node is live, private to a producer, or about to be deleted.
  ghost predicate NoLeak(s: State) {
    forall r :: r in s.heap ==>
      InWindow(s, r) || IsMade(s, r) || (s.consumer.Advanced? && s.consumer.prev == r)
  }

  // The producers past their exchange that have not counted yet.
  ghost function Uncounted(s: State): set<Thread> {
    set p | p in s.producers && !s.producers[p].Made?
  }

  ghost predicate SizeOk(s: State) {
    s.size == Wrap(|s.pushed| - |Uncounted(s)| - |s.popped|)
  }

  ghost predicate Inv(s: State) {
    && Window(s) && Links(s) && Owers(s) && OneOwer(s) && Awaited(s) && Private(s)
    && ConsumerOk(s) && Contents(s) && NoLeak(s) && SizeOk(s)
  }

  lemma InitInv(s: State)
    requires Init(s)
    ensures Inv(s)
  {
    assert Uncounted(s) == {};
    assert s.order[0] == s.tail;
  }

  // ----- each part is kept by every step -----

  lemma WindowKept(s: State, e: Event, t: State)
    requires Window(s) && Private(s) && ConsumerOk(s) && Step(s, e, t)
    ensures Window(t)
  {
    hide ProducerStep;
    hide ConsumerStep;
    if ProducerStep(s, e, t) { WindowKeptByProducer(s, e, t); } else { WindowKeptByConsumer(s, e, t); }
  }

  lemma WindowKeptByProducer(s: State, e: Event, t: State)
    requires Window(s) && Private(s) && ProducerStep(s, e, t)
    ensures Window(t)
  {
    if e.Exchange? { assert Makes(s, e.p); }
  }

  lemma WindowKeptByConsumer(s: State, e: Event, t: State)
    requires Window(s) && ConsumerOk(s) && ConsumerStep(s, e, t)
    ensures Window(t)
  {
  }

  lemma LinksKeptByProducer(s: State, e: Event, t: State)
    requires Window(s) && Links(s) && Owers(s) && Private(s) && ProducerStep(s, e, t) && Window(t)
    ensures Links(t)
  {
    if e.Link? { assert Owes(s, e.p) && OwesLink(s, e.p); }
  }

  lemma LinksKeptByConsumer(s: State, e: Event, t: State)
    requires Window(s) && Links(s) && ConsumerOk(s) && ConsumerStep(s, e, t) && Window(t)
    ensures Links(t)
  {
  }

  lemma OwerKeptByProducer(s: State, e: Event, t: State, p: Thread)
    requires Window(s) && Owers(s) && OneOwer(s) && Private(s) && Links(s) && ConsumerOk(s)
    requires ProducerStep(s, e, t) && Window(t) && Owes(t, p)
    ensures OwesLink(t, p)
  {
    if e.Exchange? && e.p == p {
      OwerBegins(s, t, p);
    } else {
      assert Owes(s, p) && OwesLink(s, p);
      if e.Link? {
        assert Owes(s, e.p) && OwesLink(s, e.p);
        OwerByLink(s, e.p, t, p);
      } else {
        OwerByOther(s, e, t, p);
      }
    }
  }

  lemma OwerBegins(s: State, t: State, p: Thread)
    requires Window(s) && Private(s) && Links(s) && ConsumerOk(s) && ProducerStep(s, Exchange(p), t) && Window(t) && Owes(t, p)
    ensures OwesLink(t, p)
  {
  }

  lemma OwerByLink(s: State, q: Thread, t: State, p: Thread)
    requires Window(s) && OneOwer(s) && Owes(s, p) && OwesLink(s, p) && Owes(s, q) && OwesLink(s, q) && p != q
    requires ProducerStep(s, Link(q), t) && Window(t) && Owes(t, p)
    ensures OwesLink(t, p)
  {
    assert s.producers[p].ticket != s.producers[q].ticket;
  }

  lemma OwerByOther(s: State, e: Event, t: State, p: Thread)
    requires Window(s) && Owes(s, p) && OwesLink(s, p) && !e.Link? && !(e.Exchange? && e.p == p)
    requires ProducerStep(s, e, t) && Window(t) && Owes(t, p)
    ensures OwesLink(t, p)
  {
  }

  lemma OwerKeptByConsumer(s: State, e: Event, t: State, p: Thread)
    requires Window(s) && Owers(s) && ConsumerOk(s) && ConsumerStep(s, e, t) && Window(t) && Owes(t, p)
    ensures OwesLink(t, p)
  {
    assert Owes(s, p) && OwesLink(s, p);
  }

  lemma OwersKept(s: State, e: Event, t: State)
    requires Window(s) && Links(s) && Owers(s) && OneOwer(s) && Private(s) && ConsumerOk(s)
    requires Step(s, e, t) && Window(t)
    ensures Owers(t)
  {
    hide OwesLink;
    hide Owes;
    hide ProducerStep;
    hide ConsumerStep;
    hide Window;
    forall p | Owes(t, p) ensures OwesLink(t, p) {
      if ProducerStep(s, e, t) { OwerKeptByProducer(s, e, t, p); } else { OwerKeptByConsumer(s, e, t, p); }
    }
  }

  lemma OneOwerKept(s: State, e: Event, t: State)
    requires Window(s) && Owers(s) && OneOwer(s) && Step(s, e, t)
    ensures OneOwer(t)
  {
    hide ConsumerStep;
    if !ProducerStep(s, e, t) { SameProducers(s, e, t); }
    hide ProducerStep;
    if ProducerStep(s, e, t) { OneOwerByProducer(s, e, t); }
  }

  lemma SameProducers(s: State, e: Event, t: State)
    requires ConsumerStep(s, e, t)
    ensures t.producers == s.producers
  {
  }

  lemma OneOwerByProducer(s: State, e: Event, t: State)
    requires Window(s) && Owers(s) && OneOwer(s) && ProducerStep(s, e, t)
    ensures OneOwer(t)
  {
    forall p | Owes(t, p) && !(e.Exchange? && e.p == p)
      ensures Owes(s, p) && t.producers[p] == s.producers[p] && s.producers[p].ticket < |s.pushed|
    {
      assert Owes(s, p) && OwesLink(s, p);
    }
    hide Window;
    hide Owers;
  }

  lemma AwaitedAtByProducer(s: State, e: Event, t: State, k: nat)
    requires Window(s) && Awaited(s) && Owers(s) && Private(s) && ProducerStep(s, e, t) && Window(t)
    requires Gone(t) <= k < |t.pushed| && t.heap[t.order[k]].next == None
    ensures Owed(t, k) || (k == Gone(t) && Unlinking(t.consumer))
  {
    if k == |s.pushed| {
      assert Owes(t, e.p);
    } else if Owed(s, k) {
      var p :| Owes(s, p) && s.producers[p].ticket == k;
      assert OwesLink(s, p);
      assert Owes(t, p);
    }
  }

  lemma AwaitedAtByConsumer(s: State, e: Event, t: State, k: nat)
    requires Window(s) && Awaited(s) && ConsumerOk(s) && ConsumerStep(s, e, t) && Window(t)
    requires Gone(t) <= k < |t.pushed| && t.heap[t.order[k]].next == None
    ensures Owed(t, k) || (k == Gone(t) && Unlinking(t.consumer))
  {
    if Owed(s, k) {
      var p :| Owes(s, p) && s.producers[p].ticket == k;
      assert Owes(t, p);
    }
  }

  lemma AwaitedKept(s: State, e: Event, t: State)
    requires Window(s) && Owers(s) && Private(s) && Awaited(s) && ConsumerOk(s) && Step(s, e, t) && Window(t)
    ensures Awaited(t)
  {
    forall k | Gone(t) <= k < |t.pushed| && t.heap[t.order[k]].next == None
      ensures Owed(t, k) || (k == Gone(t) && Unlinking(t.consumer))
    {
      if ProducerStep(s, e, t) { AwaitedAtByProducer(s, e, t, k); } else { AwaitedAtByConsumer(s, e, t, k); }
    }
  }

  lemma PrivateKeptByProducer(s: State, e: Event, t: State)
    requires Window(s) && Owers(s) && Private(s) && ConsumerOk(s) && ProducerStep(s, e, t) && Window(t)
    ensures Private(t)
  {
    if e.Link? { assert Owes(s, e.p) && OwesLink(s, e.p); }
  }

  lemma PrivateKeptByConsumer(s: State, e: Event, t: State)
    requires Window(s) && Private(s) && ConsumerOk(s) && ConsumerStep(s, e, t) && Window(t)
    ensures Private(t)
  {
  }

  lemma ConsumerKept(s: State, e: Event, t: State)
    requires Window(s) && Links(s) && Owers(s) && Private(s) && ConsumerOk(s) && Contents(s) && Step(s, e, t) && Window(t)
    ensures ConsumerOk(t)
  {
    hide ProducerStep;
    hide ConsumerStep;
    if ProducerStep(s, e, t) { ConsumerKeptByProducer(s, e, t); } else { ConsumerKeptByConsumer(s, e, t); }
  }

  lemma ConsumerKeptByProducer(s: State, e: Event, t: State)
    requires Window(s) && Owers(s) && Private(s) && ConsumerOk(s) && ProducerStep(s, e, t) && Window(t)
    ensures ConsumerOk(t)
  {
    if e.Link? { assert Owes(s, e.p) && OwesLink(s, e.p); }
    if e.Exchange? { assert Makes(s, e.p); }
  }

  lemma ConsumerKeptByConsumer(s: State, e: Event, t: State)
    requires Window(s) && Links(s) && ConsumerOk(s) && Contents(s) && ConsumerStep(s, e, t) && Window(t)
    ensures ConsumerOk(t)
  {
  }

  lemma ContentsKeptByProducer(s: State, e: Event, t: State)
    requires Window(s) && Private(s) && ConsumerOk(s) && Contents(s) && ProducerStep(s, e, t) && Window(t)
    ensures Contents(t)
  {
  }

  lemma ContentsKeptByConsumer(s: State, e: Event, t: State)
    requires Window(s) && ConsumerOk(s) && Contents(s) && ConsumerStep(s, e, t) && Window(t)
    ensures Contents(t)
  {
  }

  lemma NoLeakKept(s: State, e: Event, t: State)
    requires Window(s) && ConsumerOk(s) && NoLeak(s) && Step(s, e, t) && Window(t)
    ensures NoLeak(t)
  {
    hide ProducerStep;
    hide ConsumerStep;
    hide ConsumerOk;
    hide Window;
    hide InWindow;
    hide IsMade;
    forall r | r in t.heap && !(t.consumer.Advanced? && t.consumer.prev == r)
      ensures InWindow(t, r) || IsMade(t, r)
    {
      if ProducerStep(s, e, t) { NodeKeptByProducer(s, e, t, r); } else { NodeKeptByConsumer(s, e, t, r); }
    }
  }

  lemma NodeKeptByProducer(s: State, e: Event, t: State, r: Ref)
    requires Window(s) && NoLeak(s) && ProducerStep(s, e, t)
    requires r in t.heap && !(t.consumer.Advanced? && t.consumer.prev == r)
    ensures InWindow(t, r) || IsMade(t, r)
  {
    if e.New? && r == e.node {
      assert Makes(t, e.p);
    } else if InWindow(s, r) {
      var i :| Gone(s) <= i < |s.order| && s.order[i] == r;
      assert t.order[i] == r;
    } else {
      assert r in s.heap && IsMade(s, r);
      var p :| Makes(s, p) && s.producers[p].node == r;
      if e.Exchange? && e.p == p {
        assert t.order[|s.order|] == r;
      } else {
        assert Makes(t, p);
      }
    }
  }

  lemma NodeKeptByConsumer(s: State, e: Event, t: State, r: Ref)
    requires Window(s) && ConsumerOk(s) && NoLeak(s) && ConsumerStep(s, e, t) && Window(t)
    requires r in t.heap && !(t.consumer.Advanced? && t.consumer.prev == r)
    ensures InWindow(t, r) || IsMade(t, r)
  {
    SameProducers(s, e, t);
    assert r in s.heap && t.order == s.order;
    if InWindow(s, r) {
      var i :| Gone(s) <= i < |s.order| && s.order[i] == r;
      assert t.order[i] == r;
    } else if IsMade(s, r) {
      var p :| Makes(s, p) && s.producers[p].node == r;
      assert Makes(t, p);
    }
  }

  lemma SizeKept(s: State, e: Event, t: State)
    requires SizeOk(s) && Step(s, e, t)
    ensures SizeOk(t)
  {
    hide Wrap;
    WrapStep(|s.pushed| - |Uncounted(s)| - |s.popped|);
    if ConsumerStep(s, e, t) {
      SameProducers(s, e, t);
      assert Uncounted(t) == Uncounted(s);
    } else {
      UncountedStep(s, e, t);
      hide Uncounted;
    }
  }

  lemma UncountedStep(s: State, e: Event, t: State)
    requires ProducerStep(s, e, t)
    ensures |Uncounted(t)| == |Uncounted(s)| + (if e.Exchange? then 1 else if e.Count? then -1 else 0)
  {
    if e.Exchange? {
      assert Uncounted(t) == Uncounted(s) + {e.p};
    } else if e.Count? {
      assert e.p in Uncounted(s) && Uncounted(t) == Uncounted(s) - {e.p};
    } else {
      assert Uncounted(t) == Uncounted(s);
    }
  }

  lemma StepKeepsInv(s: State, e: Event, t: State)
    requires Inv(s) && Step(s, e, t)
    ensures Inv(t)
  {
    hide Window;
    hide Links;
    hide Owers;
    hide OneOwer;
    hide Awaited;
    hide Private;
    hide ConsumerOk;
    hide Contents;
    hide NoLeak;
    hide SizeOk;
    hide ProducerStep;
    hide ConsumerStep;
    WindowKept(s, e, t);
    if ProducerStep(s, e, t) { LinksKeptByProducer(s, e, t); } else { LinksKeptByConsumer(s, e, t); }
    OwersKept(s, e, t);
    OneOwerKept(s, e, t);
    AwaitedKept(s, e, t);
    if ProducerStep(s, e, t) { PrivateKeptByProducer(s, e, t); } else { PrivateKeptByConsumer(s, e, t); }
    ConsumerKept(s, e, t);
    if ProducerStep(s, e, t) { ContentsKeptByProducer(s, e, t); } else { ContentsKeptByConsumer(s, e, t); }
    NoLeakKept(s, e, t);
    SizeKept(s, e, t);
  }

  // ----- runs -----

  ghost predicate Run(ss: seq<State>, es: seq<Event>) {
    && |ss| == |es| + 1 && Init(ss[0])
    && forall i :: 0 <= i < |es| ==> Step(ss[i], es[i], ss[i + 1])
  }

  lemma {:induction false} RunKeepsInv(ss: seq<State>, es: seq<Event>, i: nat)
    requires Run(ss, es) && i < |ss|
    ensures Inv(ss[i])
  {
    hide Inv;
    hide Step;
    if i == 0 {
      InitInv(ss[0]);
    } else {
      RunKeepsInv(ss, es, i - 1);
      StepKeepsInv(ss[i - 1], es[i - 1], ss[i]);
    }
  }

  ghost predicate Reachable(s: State) {
    exists ss: seq<State>, es: seq<Event> :: Run(ss, es) && s == ss[|ss| - 1]
  }

  lemma ReachableInv(s: State)
    requires Reachable(s)
    ensures Inv(s)
  {
    var ss: seq<State>, es: seq<Event> :| Run(ss, es) && s == ss[|ss| - 1];
    RunKeepsInv(ss, es, |ss| - 1);
  }

  /** First in, first out, with nothing lost, duplicated or invented: in every interleaving what `Pop` has
   *  returned is a prefix of what was exchanged, and the rest is what the linked nodes from tail_ hold. */
  lemma FirstInFirstOut(s: State)
    requires Reachable(s)
    ensures s.popped <= s.pushed
    ensures s.consumer == Outside ==>
      && |s.order| == |s.pushed| + 1 && s.order[|s.popped|] == s.tail
      && forall i :: |s.popped| <= i < |s.pushed| ==>
           s.order[i + 1] in s.heap && s.heap[s.order[i + 1]].elem == Some(s.pushed[i])
  {
    ReachableInv(s);
    assert s.popped <= s.popped + InHand(s.consumer);
  }

  // What the events of a run ask for: the element each thread was last given to push, and those exchanged, in order.
  function Given(es: seq<Event>): map<Thread, Elem> {
    if es == [] then map[] else
      var n := |es| - 1;
      if es[n].New? then Given(es[..n])[es[n].p := es[n].x] else Given(es[..n])
  }

  function Pushes(es: seq<Event>): seq<Elem> {
    if es == [] then [] else
      var n := |es| - 1;
      if es[n].Exchange? && es[n].p in Given(es[..n]) then Pushes(es[..n]) + [Given(es[..n])[es[n].p]] else Pushes(es[..n])
  }

  // How often `Pop` has returned an element.
  function Pops(es: seq<Event>): nat {
    if es == [] then 0 else
      var n := |es| - 1;
      Pops(es[..n]) + if es[n] == PopCount then 1 else 0
  }

  lemma {:induction false} LogsAreEvents(ss: seq<State>, es: seq<Event>, i: nat)
    requires Run(ss, es) && i < |ss|
    ensures ss[i].pushed == Pushes(es[..i]) && |ss[i].popped| == Pops(es[..i])
    ensures forall p :: Makes(ss[i], p) ==> p in Given(es[..i]) && Given(es[..i])[p] == ss[i].producers[p].x
  {
    if i > 0 {
      LogsAreEvents(ss, es, i - 1);
      assert es[..i][..i - 1] == es[..i - 1] && es[..i][i - 1] == es[i - 1];
      assert Step(ss[i - 1], es[i - 1], ss[i]);
      hide Run;
      OneMoreEvent(ss[i - 1], es[..i - 1], es[i - 1], ss[i], es[..i]);
    }
  }

  lemma OneMoreEvent(s: State, es: seq<Event>, e: Event, t: State, fs: seq<Event>)
    requires Step(s, e, t) && fs != [] && fs[..|fs| - 1] == es && fs[|fs| - 1] == e
    requires s.pushed == Pushes(es) && |s.popped| == Pops(es)
    requires forall p :: Makes(s, p) ==> p in Given(es) && Given(es)[p] == s.producers[p].x
    ensures t.pushed == Pushes(fs) && |t.popped| == Pops(fs)
    ensures forall p :: Makes(t, p) ==> p in Given(fs) && Given(fs)[p] == t.producers[p].x
  {
    if e.Exchange? { assert Makes(s, e.p); }
    forall p | Makes(t, p) && !(e.New? && e.p == p) ensures Makes(s, p) && s.producers[p] == t.producers[p] { }
  }

  /** In every run, read off its events alone: the k-th `Pop` that returns an element returns the one that was given to the
   *  `Push` which made the k-th exchange. */
  lemma PopsWhatWasPushed(ss: seq<State>, es: seq<Event>, i: nat, k: nat)
    requires Run(ss, es) && i < |ss| && k < Pops(es[..i])
    ensures |ss[i].popped| == Pops(es[..i]) <= |Pushes(es[..i])| && ss[i].popped[k] == Pushes(es[..i])[k]
  {
    hide Run;
    LogsAreEvents(ss, es, i);
    RunKeepsInv(ss, es, i);
    hide Inv;
    InvIsExact(ss[i]);
  }

  /** `Empty` answers true, and `Pop` gives up, exactly when all exchanged elements have been popped. */
  lemma EmptyIsExact(s: State, e: Event, t: State)
    requires Reachable(s) && Step(s, e, t)
    ensures e.EmptyHead? ==> (e.answer <==> s.popped == s.pushed)
    ensures e == EmptyLoad && t.consumer == Outside ==> s.popped != s.pushed
    ensures e == PopHead ==> (t.consumer == Outside <==> s.popped == s.pushed)
  {
    hide Inv;
    hide Reachable;
    ReachableInv(s);
    InvIsExact(s);
  }

  lemma InvIsExact(s: State)
    requires Inv(s)
    ensures s.popped <= s.pushed
    ensures s.consumer == PopSawNull || s.consumer == EmptySawNull ==>
      (s.head == s.tail <==> |s.popped| == |s.pushed|)
    ensures s.consumer == Outside && s.tail in s.heap && s.heap[s.tail].next != None ==> |s.popped| < |s.pushed|
  {
    assert s.popped <= s.popped + InHand(s.consumer);
    if Gone(s) < |s.pushed| {
      assert s.order[Gone(s)] != s.order[|s.pushed|];
    } else {
      assert s.pushed[..Gone(s)] == s.pushed;
    }
  }

  // `Empty` returns false; `Pop` returns false.
  predicate EmptySaysNo(e: Event, t: State) { (e == EmptyLoad && t.consumer == Outside) || e == EmptyHead(false) }

  predicate PopSaysNo(e: Event, t: State) { e == PopHead && t.consumer == Outside }

  lemma LogsGrow(s: State, e: Event, t: State)
    requires Step(s, e, t)
    ensures s.pushed <= t.pushed && (e != PopCount ==> t.popped == s.popped)
  {
  }

  /** A `Pop` begun after `Empty` returned false returns an element, the oldest one there is: between the two the
   *  consumer takes nothing else, so `DeferredDeallocate` may ignore what `Pop` returns. */
  lemma PopAfterEmpty(ss: seq<State>, es: seq<Event>, i: nat, j: nat)
    requires Run(ss, es) && i < j < |es| && EmptySaysNo(es[i], ss[i + 1])
    requires forall k :: i < k < j ==> es[k] != PopCount
    ensures !PopSaysNo(es[j], ss[j + 1])
    ensures es[j] == PopCount ==>
      && |ss[i].popped| < |ss[j].pushed|
      && ss[j + 1].popped == ss[i].popped + [ss[j].pushed[|ss[i].popped|]]
  {
    hide Inv;
    hide EmptySaysNo;
    NotEmptyUntil(ss, es, i, j);
    RunKeepsInv(ss, es, j);
    RunKeepsInv(ss, es, j + 1);
    InvIsExact(ss[j]);
    InvIsExact(ss[j + 1]);
    assert Step(ss[j], es[j], ss[j + 1]);
  }

  lemma {:induction false} NotEmptyUntil(ss: seq<State>, es: seq<Event>, i: nat, j: nat)
    requires Run(ss, es) && i < j < |ss| && EmptySaysNo(es[i], ss[i + 1])
    requires forall k :: i < k < j ==> es[k] != PopCount
    ensures ss[j].popped == ss[i].popped && |ss[j].popped| < |ss[j].pushed|
  {
    hide Inv;
    hide Init;
    if j == i + 1 {
      RunKeepsInv(ss, es, i);
      InvIsExact(ss[i]);
      assert Step(ss[i], es[i], ss[j]);
    } else {
      NotEmptyUntil(ss, es, i, j - 1);
      LogsGrow(ss[j - 1], es[j - 1], ss[j]);
    }
  }

  /** A node is deleted only when it is neither head_ nor tail_, no producer still owes it a link, none is about
   *  to publish it, and it is allocated; and every access of every thread is to an allocated node. */
  lemma DeleteIsSafe(s: State)
    requires Reachable(s)
    ensures s.consumer.Advanced? ==>
      && var d := s.consumer.prev;
      && d in s.heap && d != s.head && d != s.tail
      && forall p :: p in s.producers ==>
           && (s.producers[p].Exchanged? ==> s.producers[p].prev != d && s.producers[p].node != d)
           && (s.producers[p].Made? ==> s.producers[p].node != d)
    ensures s.tail in s.heap && s.head in s.heap
    ensures forall p :: Owes(s, p) ==> s.producers[p].prev in s.heap
    ensures forall p :: Makes(s, p) ==> s.producers[p].node in s.heap
    ensures s.consumer.Cleared? || s.consumer.Have? || s.consumer.Moved? ==> s.consumer.next in s.heap
  {
    ReachableInv(s);
    assert forall p :: Owes(s, p) ==> OwesLink(s, p);
    forall p | p in s.producers && s.producers[p].Exchanged? ensures OwesLink(s, p) {
      assert Owes(s, p);
    }
    forall p | p in s.producers && s.producers[p].Made? ensures Makes(s, p) { }
  }

  // What a thread does next.
  function NextOfProducer(p: Thread, o: Producer): Event {
    match o
    case Made(_, _) => Exchange(p)
    case Exchanged(_, _, _) => Link(p)
    case Linked => Count(p)
  }

  function NextOfConsumer(s: State): Event {
    match s.consumer
    case Outside => PopLoad
    case PopSawNull => PopHead
    case Spinning => PopSpin
    case Have(_) => PopClear
    case Cleared(_) => PopMove
    case Moved(_, _) => PopAdvance
    case Advanced(_, _) => PopDelete
    case Deleted(_) => PopCount
    case EmptySawNull => EmptyHead(s.head == s.tail)
  }

  ghost predicate Enabled(s: State, e: Event) { exists t :: Step(s, e, t) }

  /** No access is ever to a missing node or element: the next step of every thread can be taken. */
  lemma NeverStuck(s: State, p: Thread)
    requires Reachable(s)
    ensures p in s.producers ==> Enabled(s, NextOfProducer(p, s.producers[p]))
    ensures Enabled(s, NextOfConsumer(s))
  {
    ReachableInv(s);
    if p in s.producers { ProducerEnabled(s, p); }
    ConsumerEnabled(s);
  }

  lemma ProducerEnabled(s: State, p: Thread)
    requires Window(s) && Owers(s) && Private(s) && p in s.producers
    ensures Enabled(s, NextOfProducer(p, s.producers[p]))
  {
    match s.producers[p]
    case Made(node, x) =>
      assert Makes(s, p);
      var t := s.(head := node, producers := s.producers[p := Exchanged(s.head, node, |s.pushed|)],
                  order := s.order + [node], pushed := s.pushed + [x]);
      assert Step(s, Exchange(p), t);
    case Exchanged(prev, node, _) =>
      assert Owes(s, p) && OwesLink(s, p);
      var t := s.(heap := s.heap[prev := s.heap[prev].(next := Some(node))], producers := s.producers[p := Linked]);
      assert Step(s, Link(p), t);
    case Linked =>
      var t := s.(size := (s.size + 1) % TWO_64, producers := s.producers - {p});
      assert Step(s, Count(p), t);
  }

  lemma ConsumerEnabled(s: State)
    requires Window(s) && ConsumerOk(s) && Contents(s)
    ensures Enabled(s, NextOfConsumer(s))
  {
    match s.consumer
    case Outside =>
      assert Step(s, PopLoad, s.(consumer :=
        match s.heap[s.tail].next case None => PopSawNull case Some(n) => Have(n)));
    case PopSawNull => assert Step(s, PopHead, s.(consumer := if s.head == s.tail then Outside else Spinning));
    case Spinning =>
      assert Step(s, PopSpin, s.(consumer :=
        match s.heap[s.tail].next case None => Spinning case Some(n) => Have(n)));
    case Have(n) =>
      assert Step(s, PopClear, s.(heap := s.heap[s.tail := s.heap[s.tail].(next := None)], consumer := Cleared(n)));
    case Cleared(n) =>
      assert s.heap[s.order[Gone(s) + 1]].elem == Some(s.pushed[Gone(s)]);
      assert Step(s, PopMove, s.(heap := s.heap[n := s.heap[n].(elem := None)],
                                 consumer := Moved(n, s.heap[n].elem.value)));
    case Moved(n, x) => assert Step(s, PopAdvance, s.(tail := n, consumer := Advanced(s.tail, x)));
    case Advanced(prev, x) => assert Step(s, PopDelete, s.(heap := s.heap - {prev}, consumer := Deleted(x)));
    case Deleted(x) =>
      assert Step(s, PopCount, s.(size := (s.size - 1) % TWO_64, consumer := Outside, popped := s.popped + [x]));
    case EmptySawNull => assert Step(s, EmptyHead(s.head == s.tail), s.(consumer := Outside));
  }

  /** While the consumer spins on a null next, some producer owes exactly the link it waits for. */
  lemma SpinEnds(s: State)
    requires Reachable(s) && s.consumer == Spinning && s.tail in s.heap && s.heap[s.tail].next == None
    ensures exists p :: Owes(s, p) && s.producers[p].prev == s.tail
  {
    ReachableInv(s);
    assert Owed(s, Gone(s));
    var p :| Owes(s, p) && s.producers[p].ticket == Gone(s);
    assert OwesLink(s, p);
  }

  /** No node leaks: with every thread outside, what is allocated is exactly the stub and one node per element,
   *  and size_ is the number of elements. */
  lemma AtRest(s: State)
    requires Reachable(s) && s.consumer == Outside && s.producers == map[]
    ensures s.heap.Keys == set i | |s.popped| <= i < |s.order| :: s.order[i]
    ensures s.size == (|s.pushed| - |s.popped|) % TWO_64
    ensures forall i, j :: |s.popped| <= i && j == i + 1 && j < |s.order| ==>
      s.order[i] in s.heap && s.heap[s.order[i]].next == Some(s.order[j])
  {
    ReachableInv(s);
    assert Uncounted(s) == {};
    forall r | r in s.heap ensures InWindow(s, r) {
      assert !IsMade(s, r);
    }
    forall i | |s.popped| <= i < |s.pushed| ensures s.heap[s.order[i]].next == Some(s.order[i + 1]) {
      assert !Owed(s, i);
    }
  }
}
