/** The ring of requests in flight (`req_ring_queue.h`): results arrive in any order and are handed out in
 *  request order.  Request numbers grow without bound; a slot is a number modulo the size.
 */
module RingQueue {
  import opened Common

  function SlotOf(id: nat, n: nat): (i: nat)
    requires n > 0
    ensures i < n
  {
    id % n
  }

  function Advance(i: nat, n: nat): (j: nat)
    requires n > 0
    ensures j < n
  {
    (i + 1) % n
  }

  lemma NextSlot(h: nat, n: nat)
    requires n > 0
    ensures Advance(SlotOf(h, n), n) == SlotOf(h + 1, n)
  {
    var q, r := h / n, h % n;
    if r + 1 < n {
      NextInside(h, n, q, r);
    } else {
      NextWraps(h, n, q);
    }
  }

  lemma NextInside(h: nat, n: nat, q: nat, r: nat)
    requires r + 1 < n && h == q * n + r
    ensures (r + 1) % n == r + 1 == (h + 1) % n
  {
    ModIs(r + 1, n, 0, r + 1);
    ModIs(h + 1, n, q, r + 1);
  }

  lemma NextWraps(h: nat, n: nat, q: nat)
    requires n > 0 && h == q * n + (n - 1)
    ensures n % n == 0 == (h + 1) % n
  {
    ModIs(n, n, 1, 0);
    assert h + 1 == (q + 1) * n + 0;
    ModIs(h + 1, n, q + 1, 0);
  }

  // Numbers less than a ring apart have slots of their own.
  lemma OwnSlot(a: nat, b: nat, n: nat)
    requires n > 0 && a - n < b < a + n && SlotOf(a, n) == SlotOf(b, n)
    ensures a == b
  {
    assert a == (a / n) * n + a % n && b == (b / n) * n + b % n;
    assert (b / n - a / n) * n == b - a;
    Between(b / n - a / n, n, b - a);
  }

  ghost predicate IsResult<R>(r: R, done: map<nat, R>, id: nat) { id in done && r == done[id] }

  class Queue<Result(0)> {
    const size: nat
    const results: array<Result>
    const ids: array<int>
    var head: nat
    var tail: nat
    ghost var done: map<nat, Result>   // the requests in flight whose result has arrived

    constructor (n: nat, none: Result)
      requires n > 0
      ensures Valid() && size == n && head == tail == 0 && done == map[] && fresh(results) && fresh(ids)
    {
      size := n;
      results := new Result[n](_ => none);
      ids := new int[n](_ => -1);
      head, tail, done := 0, 0, map[];
    }

    ghost predicate Apart()
      reads this
    {
      var a: object, b: object := results, ids;
      a != b
    }

    // A slot holds a request that has left, or one that is in flight with its result.
    ghost predicate SlotOk(i: nat)
      requires results.Length == size && ids.Length == size && i < size
      reads this, ids, results
    {
      || ids[i] < head
      || (ids[i] >= 0 && var id: nat := ids[i]; id in done && SlotOf(id, size) == i && results[i] == done[id])
    }

    ghost predicate Valid()
      reads this, ids, results
    {
      && Apart() && size > 0 && results.Length == size && ids.Length == size && head <= tail <= head + size
      && (forall i :: 0 <= i < size ==> SlotOk(i))
      && (forall id :: id in done ==> head <= id < tail && ids[SlotOf(id, size)] == id)
    }

    method NewReq() returns (id: int)
      requires Valid()
      modifies this`tail
      ensures Valid()
      ensures old(tail) - head == size ==> id == -1 && tail == old(tail)
      ensures old(tail) - head < size ==> id == old(tail) && tail == old(tail) + 1
    {
      hide SlotOf;
      if tail - head == size { return -1; }
      id := tail;
      tail := tail + 1;
      forall j | 0 <= j < size ensures SlotOk(j) { assert old(SlotOk(j)); }
    }

    /** A result for a request in flight that has none yet. */
    method PushResult(r: Result, id: nat)
      requires Valid() && head <= id < tail && id !in done
      modifies this`done, results, ids
      ensures Valid() && done == old(done)[id := r]
    {
      hide SlotOf;
      var i := SlotOf(id, size);
      results[i] := r;
      ids[i] := id;
      done := done[id := r];
      forall x | x in done && SlotOf(x, size) == i ensures x == id { OwnSlot(x, id, size); }
      forall j | 0 <= j < size ensures SlotOk(j) { assert old(SlotOk(j)); }
    }

    ghost predicate Same(out: array<Result>) {
      var a: object, b: object := out, ids;
      a == b
    }

    /** The longest completed prefix, at most n results, each with the number it was asked for under. */
    method PopResults(out: array<Result>, n: nat) returns (cnt: nat)
      requires Valid() && out.Length >= n && out != results && !Same(out)
      modifies this`head, this`done, out
      ensures Valid() && cnt <= n && head == old(head) + cnt
      ensures forall k :: 0 <= k < cnt ==> IsResult(out[k], old(done), old(head) + k)
      ensures forall id :: id in done <==> id in old(done) && head <= id
      ensures forall id :: id in done ==> done[id] == old(done)[id]
      ensures cnt < n ==> head == tail || head !in old(done)
    {
      hide SlotOf;
      hide Advance;
      cnt := 0;
      var i := SlotOf(head, size);
      while head < tail && cnt < n
        invariant Valid() && cnt <= n && head == old(head) + cnt && i == SlotOf(head, size)
        invariant forall k :: 0 <= k < cnt ==> IsResult(out[k], old(done), old(head) + k)
        invariant forall id :: id in done <==> id in old(done) && head <= id
        invariant forall id :: id in done ==> done[id] == old(done)[id]
        decreases tail - head
      {
        assert SlotOk(i);
        if ids[i] < head { break; }
        OwnSlot(ids[i], head, size);
        label L:
        assert head == old(head) + cnt && results[i] == old(done)[head];
        out[cnt] := results[i];
        assert IsResult(out[cnt], old(done), old(head) + cnt);
        cnt := cnt + 1;
        NextSlot(head, size);
        done := done - {head};
        head := head + 1;
        i := Advance(i, size);
        forall j | 0 <= j < size ensures SlotOk(j) { assert old@L(SlotOk(j)); }
      }
    }
  }
}
