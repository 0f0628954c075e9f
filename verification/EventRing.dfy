/** The per-task event ring of the task table: a fixed array of the most recent events, a write index and a count. */
module EventRing {
  datatype Event = Event(seqNo: int, kind: string, payload: seq<int>)

  datatype Replay = Lost(oldest: int) | Got(events: seq<Event>)

  /** Sequence numbers are 1, 2, 3, ... in append order. */
  predicate Numbered(log: seq<Event>) {
    forall k :: 0 <= k < |log| ==> log[k].seqNo == k + 1
  }

  /** Oldest sequence number still replayable from a ring of the given size after `total` appends. */
  function Oldest(total: nat, ringSize: nat): int {
    if total < ringSize then 1 else total - ringSize + 1
  }

  /** The contract of Events over the complete, never truncated log. */
  function ReplayOf(log: seq<Event>, ringSize: nat, since: int): Replay {
    if since < Oldest(|log|, ringSize) then Lost(Oldest(|log|, ringSize))
    else if since > |log| then Got([])
    else Got(log[since - 1..])
  }

  class Ring {
    var slots: array<Event>
    var head: nat
    var total: nat
    ghost var log: seq<Event>  // every event of the task, including overwritten ones

    ghost predicate Valid()
      reads this, slots
    {
      && |log| == total && Numbered(log)
      && (slots.Length > 0 ==> head == total % slots.Length)
      && forall k :: 0 <= k < total && total - slots.Length <= k ==> slots[k % slots.Length] == log[k]
    }

    /** A fresh record: Admit allocates the ring. */
    constructor (ringSize: nat, blank: Event)
      requires ringSize > 0
      ensures Valid() && fresh(slots) && slots.Length == ringSize && log == []
    {
      slots := new Event[ringSize](_ => blank);
      head, total, log := 0, 0, [];
    }

    /** A record recovered from the archive keeps its count but has no ring; `history` is what an earlier broker logged. */
    constructor Recovered(count: nat, ghost history: seq<Event>)
      requires |history| == count && Numbered(history)
      ensures Valid() && fresh(slots) && slots.Length == 0 && log == history
    {
      slots := new Event[0];
      head, total, log := 0, count, history;
    }

    /** appendEventOwned. A recovered ring has no slot to write, and indexing it would panic. */
    method Append(kind: string, payload: seq<int>) returns (seqNo: int)
      requires Valid() && slots.Length > 0
      modifies this, slots
      ensures Valid() && slots == old(slots)
      ensures seqNo == |old(log)| + 1 && log == old(log) + [Event(seqNo, kind, payload)]
    {
      total := total + 1;
      slots[head] := Event(total, kind, payload);
      head := (head + 1) % slots.Length;
      seqNo := total;
      log := log + [Event(total, kind, payload)];
      NextSlot(total - 1, slots.Length);
      forall k | 0 <= k < total && total - slots.Length <= k
        ensures slots[k % slots.Length] == log[k]
      {
        if k < total - 1 { DistinctSlots(k, total - 1, slots.Length); }
      }
    }

    /** Events: walk backwards from head. */
    method EventsSince(since: int) returns (r: Replay)
      requires Valid()
      ensures r == ReplayOf(log, slots.Length, since)
    {
      var oldest := total as int - slots.Length as int + 1;
      if oldest < 1 { oldest := 1; }
      if since < oldest { return Lost(oldest); }
      if since > total { return Got([]); }
      var count: nat := total - since + 1;
      var out: seq<Event> := [];
      var i := 0;
      while i < count
        invariant 0 <= i <= count
        invariant out == log[total - i..]
      {
        var idx := (head + slots.Length - 1 - i) % slots.Length;
        BackSlot(total, i, slots.Length);
        assert slots[idx] == log[total - 1 - i];
        out := [slots[idx]] + out;
        i := i + 1;
      }
      r := Got(out);
    }
  }

  lemma ModStep(a: nat, n: nat, q: nat)
    requires n > 0 && a == q * n + a % n
    ensures (a + 1) % n == if a % n + 1 == n then 0 else a % n + 1
  {
    var r := a % n;
    if r + 1 == n {
      assert a + 1 == (q + 1) * n;
      ModUnique(a + 1, n, q + 1, 0);
    } else {
      ModUnique(a + 1, n, q, r + 1);
    }
  }

  lemma {:induction false} Gap(p: nat, q: nat, n: nat)
    requires p < q
    ensures p * n + n <= q * n
  {
    if q == p + 1 {
      assert q * n == p * n + n;
    } else {
      Gap(p, q - 1, n);
      assert q * n == (q - 1) * n + n;
    }
  }

  lemma ModUnique(a: nat, n: nat, q: nat, r: nat)
    requires n > 0 && r < n && a == q * n + r
    ensures a % n == r
  {
    var p := a / n;
    assert a == p * n + a % n;
    if q < p { Gap(q, p, n); }
    if p < q { Gap(p, q, n); }
  }

  lemma NextSlot(a: nat, n: nat)
    requires n > 0
    ensures (a % n + 1) % n == (a + 1) % n
  {
    var r := a % n;
    ModStep(a, n, a / n);
    if r + 1 == n { ModUnique(n, n, 1, 0); } else { ModUnique(r + 1, n, 0, r + 1); }
  }

  lemma DistinctSlots(j: nat, k: nat, n: nat)
    requires n > 0 && j < k < j + n
    ensures j % n != k % n
  {
    if j % n + (k - j) < n {
      ModUnique(k, n, j / n, j % n + (k - j));
    } else {
      ModUnique(k, n, j / n + 1, j % n + (k - j) - n);
    }
  }

  lemma BackSlot(total: nat, i: nat, n: nat)
    requires n > 0 && i < n && i < total
    ensures (total % n + n - 1 - i) % n == (total - 1 - i) % n
  {
    var r, q := total % n, total / n;
    var target: nat := total - 1 - i;
    if r >= 1 + i {
      ModUnique(r + n - 1 - i, n, 1, r - 1 - i);
      ModUnique(target, n, q, r - 1 - i);
    } else {
      ModUnique(r + n - 1 - i, n, 0, r + n - 1 - i);
      assert q >= 1;
      assert target == (q - 1) * n + (r + n - 1 - i);
      ModUnique(target, n, q - 1, r + n - 1 - i);
    }
  }

  /** The documented catch-up protocol: a client that has processed `seen` and asks for the next number either
      completes its copy of the log exactly, or is told that events are gone; and it is told so exactly when more
      than a ring-full of events has been appended since. */
  lemma CatchUp(seen: seq<Event>, log: seq<Event>, ringSize: nat)
    requires seen <= log
    ensures var r := ReplayOf(log, ringSize, |seen| + 1);
            (r.Got? ==> seen + r.events == log) && (r.Lost? <==> |log| - |seen| > ringSize)
  {
    var r := ReplayOf(log, ringSize, |seen| + 1);
    if r.Got? && |seen| < |log| {
      assert log == log[..|seen|] + log[|seen|..];
    }
  }

  /** Replay is exact: every event returned carries its own number, and none from `since` on is missing. */
  lemma ReplayIsExact(log: seq<Event>, ringSize: nat, since: int)
    requires Numbered(log)
    ensures var r := ReplayOf(log, ringSize, since);
            r.Got? ==> (forall k :: 0 <= k < |r.events| ==> r.events[k].seqNo == since + k)
                       && (forall e :: e in log && e.seqNo >= since ==> e in r.events)
                       && |r.events| <= ringSize
  {
    var r := ReplayOf(log, ringSize, since);
    if r.Got? {
      forall e | e in log && e.seqNo >= since
        ensures e in r.events
      {
        var k :| 0 <= k < |log| && log[k] == e;
        assert r.events[k - (since - 1)] == e;
      }
    }
  }
}
