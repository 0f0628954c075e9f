/** The table as the broker keeps it: a map, an insertion-order slice compacted in place, and the archive.
    Each method runs one critical section and is proved to compute the corresponding function of TaskTable. */
module StatusTable {
  import opened Sequences
  import opened TaskTable

  lemma {:induction false} CompactAppend(a: seq<Id>, b: seq<Id>, keys: set<Id>)
    ensures Compact(a + b, keys) == Compact(a, keys) + Compact(b, keys)
  {
    if a == [] {
      assert a + b == b;
    } else {
      assert (a + b)[1..] == a[1..] + b;
      CompactAppend(a[1..], b, keys);
    }
  }

  lemma CompactStep(s: seq<Id>, i: nat, keys: set<Id>)
    requires i < |s|
    ensures Compact(s[..i + 1], keys) == Compact(s[..i], keys) + if s[i] in keys then [s[i]] else []
  {
    assert s[..i + 1] == s[..i] + [s[i]];
    CompactAppend(s[..i], [s[i]], keys);
  }

  /** A record after the walk has passed the given ids. */
  function Visited(passed: seq<Id>, r: Rec, id: Id, session: string, now: int): Rec {
    if id in passed then Deregistered(r, session, now) else r
  }

  lemma NextVisit(order: seq<Id>, i: nat, session: string, now: int)
    requires NoDuplicates(order) && i < |order|
    ensures order[i] !in order[..i] && forall x :: x in order[..i + 1] <==> x in order[..i] || x == order[i]
  {
    assert order[..i + 1] == order[..i] + [order[i]];
  }

  class StatusTable {
    var store: bool
    var storeErr: bool
    var concurrency: nat
    var maxTerminal: nat
    var ttl: nat
    var tasks: map<Id, Rec>
    var slots: array<Id>   // backing array of the order slice
    var used: nat
    var disk: map<Id, Task>

    ghost predicate Valid()
      reads this
    {
      used <= slots.Length
    }

    ghost function View(): World
      reads this, slots
      requires Valid()
    {
      World(store, storeErr, concurrency, maxTerminal, ttl, tasks, slots[..used], disk)
    }

    constructor (concurrency: nat, maxTerminal: nat, ttl: nat, disk: map<Id, Task>)
      ensures Valid() && fresh(slots)
      ensures View() == Blank(disk, concurrency, maxTerminal, ttl)
    {
      store, storeErr := true, false;
      this.concurrency, this.maxTerminal, this.ttl := concurrency, maxTerminal, ttl;
      tasks, used, this.disk := map[], 0, disk;
      slots := new Id[0];
    }

    /** `t.order = append(t.order, id)`: a full backing array is replaced by a larger copy. */
    method AppendOrder(id: Id)
      requires Valid()
      modifies this`slots, this`used, slots
      ensures Valid() && (slots == old(slots) || fresh(slots))
      ensures slots[..used] == old(slots[..used]) + [id]
    {
      if used == slots.Length {
        var bigger := new Id[2 * slots.Length + 1](_ => "");
        forall i | 0 <= i < used { bigger[i] := slots[i]; }
        slots := bigger;
      }
      slots[used] := id;
      used := used + 1;
    }

    /** compactOrderLocked: survivors slide down within the same backing array, and the tail is cleared. */
    method CompactOrder()
      requires Valid()
      modifies this`used, slots
      ensures Valid()
      ensures slots[..used] == Compact(old(slots[..used]), tasks.Keys)
      ensures forall i :: used <= i < old(used) ==> slots[i] == ""
    {
      ghost var was := slots[..used];
      var kept, i, n := 0, 0, used;
      while i < n
        invariant 0 <= kept <= i <= n == used == |was|
        invariant slots[..kept] == Compact(was[..i], tasks.Keys)
        invariant forall k :: i <= k < n ==> slots[k] == was[k]
      {
        CompactStep(was, i, tasks.Keys);
        if slots[i] in tasks {
          slots[kept] := slots[i];
          kept := kept + 1;
        }
        i := i + 1;
      }
      assert was[..n] == was;
      i := kept;
      while i < n
        invariant kept <= i <= n == used
        invariant slots[..kept] == Compact(was, tasks.Keys)
        invariant forall k :: kept <= k < i ==> slots[k] == ""
      {
        slots[i] := "";
        i := i + 1;
      }
      used := kept;
    }

    method CountTerminals() returns (n: nat)
      ensures n == |Terminals(tasks)|
    {
      n := 0;
      var rest, seen := tasks.Keys, {};
      while rest != {}
        invariant rest + seen == tasks.Keys && rest !! seen
        invariant n == |set id | id in seen && Terminal(tasks[id])|
        decreases |rest|
      {
        var id :| id in rest;
        rest := rest - {id};
        var counted := set x | x in seen && Terminal(tasks[x]);
        if Terminal(tasks[id]) {
          assert (set x | x in seen + {id} && Terminal(tasks[x])) == counted + {id};
          n := n + 1;
        } else {
          assert (set x | x in seen + {id} && Terminal(tasks[x])) == counted;
        }
        seen := seen + {id};
      }
      assert (set id | id in seen && Terminal(tasks[id])) == Terminals(tasks);
    }

    method CountNonTerminals() returns (n: nat)
      ensures n == |NonTerminals(tasks)|
    {
      var terminals := CountTerminals();
      assert tasks.Keys == Terminals(tasks) + NonTerminals(tasks) && Terminals(tasks) !! NonTerminals(tasks);
      n := |tasks.Keys| - terminals;
    }

    /** The loop of the TTL pass, over the map in any order. */
    method DropExpired(now: int)
      modifies this`tasks
      ensures tasks == Unexpired(old(tasks), ttl, now)
    {
      var rest := tasks.Keys;
      while rest != {}
        invariant rest <= old(tasks).Keys
        invariant tasks == map id | id in old(tasks) && (id in rest || !Expired(old(tasks)[id], ttl, now)) :: old(tasks)[id]
        decreases |rest|
      {
        var id :| id in rest;
        rest := rest - {id};
        if Expired(tasks[id], ttl, now) { tasks := tasks - {id}; }
      }
    }

    method ApplyTtl(now: int)
      requires Valid()
      modifies this`tasks, this`used, slots
      ensures Valid() && View() == TtlPass(old(View()), now)
    {
      if ttl > 0 {
        DropExpired(now);
        CompactOrder();
      }
    }

    method ApplyCap()
      requires Valid()
      modifies this`tasks, this`used, slots
      ensures Valid() && View() == CapPass(old(View()))
    {
      if maxTerminal > 0 {
        var terminal := CountTerminals();
        if terminal <= maxTerminal { return; }
        DropOldestTerminals(terminal - maxTerminal);
        CompactOrder();
      }
    }

    /** evictTerminalLocked. */
    method EvictTerminal(now: int)
      requires Valid()
      modifies this`tasks, this`used, slots
      ensures Valid() && View() == Evict(old(View()), now)
    {
      if ttl == 0 && maxTerminal == 0 { return; }
      ApplyTtl(now);
      ApplyCap();
    }

    /** The loop of the cap pass. */
    method DropOldestTerminals(k: nat)
      requires Valid()
      modifies this`tasks
      ensures tasks == DropOldest(old(tasks), slots[..used], k)
    {
      var toDrop, i := k, 0;
      while i < used
        invariant 0 <= i <= used
        invariant DropOldest(tasks, slots[i..used], toDrop) == DropOldest(old(tasks), slots[..used], k)
      {
        assert slots[i..used] == [slots[i]] + slots[i + 1..used];
        if toDrop == 0 { break; }
        if slots[i] in tasks && Evictable(tasks[slots[i]]) {
          tasks := tasks - {slots[i]};
          toDrop := toDrop - 1;
        }
        i := i + 1;
      }
    }

    /** persistLocked. */
    method PersistRecord(r: Rec, ok: bool, now: int) returns (r1: Rec, failed: bool)
      requires Valid()
      modifies this`disk, this`storeErr
      ensures (View(), r1, failed) == Persist(old(View()), r, ok, now)
    {
      r1, failed := r, false;
      if !store { return; }
      if ok {
        disk := disk[r.task.id := Archived(r)];
      } else {
        failed := true;
        storeErr := true;
        r1 := Spoiled(r, now);
      }
    }

    method SaveRecord(r: Rec, ok: bool, now: int) returns (o: Outcome)
      requires Valid()
      modifies this`disk, this`storeErr, this`tasks
      ensures (View(), o) == Save(old(View()), r, ok, now)
    {
      var r1, failed := PersistRecord(r, ok, now);
      tasks := tasks[r.task.id := r1];
      o := if failed then StoreFailed else Ok;
    }

    method FinishRecord(r: Rec, ok: bool, now: int) returns (o: Outcome)
      requires Valid()
      modifies this`disk, this`storeErr, this`tasks, this`used, slots
      ensures Valid() && (View(), o) == Finish(old(View()), r, ok, now)
    {
      o := SaveRecord(r, ok, now);
      EvictTerminal(now);
    }

    /** Admit: capacity, eviction, persistence and insertion in one critical section. */
    method AdmitTask(id: Id, session: string, prompt: string, ok: bool, now: int) returns (o: Outcome)
      requires Valid()
      modifies this, slots
      ensures Valid() && (slots == old(slots) || fresh(slots))
      ensures (View(), o) == Admit(old(View()), id, session, prompt, ok, now)
    {
      if storeErr { return Refused; }
      var open := CountNonTerminals();
      if open >= ADMISSION_LIMIT { return Full; }
      EvictTerminal(now);
      var r := Rec(Task(id, session, Queued, prompt, None, None, 0, "", false, 0, NoMessage), 0, false);
      var r1, failed := PersistRecord(r, ok, now);
      if failed { return StoreFailed; }
      tasks := tasks[id := r1];
      AppendOrder(id);
      o := Ok;
    }

    method Run(id: Id, ok: bool, now: int) returns (o: Outcome)
      requires Valid()
      modifies this`disk, this`storeErr, this`tasks
      ensures (View(), o) == MarkRunning(old(View()), id, ok, now)
    {
      if id !in tasks { return NotFound; }
      var r := tasks[id];
      if !r.task.state.Queued? { return Illegal; }
      o := SaveRecord(r.(task := r.task.(state := Running, started := Some(now))), ok, now);
    }

    method Complete(id: Id, exit: int, codexSession: string, fellBack: bool, ok: bool, now: int) returns (o: Outcome)
      requires Valid()
      modifies this`disk, this`storeErr, this`tasks, this`used, slots
      ensures Valid() && (View(), o) == MarkDone(old(View()), id, exit, codexSession, fellBack, ok, now)
    {
      if id !in tasks { return NotFound; }
      var r := tasks[id];
      if !r.task.state.Running? { return Illegal; }
      o := FinishRecord(r.(task := r.task.(state := Done, finished := Some(now), exit := exit,
                                           codexSession := codexSession, fellBack := fellBack)), ok, now);
    }

    method Fail(id: Id, exit: int, reason: string, ok: bool, now: int) returns (o: Outcome)
      requires Valid()
      modifies this`disk, this`storeErr, this`tasks, this`used, slots
      ensures Valid() && (View(), o) == MarkErrored(old(View()), id, exit, reason, ok, now)
    {
      if id !in tasks { return NotFound; }
      var r := tasks[id];
      if r.task.state != Running && r.task.state != Queued { return Illegal; }
      o := FinishRecord(r.(task := r.task.(state := Errored, finished := Some(now), exit := exit, message := Reason(reason))), ok, now);
    }

    /** Cancel, or MarkCancelled when `quiet`: they differ in the exit code and in what a terminal task answers. */
    method CancelTask(id: Id, quiet: bool, exit: int, ok: bool, now: int) returns (o: Outcome)
      requires Valid()
      modifies this`disk, this`storeErr, this`tasks, this`used, slots
      ensures Valid()
      ensures (View(), o) == if quiet then MarkCancelled(old(View()), id, exit, ok, now) else Cancel(old(View()), id, ok, now)
    {
      var code := if !quiet || exit == 0 then 64 else exit;
      if id !in tasks { return NotFound; }
      var r := tasks[id];
      if r.task.state.Terminal() { return if quiet then Unchanged else AlreadyTerminal; }
      o := FinishRecord(r.(task := r.task.(state := Cancelled, finished := Some(now), exit := code)), ok, now);
    }

    /** DeregisterSession with cancelQueued, walking insertion order; returns the cancelled ids. */
    method Deregister(session: string, now: int) returns (cancelled: seq<Id>)
      requires Valid() && OrderOk(View())
      modifies this`tasks
      ensures View() == DeregisterSession(old(View()), session, now)
      ensures forall id :: id in cancelled <==> id in old(tasks) && tasks[id] != old(tasks)[id]
    {
      cancelled := [];
      ghost var was := tasks;
      var i := 0;
      while i < used
        invariant 0 <= i <= used && tasks.Keys == was.Keys
        invariant forall id :: id in was ==> tasks[id] == Visited(slots[..i], was[id], id, session, now)
        invariant forall id :: id in cancelled <==> id in was && tasks[id] != was[id]
      {
        var id := slots[i];
        NextVisit(slots[..used], i, session, now);
        assert slots[..used][i] == id && slots[..used][..i] == slots[..i] && slots[..used][..i + 1] == slots[..i + 1];
        assert id in tasks by { assert id in (set x | x in slots[..used]); }
        var r := tasks[id];
        if r.task.session == session && r.task.state.Queued? {
          tasks := tasks[id := r.(task := r.task.(state := Cancelled, finished := Some(now), exit := 64))];
          cancelled := cancelled + [id];
        }
        i := i + 1;
      }
      assert forall id :: id in was ==> id in slots[..used] by { assert forall id :: id in was.Keys ==> id in (set x | x in slots[..used]); }
      assert tasks == DeregisterSession(old(View()), session, now).tasks;
    }

    /** One entry of the archive directory; a task the previous broker left unfinished becomes an explicit failure. */
    method RecoverEntry(id: Id, ok: bool, now: int) returns (started: bool)
      requires Valid() && id in disk && disk[id].id == id
      modifies this, slots
      ensures Valid() && (slots == old(slots) || fresh(slots))
      ensures (View(), started) == RecoverOne(old(View()), id, ok, now)
    {
      var r := Recovered(disk[id], now);
      var failed := false;
      if !disk[id].state.Terminal() {
        r, failed := PersistRecord(r, ok, now);
        if failed { return false; }
      }
      tasks := tasks[id := r];
      AppendOrder(id);
      EvictTerminal(now);
      started := true;
    }

    /** EnablePersistence's loop over the directory, in whatever order it is listed. */
    method RecoverAll(entries: seq<Id>, oks: nat -> bool, now: int) returns (started: bool)
      requires Valid() && Listed(entries, disk)
      modifies this, slots
      ensures Valid() && (slots == old(slots) || fresh(slots))
      ensures (View(), started) == Recover(old(View()), entries, oks, now)
      decreases |entries|
    {
      if entries == [] { return true; }
      RecoverOneKeepsListed(View(), entries[0], oks(|entries|), now, entries);
      started := RecoverEntry(entries[0], oks(|entries|), now);
      if started { started := RecoverAll(entries[1..], oks, now); }
    }
  }
}
