/** The broker's task table and its on-disk status archive, as functions from one state to the next.
    Every function is one critical section under the table's mutex; `now` is the clock it reads and `ok` says
    whether the archive write it attempts succeeds (a failed write leaves the archive unchanged). */
module TaskTable {
  import opened Sequences

  datatype Option<+T> = None | Some(value: T)

  type Id = string

  datatype State = Queued | Running | Done | Cancelled | Errored
  {
    predicate Terminal() { Done? || Cancelled? || Errored? }
  }

  datatype Message = NoMessage | Reason(text: string) | Restarted | PersistFailed

  datatype Task = Task(
    id: Id, session: string, state: State, prompt: string,
    started: Option<int>, finished: Option<int>,
    exit: int, codexSession: string, fellBack: bool, eventCount: nat, message: Message)

  /** `pinned` is persistenceFailed: the archive is stale, so the record must stay in memory. */
  datatype Rec = Rec(task: Task, total: nat, pinned: bool)

  datatype World = World(
    store: bool, storeErr: bool, concurrency: nat, maxTerminal: nat, ttl: nat,
    tasks: map<Id, Rec>, order: seq<Id>,
    disk: map<Id, Task>)

  /** `Unchanged` is the nil error of a call that found nothing to do. */
  datatype Outcome = Ok | Unchanged | NotFound | Illegal | AlreadyTerminal | StoreFailed | Refused | Full

  const ADMISSION_LIMIT: nat := 64

  // ---- Eviction ----

  predicate Terminal(r: Rec) { r.task.state.Terminal() }

  predicate Evictable(r: Rec) { !r.pinned && Terminal(r) }

  predicate Expired(r: Rec, ttl: nat, now: int) {
    Evictable(r) && r.task.finished.Some? && r.task.finished.value < now - ttl
  }

  function Terminals(tasks: map<Id, Rec>): set<Id> {
    set id | id in tasks && Terminal(tasks[id])
  }

  function NonTerminals(tasks: map<Id, Rec>): set<Id> {
    set id | id in tasks && !Terminal(tasks[id])
  }

  function Pinned(tasks: map<Id, Rec>): set<Id> {
    set id | id in tasks && Terminal(tasks[id]) && tasks[id].pinned
  }

  function Unexpired(tasks: map<Id, Rec>, ttl: nat, now: int): map<Id, Rec> {
    map id | id in tasks && !Expired(tasks[id], ttl, now) :: tasks[id]
  }

  /** compactOrderLocked. */
  function Compact(order: seq<Id>, keys: set<Id>): seq<Id> {
    if order == [] then [] else (if order[0] in keys then [order[0]] else []) + Compact(order[1..], keys)
  }

  /** The cap pass: walk insertion order and drop the first k evictable records. */
  function DropOldest(tasks: map<Id, Rec>, order: seq<Id>, k: nat): map<Id, Rec>
    decreases |order|
  {
    if k == 0 || order == [] then tasks
    else if order[0] in tasks && Evictable(tasks[order[0]]) then DropOldest(tasks - {order[0]}, order[1..], k - 1)
    else DropOldest(tasks, order[1..], k)
  }

  function TtlPass(w: World, now: int): World {
    if w.ttl > 0 then
      var kept := Unexpired(w.tasks, w.ttl, now);
      w.(tasks := kept, order := Compact(w.order, kept.Keys))
    else w
  }

  function CapPass(w: World): World {
    if w.maxTerminal > 0 && |Terminals(w.tasks)| > w.maxTerminal then
      var kept := DropOldest(w.tasks, w.order, |Terminals(w.tasks)| - w.maxTerminal);
      w.(tasks := kept, order := Compact(w.order, kept.Keys))
    else w
  }

  function Evict(w: World, now: int): World {
    CapPass(TtlPass(w, now))
  }

  // ---- Persistence and the transitions ----

  function Archived(r: Rec): Task {
    r.task.(eventCount := r.total, prompt := "")
  }

  function Spoiled(r: Rec, now: int): Rec {
    r.(pinned := true,
       task := r.task.(state := if r.task.state.Cancelled? then Cancelled else Errored, exit := 1,
                       finished := Some(now), message := PersistFailed))
  }

  /** persistLocked: the new world, the record as it is left, and whether the write failed. */
  function Persist(w: World, r: Rec, ok: bool, now: int): (World, Rec, bool) {
    if !w.store then (w, r, false)
    else if ok then (w.(disk := w.disk[r.task.id := Archived(r)]), r, false)
    else (w.(storeErr := true), Spoiled(r, now), true)
  }

  /** Persist a changed record and put it back in the table. */
  function Save(w: World, r: Rec, ok: bool, now: int): (World, Outcome) {
    var (w1, r1, failed) := Persist(w, r, ok, now);
    (w1.(tasks := w1.tasks[r.task.id := r1]), if failed then StoreFailed else Ok)
  }

  /** The tail of every terminal transition: persist, then evict. */
  function Finish(w: World, r: Rec, ok: bool, now: int): (World, Outcome) {
    var (w1, o) := Save(w, r, ok, now);
    (Evict(w1, now), o)
  }

  function Admit(w: World, id: Id, session: string, prompt: string, ok: bool, now: int): (World, Outcome) {
    if w.storeErr then (w, Refused)
    else if |NonTerminals(w.tasks)| >= ADMISSION_LIMIT then (w, Full)
    else
      var w1 := Evict(w, now);
      var r := Rec(Task(id, session, Queued, prompt, None, None, 0, "", false, 0, NoMessage), 0, false);
      var (w2, r2, failed) := Persist(w1, r, ok, now);
      if failed then (w2, StoreFailed)
      else (w2.(tasks := w2.tasks[id := r2], order := w2.order + [id]), Ok)
  }

  function MarkRunning(w: World, id: Id, ok: bool, now: int): (World, Outcome) {
    if id !in w.tasks then (w, NotFound)
    else
      var r := w.tasks[id];
      if !r.task.state.Queued? then (w, Illegal)
      else Save(w, r.(task := r.task.(state := Running, started := Some(now))), ok, now)
  }

  function MarkDone(w: World, id: Id, exit: int, codexSession: string, fellBack: bool, ok: bool, now: int): (World, Outcome) {
    if id !in w.tasks then (w, NotFound)
    else
      var r := w.tasks[id];
      if !r.task.state.Running? then (w, Illegal)
      else Finish(w, r.(task := r.task.(state := Done, finished := Some(now), exit := exit,
                                        codexSession := codexSession, fellBack := fellBack)), ok, now)
  }

  function MarkErrored(w: World, id: Id, exit: int, reason: string, ok: bool, now: int): (World, Outcome) {
    if id !in w.tasks then (w, NotFound)
    else
      var r := w.tasks[id];
      if Terminal(r) then (w, Illegal)
      else Finish(w, r.(task := r.task.(state := Errored, finished := Some(now), exit := exit, message := Reason(reason))), ok, now)
  }

  function Cancel(w: World, id: Id, ok: bool, now: int): (World, Outcome) {
    if id !in w.tasks then (w, NotFound)
    else
      var r := w.tasks[id];
      if Terminal(r) then (w, AlreadyTerminal)
      else Finish(w, r.(task := r.task.(state := Cancelled, finished := Some(now), exit := 64)), ok, now)
  }

  /** Like Cancel, but a terminal task is left alone without an error. */
  function MarkCancelled(w: World, id: Id, exit: int, ok: bool, now: int): (World, Outcome) {
    if id !in w.tasks then (w, NotFound)
    else
      var r := w.tasks[id];
      if Terminal(r) then (w, Unchanged)
      else Finish(w, r.(task := r.task.(state := Cancelled, finished := Some(now), exit := if exit == 0 then 64 else exit)), ok, now)
  }

  function AppendEvent(w: World, id: Id): (World, Outcome) {
    if id !in w.tasks then (w, NotFound)
    else
      var r := w.tasks[id];
      (w.(tasks := w.tasks[id := r.(total := r.total + 1, task := r.task.(eventCount := r.total + 1))]), Ok)
  }

  function SetEvictionPolicy(w: World, maxTerminal: nat, ttl: nat, now: int): World {
    Evict(w.(maxTerminal := maxTerminal, ttl := ttl), now)
  }

  function Deregistered(r: Rec, session: string, now: int): Rec {
    if r.task.session == session && r.task.state.Queued?
    then r.(task := r.task.(state := Cancelled, finished := Some(now), exit := 64))
    else r
  }

  /** DeregisterSession with cancelQueued: neither persists nor evicts. */
  function DeregisterSession(w: World, session: string, now: int): World {
    w.(tasks := map id | id in w.tasks :: Deregistered(w.tasks[id], session, now))
  }

  function Status(w: World, id: Id): Option<Task> {
    if id in w.tasks then Some(w.tasks[id].task.(eventCount := w.tasks[id].total))
    else if w.store && id in w.disk then Some(w.disk[id])
    else None
  }

  // ---- Recovery ----

  /** A broker that has just started, with no task in memory. */
  function Blank(disk: map<Id, Task>, concurrency: nat, maxTerminal: nat, ttl: nat): World {
    World(true, false, concurrency, maxTerminal, ttl, map[], [], disk)
  }

  function Recovered(task: Task, now: int): Rec {
    Rec(if task.state.Terminal() then task
        else task.(state := Errored, exit := 125, message := Restarted, finished := Some(now)),
        task.eventCount, false)
  }

  /** One directory entry; false when the archive write of an interrupted task fails. */
  function RecoverOne(w: World, id: Id, ok: bool, now: int): (World, bool)
    requires id in w.disk
  {
    var r := Recovered(w.disk[id], now);
    var (w1, r1, failed) := if w.disk[id].state.Terminal() then (w, r, false) else Persist(w, r, ok, now);
    if failed then (w1, false)
    else (Evict(w1.(tasks := w1.tasks[id := r1], order := w1.order + [id]), now), true)
  }

  predicate Listed(entries: seq<Id>, disk: map<Id, Task>) {
    forall id :: id in entries ==> id in disk && disk[id].id == id
  }

  lemma RecoverOneKeepsListed(w: World, id: Id, ok: bool, now: int, entries: seq<Id>)
    requires Listed(entries, w.disk) && id in entries
    ensures Listed(entries, RecoverOne(w, id, ok, now).0.disk)
  {
  }

  /** EnablePersistence's loop over the directory entries. */
  function Recover(w: World, entries: seq<Id>, oks: nat -> bool, now: int): (World, bool)
    requires Listed(entries, w.disk)
    decreases |entries|
  {
    if entries == [] then (w, true)
    else
      RecoverOneKeepsListed(w, entries[0], oks(|entries|), now, entries);
      var (w1, started) := RecoverOne(w, entries[0], oks(|entries|), now);
      if started then Recover(w1, entries[1..], oks, now) else (w1, false)
  }

  // ---- What eviction does ----

  /** `order` lists exactly the table's keys, once each. */
  predicate OrderOk(w: World) {
    NoDuplicates(w.order) && (set id | id in w.order) == w.tasks.Keys
  }

  predicate Submap(a: map<Id, Rec>, b: map<Id, Rec>) {
    forall id :: id in a ==> id in b && a[id] == b[id]
  }

  function EvictableIn(tasks: map<Id, Rec>, order: seq<Id>): set<Id> {
    set id | id in order && id in tasks && Evictable(tasks[id])
  }

  function Min(a: nat, b: nat): nat { if a < b then a else b }

  function Max(a: nat, b: nat): nat { if a < b then b else a }

  lemma CompactKeeps(order: seq<Id>, keys: set<Id>)
    ensures forall id :: id in Compact(order, keys) <==> id in order && id in keys
    ensures NoDuplicates(order) ==> NoDuplicates(Compact(order, keys))
  {
    if order != [] {
      CompactKeeps(order[1..], keys);
      assert order == [order[0]] + order[1..];
    }
  }

  lemma CompactInOrder(order: seq<Id>, keys: set<Id>)
    ensures Subsequence(Compact(order, keys), order)
  {
    if order != [] {
      CompactInOrder(order[1..], keys);
      SubsequenceCons(Compact(order[1..], keys), order[1..], order[0]);
      assert order == [order[0]] + order[1..];
      assert [] + Compact(order[1..], keys) == Compact(order[1..], keys);
    }
  }

  lemma DropOldestSafe(tasks: map<Id, Rec>, order: seq<Id>, k: nat)
    ensures Submap(DropOldest(tasks, order, k), tasks)
    ensures forall id :: id in tasks && (!Evictable(tasks[id]) || id !in order) ==> id in DropOldest(tasks, order, k)
    decreases |order|
  {
    if k == 0 || order == [] {
    } else if order[0] in tasks && Evictable(tasks[order[0]]) {
      DropOldestSafe(tasks - {order[0]}, order[1..], k - 1);
    } else {
      DropOldestSafe(tasks, order[1..], k);
    }
  }

  lemma RemoveTerminal(tasks: map<Id, Rec>, id: Id)
    requires id in tasks && Terminal(tasks[id])
    ensures |Terminals(tasks - {id})| == |Terminals(tasks)| - 1
  {
    assert Terminals(tasks) == Terminals(tasks - {id}) + {id};
  }

  lemma RemoveEvictable(tasks: map<Id, Rec>, order: seq<Id>)
    requires NoDuplicates(order) && order != []
    ensures if order[0] in tasks && Evictable(tasks[order[0]])
            then |EvictableIn(tasks, order)| == |EvictableIn(tasks - {order[0]}, order[1..])| + 1
            else EvictableIn(tasks, order) == EvictableIn(tasks, order[1..])
  {
    var id, rest := order[0], order[1..];
    assert order == [id] + rest && id !in rest;
    if id in tasks && Evictable(tasks[id]) {
      assert EvictableIn(tasks, order) == EvictableIn(tasks - {id}, rest) + {id};
    }
  }

  /** The cap pass removes exactly as many terminals as asked, or all the evictable ones. */
  lemma {:induction false} DropOldestCount(tasks: map<Id, Rec>, order: seq<Id>, k: nat)
    requires NoDuplicates(order)
    ensures |Terminals(DropOldest(tasks, order, k))| == |Terminals(tasks)| - Min(k, |EvictableIn(tasks, order)|)
    decreases |order|
  {
    if order == [] {
      assert EvictableIn(tasks, order) == {};
    } else if k > 0 {
      var id, rest := order[0], order[1..];
      RemoveEvictable(tasks, order);
      if id in tasks && Evictable(tasks[id]) {
        RemoveTerminal(tasks, id);
        DropOldestCount(tasks - {id}, rest, k - 1);
      } else {
        DropOldestCount(tasks, rest, k);
      }
    }
  }

  /** A dropped record leaves no older evictable record behind. */
  lemma DropOldestFirst(tasks: map<Id, Rec>, order: seq<Id>, k: nat, i: nat, j: nat)
    requires NoDuplicates(order) && i < j < |order|
    requires order[j] in tasks && order[j] !in DropOldest(tasks, order, k)
    requires order[i] in tasks && Evictable(tasks[order[i]])
    ensures order[i] !in DropOldest(tasks, order, k)
    decreases |order|
  {
    if k > 0 {
      var id, rest := order[0], order[1..];
      assert order == [id] + rest;
      if id in tasks && Evictable(tasks[id]) {
        if i == 0 {
          DropOldestSafe(tasks - {id}, rest, k - 1);
        } else {
          assert rest[i - 1] == order[i] && rest[j - 1] == order[j];
          DropOldestFirst(tasks - {id}, rest, k - 1, i - 1, j - 1);
        }
      } else {
        assert rest[i - 1] == order[i] && rest[j - 1] == order[j];
        DropOldestFirst(tasks, rest, k, i - 1, j - 1);
      }
    }
  }

  /** One eviction pass, whatever the policy: only settled, durable terminals leave, survivors keep their order. */
  lemma EvictIsSafe(w: World, now: int)
    requires OrderOk(w)
    ensures var v := Evict(w, now);
            && OrderOk(v) && Subsequence(v.order, w.order) && Submap(v.tasks, w.tasks)
            && (forall id :: id in w.tasks && !Evictable(w.tasks[id]) ==> id in v.tasks)
            && v == w.(tasks := v.tasks, order := v.order)
  {
    var t := TtlPass(w, now);
    CompactKeeps(w.order, Unexpired(w.tasks, w.ttl, now).Keys);
    CompactInOrder(w.order, Unexpired(w.tasks, w.ttl, now).Keys);
    SubsequenceSelf(w.order);
    assert OrderOk(t) && Subsequence(t.order, w.order) && Submap(t.tasks, w.tasks);
    CapPassIsSafe(t);
    SubsequenceTrans(CapPass(t).order, t.order, w.order);
  }

  lemma CapPassIsSafe(w: World)
    requires OrderOk(w)
    ensures var v := CapPass(w);
            && OrderOk(v) && Subsequence(v.order, w.order) && Submap(v.tasks, w.tasks)
            && (forall id :: id in w.tasks && !Evictable(w.tasks[id]) ==> id in v.tasks)
            && v == w.(tasks := v.tasks, order := v.order)
  {
    SubsequenceSelf(w.order);
    if w.maxTerminal > 0 && |Terminals(w.tasks)| > w.maxTerminal {
      var k := |Terminals(w.tasks)| - w.maxTerminal;
      var kept := DropOldest(w.tasks, w.order, k);
      DropOldestSafe(w.tasks, w.order, k);
      CompactKeeps(w.order, kept.Keys);
      CompactInOrder(w.order, kept.Keys);
    }
  }

  /** With a positive cap, a pass over too many terminals leaves exactly max(cap, pinned) of them. */
  lemma CapHolds(w: World)
    requires OrderOk(w) && w.maxTerminal > 0
    ensures |Terminals(CapPass(w).tasks)| ==
              if |Terminals(w.tasks)| <= w.maxTerminal then |Terminals(w.tasks)|
              else Max(w.maxTerminal, |Pinned(w.tasks)|)
  {
    if |Terminals(w.tasks)| > w.maxTerminal {
      DropOldestCount(w.tasks, w.order, |Terminals(w.tasks)| - w.maxTerminal);
      TerminalsSplit(w);
    }
  }

  lemma TerminalsSplit(w: World)
    requires OrderOk(w)
    ensures |Terminals(w.tasks)| == |EvictableIn(w.tasks, w.order)| + |Pinned(w.tasks)|
  {
    assert forall id :: id in w.tasks.Keys ==> id in w.order;
    assert Terminals(w.tasks) == EvictableIn(w.tasks, w.order) + Pinned(w.tasks);
    assert EvictableIn(w.tasks, w.order) !! Pinned(w.tasks);
  }
}
