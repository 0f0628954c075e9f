/** Runs of brokers over one archive: transitions that succeed or fail to persist, evictions, crashes at any point
    and recoveries, each broker reading what its predecessors left on disk. */
module Durability {
  import opened Sequences
  import opened TaskTable

  datatype System = Up(world: World) | Down(disk: map<Id, Task>)

  datatype Op =
    | Start(id: Id, session: string, prompt: string)
    | Run(id: Id)
    | Complete(id: Id, exit: int, codexSession: string, fellBack: bool)
    | Fail(id: Id, exit: int, reason: string)
    | Stop(id: Id)
    | Interrupt(id: Id, exit: int)
    | Emit(id: Id)
    | Repolicy(maxTerminal: nat, ttl: nat)

  datatype Happening =
    | Act(op: Op, ok: bool, now: int)
    | Crash
    | Restart(entries: seq<Id>, oks: nat -> bool, at: int, concurrency: nat, cap: nat, life: nat)

  function Apply(w: World, op: Op, ok: bool, now: int): (World, Outcome) {
    match op
    case Start(id, session, prompt) => Admit(w, id, session, prompt, ok, now)
    case Run(id) => MarkRunning(w, id, ok, now)
    case Complete(id, exit, codexSession, fellBack) => MarkDone(w, id, exit, codexSession, fellBack, ok, now)
    case Fail(id, exit, reason) => MarkErrored(w, id, exit, reason, ok, now)
    case Stop(id) => Cancel(w, id, ok, now)
    case Interrupt(id, exit) => MarkCancelled(w, id, exit, ok, now)
    case Emit(id) => AppendEvent(w, id)
    case Repolicy(maxTerminal, ttl) => (SetEvictionPolicy(w, maxTerminal, ttl, now), Ok)
  }

  /** Admission draws an id that was never used. */
  predicate Fresh(w: World, op: Op) {
    op.Start? ==> op.id !in w.tasks && op.id !in w.disk
  }

  /** The directory listing recovery walks: every archived task once, in any order. */
  predicate Directory(entries: seq<Id>, disk: map<Id, Task>) {
    NoDuplicates(entries) && (set id | id in entries) == disk.Keys
  }

  predicate DiskOk(disk: map<Id, Task>) {
    forall id :: id in disk ==> disk[id].id == id
  }

  function Archive(s: System): map<Id, Task> {
    match s
    case Up(w) => w.disk
    case Down(disk) => disk
  }

  predicate StepBy(s: System, h: Happening, t: System) {
    match h
    case Act(op, ok, now) => s.Up? && Fresh(s.world, op) && t == Up(Apply(s.world, op, ok, now).0)
    case Crash => s.Up? && t == Down(s.world.disk)
    case Restart(entries, oks, at, concurrency, cap, life) =>
      && s.Down? && Directory(entries, s.disk) && DiskOk(s.disk)
      && Listed(entries, Blank(s.disk, concurrency, cap, life).disk)
      && var (w, started) := Recover(Blank(s.disk, concurrency, cap, life), entries, oks, at);
         t == if started then Up(w) else Down(w.disk)
  }

  predicate History(tr: seq<System>, hs: seq<Happening>) {
    && |tr| == |hs| + 1
    && tr[0] == Down(map[])
    && forall i, j :: 0 <= i < |hs| && 0 <= j < |tr| && j == i + 1 ==> StepBy(tr[i], hs[i], tr[j])
  }

  // ---- What a caller sees, and the agreement between memory and archive ----

  /** A status record without the two fields the archive does not keep current: the prompt and the event count. */
  function Seen(t: Task): Task { t.(prompt := "", eventCount := 0) }

  function Answer(w: World, id: Id): Option<Task> {
    match Status(w, id)
    case None => None
    case Some(t) => Some(Seen(t))
  }

  /** A pinned record is terminal over an archive entry still unfinished; any other agrees with its archive entry. */
  predicate RecOk(disk: map<Id, Task>, id: Id, r: Rec) {
    && r.task.id == id
    && id in disk
    && if r.pinned then Terminal(r) && r.task.exit == 1 && r.task.message.PersistFailed? && !disk[id].state.Terminal()
       else Seen(disk[id]) == Seen(r.task)
  }

  predicate RecsOk(w: World) {
    forall id :: id in w.tasks ==> RecOk(w.disk, id, w.tasks[id])
  }

  /** Except for archive entries recovery has yet to visit, only finished work is missing from memory. */
  predicate DiskSettled(w: World, pending: set<Id>) {
    forall id :: id in w.disk && id !in w.tasks && id !in pending ==> w.disk[id].state.Terminal()
  }

  predicate Inv(w: World) {
    w.store && OrderOk(w) && RecsOk(w) && DiskOk(w.disk) && DiskSettled(w, {})
  }

  predicate SystemInv(s: System) {
    match s
    case Up(w) => Inv(w)
    case Down(disk) => DiskOk(disk)
  }

  // ---- Critical sections ----

  /** Eviction keeps the agreement and changes no answer. */
  lemma EvictKeeps(w: World, now: int, pending: set<Id>)
    requires w.store && OrderOk(w) && RecsOk(w) && DiskSettled(w, pending)
    ensures var v := Evict(w, now);
            v.store && OrderOk(v) && RecsOk(v) && DiskSettled(v, pending) && v.disk == w.disk && v.tasks.Keys <= w.tasks.Keys
    ensures forall id :: Answer(Evict(w, now), id) == Answer(w, id)
  {
    EvictIsSafe(w, now);
    var v := Evict(w, now);
    forall id | id in w.tasks && id !in v.tasks
      ensures w.disk[id].state.Terminal() && Answer(v, id) == Answer(w, id)
    {
      assert RecOk(w.disk, id, w.tasks[id]);
      assert Seen(w.disk[id]).state == w.disk[id].state;
    }
  }

  /** Eviction is invisible to status queries. */
  lemma EvictionIsInvisible(w: World, now: int, id: Id)
    requires Inv(w)
    ensures Inv(Evict(w, now)) && Answer(Evict(w, now), id) == Answer(w, id)
  {
    EvictKeeps(w, now, {});
  }

  /** A transition from an unfinished record keeps the agreement. */
  lemma SaveKeepsInv(w: World, r: Rec, ok: bool, now: int)
    requires Inv(w) && r.task.id in w.tasks && !Terminal(w.tasks[r.task.id]) && !r.pinned
    ensures Inv(Save(w, r, ok, now).0)
  {
    var id := r.task.id;
    assert RecOk(w.disk, id, w.tasks[id]);
    assert Seen(w.disk[id]).state == w.disk[id].state;
    var v := Save(w, r, ok, now).0;
    assert v.tasks.Keys == w.tasks.Keys;
    forall x | x in v.tasks ensures RecOk(v.disk, x, v.tasks[x]) {
      if x != id { assert RecOk(w.disk, x, w.tasks[x]); }
    }
  }

  /** What such a transition does to its record, and that no other answer moves. */
  lemma SaveAnswers(w: World, r: Rec, ok: bool, now: int)
    requires w.store
    ensures var (v, o) := Save(w, r, ok, now);
            && o == (if ok then Ok else StoreFailed)
            && Answer(v, r.task.id) == Some(Seen(if ok then r.task else Spoiled(r, now).task))
    ensures var (v, o) := Save(w, r, ok, now); forall id :: id != r.task.id ==> Answer(v, id) == Answer(w, id)
  {
  }

  lemma FinishKeeps(w: World, r: Rec, ok: bool, now: int)
    requires Inv(w) && r.task.id in w.tasks && !Terminal(w.tasks[r.task.id]) && !r.pinned
    ensures var (v, o) := Finish(w, r, ok, now); Inv(v)
    ensures var (v, o) := Finish(w, r, ok, now);
            && o == (if ok then Ok else StoreFailed)
            && Answer(v, r.task.id) == Some(Seen(if ok then r.task else Spoiled(r, now).task))
    ensures var (v, o) := Finish(w, r, ok, now); forall id :: id != r.task.id ==> Answer(v, id) == Answer(w, id)
  {
    SaveKeepsInv(w, r, ok, now);
    SaveAnswers(w, r, ok, now);
    EvictKeeps(Save(w, r, ok, now).0, now, {});
  }

  /** A new queued record over its archive entry. */
  function Entered(w: World, r: Rec): World {
    w.(disk := w.disk[r.task.id := Archived(r)], tasks := w.tasks[r.task.id := r], order := w.order + [r.task.id])
  }

  lemma EnterKeeps(w: World, r: Rec)
    requires Inv(w) && r.task.id !in w.tasks && r.task.id !in w.disk && !r.pinned
    ensures Inv(Entered(w, r))
    ensures forall x :: x != r.task.id ==> Answer(Entered(w, r), x) == Answer(w, x)
  {
    var id, v := r.task.id, Entered(w, r);
    assert v.tasks.Keys == w.tasks.Keys + {id} && id !in w.order;
    forall x | x in v.tasks ensures RecOk(v.disk, x, v.tasks[x]) {
      if x != id { assert RecOk(w.disk, x, w.tasks[x]); }
    }
  }

  lemma AdmitKeeps(w: World, id: Id, session: string, prompt: string, ok: bool, now: int)
    requires Inv(w) && id !in w.tasks && id !in w.disk
    ensures Inv(Admit(w, id, session, prompt, ok, now).0)
    ensures forall x :: x != id ==> Answer(Admit(w, id, session, prompt, ok, now).0, x) == Answer(w, x)
  {
    if !w.storeErr && |NonTerminals(w.tasks)| < ADMISSION_LIMIT {
      EvictKeeps(w, now, {});
      var r := Rec(Task(id, session, Queued, prompt, None, None, 0, "", false, 0, NoMessage), 0, false);
      if ok {
        EnterKeeps(Evict(w, now), r);
        assert Admit(w, id, session, prompt, ok, now).0 == Entered(Evict(w, now), r);
      }
    }
  }

  /** A finished task: the answer already is a terminal state. */
  predicate Finished(w: World, id: Id) {
    Answer(w, id).Some? && Answer(w, id).value.state.Terminal()
  }

  predicate ByTransition(op: Op) {
    op.Run? || Ending(op)
  }

  predicate Ending(op: Op) {
    op.Complete? || op.Fail? || op.Stop? || op.Interrupt?
  }

  /** The record a transition writes. */
  function Written(r: Rec, op: Op, now: int): Rec
    requires ByTransition(op)
  {
    r.(task := match op
      case Run(_) => r.task.(state := Running, started := Some(now))
      case Complete(_, exit, codexSession, fellBack) =>
        r.task.(state := Done, finished := Some(now), exit := exit, codexSession := codexSession, fellBack := fellBack)
      case Fail(_, exit, reason) => r.task.(state := Errored, finished := Some(now), exit := exit, message := Reason(reason))
      case Stop(_) => r.task.(state := Cancelled, finished := Some(now), exit := 64)
      case Interrupt(_, exit) => r.task.(state := Cancelled, finished := Some(now), exit := if exit == 0 then 64 else exit))
  }

  /** A transition either leaves the table alone or rewrites one unfinished record. */
  lemma TransitionShape(w: World, op: Op, ok: bool, now: int)
    requires ByTransition(op)
    ensures var (v, o) := Apply(w, op, ok, now);
            || (v == w && o != Ok && o != StoreFailed)
            || (op.id in w.tasks && !Terminal(w.tasks[op.id])
                && (v, o) == (if op.Run? then Save(w, Written(w.tasks[op.id], op, now), ok, now)
                              else Finish(w, Written(w.tasks[op.id], op, now), ok, now)))
  {
  }

  /** The transitions that act only on an unfinished record. */
  lemma TransitionKeeps(w: World, op: Op, ok: bool, now: int, id: Id)
    requires Inv(w) && ByTransition(op)
    ensures Inv(Apply(w, op, ok, now).0)
    ensures Finished(w, id) ==> Answer(Apply(w, op, ok, now).0, id) == Answer(w, id)
  {
    TransitionShape(w, op, ok, now);
    if op.id in w.tasks && !Terminal(w.tasks[op.id]) {
      var r := w.tasks[op.id];
      assert RecOk(w.disk, op.id, r);
      assert Answer(w, op.id).value.state == r.task.state;
      var r1 := Written(r, op, now);
      assert r1.task.id == op.id && !r1.pinned;
      SaveKeepsInv(w, r1, ok, now);
      SaveAnswers(w, r1, ok, now);
      FinishKeeps(w, r1, ok, now);
    }
  }

  /** Every critical section of a running broker keeps the agreement, and no answer leaves a terminal state. */
  lemma ApplyKeeps(w: World, op: Op, ok: bool, now: int, id: Id)
    requires Inv(w) && Fresh(w, op)
    ensures Inv(Apply(w, op, ok, now).0)
    ensures Finished(w, id) ==> Answer(Apply(w, op, ok, now).0, id) == Answer(w, id)
  {
    match op
    case Start(new_, session, prompt) => AdmitKeeps(w, new_, session, prompt, ok, now);
    case Emit(e) =>
      if e in w.tasks {
        var v := AppendEvent(w, e).0;
        assert v.tasks.Keys == w.tasks.Keys;
        forall x | x in v.tasks ensures RecOk(v.disk, x, v.tasks[x]) { assert RecOk(w.disk, x, w.tasks[x]); }
      }
    case Repolicy(maxTerminal, ttl) =>
      var w1 := w.(maxTerminal := maxTerminal, ttl := ttl);
      assert Answer(w1, id) == Answer(w, id);
      EvictKeeps(w1, now, {});
    case _ => TransitionKeeps(w, op, ok, now, id);
  }

  // ---- Recovery ----

  /** What a restart makes of an archive entry: finished tasks as they were, unfinished ones an explicit failure. */
  function Survivor(t: Task, now: int): Task {
    Seen(if t.state.Terminal() then t
         else t.(state := Errored, exit := 125, message := Restarted, finished := Some(now)))
  }

  predicate Recovering(w: World, entries: seq<Id>) {
    && w.store && OrderOk(w) && RecsOk(w) && DiskOk(w.disk)
    && NoDuplicates(entries) && (forall id :: id in entries ==> id in w.disk && id !in w.tasks)
    && DiskSettled(w, set id | id in entries)
  }

  /** One entry recovered, before eviction. */
  function Inserted(w: World, id: Id, now: int): World
    requires id in w.disk
  {
    var r := Recovered(w.disk[id], now);
    w.(tasks := w.tasks[id := r], order := w.order + [id],
       disk := if w.disk[id].state.Terminal() then w.disk else w.disk[r.task.id := Archived(r)])
  }

  lemma InsertKeeps(w: World, entries: seq<Id>, now: int)
    requires entries != [] && Recovering(w, entries)
    ensures var v := Inserted(w, entries[0], now);
            && v.store && OrderOk(v) && RecsOk(v) && DiskOk(v.disk) && v.disk.Keys == w.disk.Keys
            && DiskSettled(v, set id | id in entries[1..])
            && v.tasks.Keys == w.tasks.Keys + {entries[0]}
            && Answer(v, entries[0]) == Some(Survivor(w.disk[entries[0]], now))
    ensures var v := Inserted(w, entries[0], now); forall id :: id != entries[0] ==> Answer(v, id) == Answer(w, id)
  {
    var id, rest := entries[0], entries[1..];
    var v := Inserted(w, id, now);
    assert entries == [id] + rest;
    assert v.tasks.Keys == w.tasks.Keys + {id} && id !in w.order;
    forall x | x in v.tasks ensures RecOk(v.disk, x, v.tasks[x]) {
      if x != id { assert RecOk(w.disk, x, w.tasks[x]); }
    }
  }

  /** A recovered entry, after the eviction pass that follows it. */
  lemma RecoverOneKeeps(w: World, entries: seq<Id>, now: int)
    requires entries != [] && Recovering(w, entries)
    ensures var v := Evict(Inserted(w, entries[0], now), now);
            && Recovering(v, entries[1..]) && v.disk == Inserted(w, entries[0], now).disk && v.disk.Keys == w.disk.Keys
            && Answer(v, entries[0]) == Some(Survivor(w.disk[entries[0]], now))
    ensures var v := Evict(Inserted(w, entries[0], now), now); forall id :: id != entries[0] ==> Answer(v, id) == Answer(w, id)
  {
    var id, rest := entries[0], entries[1..];
    assert entries == [id] + rest && id !in rest;
    InsertKeeps(w, entries, now);
    EvictKeeps(Inserted(w, id, now), now, set x | x in rest);
  }

  lemma RecoverOneShape(w: World, id: Id, ok: bool, now: int)
    requires w.store && id in w.disk && w.disk[id].id == id
    ensures w.disk[id].state.Terminal() || ok ==> RecoverOne(w, id, ok, now) == (Evict(Inserted(w, id, now), now), true)
    ensures !w.disk[id].state.Terminal() && !ok ==> RecoverOne(w, id, ok, now) == (w.(storeErr := true), false)
  {
  }

  /** Recovery of a whole archive, with evictions in between and a write that may fail at any entry. */
  lemma {:induction false} RecoverKeeps(w: World, entries: seq<Id>, oks: nat -> bool, now: int, id: Id)
    requires Recovering(w, entries) && Listed(entries, w.disk)
    ensures var (v, started) := Recover(w, entries, oks, now);
            && DiskOk(v.disk) && v.disk.Keys == w.disk.Keys
            && (id in w.disk ==>
                  (Seen(v.disk[id]) == Seen(w.disk[id]) || (id in entries && Seen(v.disk[id]) == Survivor(w.disk[id], now))))
    ensures var (v, started) := Recover(w, entries, oks, now);
            started ==> Inv(v) && Answer(v, id) == if id in entries then Some(Survivor(w.disk[id], now)) else Answer(w, id)
    decreases |entries|
  {
    if entries == [] {
      assert (set x | x in entries) == {};
    } else {
      var first, rest, ok := entries[0], entries[1..], oks(|entries|);
      assert entries == [first] + rest && first !in rest;
      RecoverOneKeepsListed(w, first, ok, now, entries);
      RecoverOneShape(w, first, ok, now);
      if w.disk[first].state.Terminal() || ok {
        RecoverOneKeeps(w, entries, now);
        RecoverKeeps(Evict(Inserted(w, first, now), now), rest, oks, now, id);
      }
    }
  }

  /** A broker restarted over any archive: finished tasks answer as archived, unfinished ones 125, never done. */
  lemma RestartOutcome(s: System, h: Happening, t: System, id: Id)
    requires h.Restart? && StepBy(s, h, t)
    ensures SystemInv(t)
    ensures t.Up? ==> Answer(t.world, id) == if id in s.disk then Some(Survivor(s.disk[id], h.at)) else None
    ensures id in s.disk ==>
              id in Archive(t) && (Seen(Archive(t)[id]) == Seen(s.disk[id]) || Seen(Archive(t)[id]) == Survivor(s.disk[id], h.at))
  {
    var w := Blank(s.disk, h.concurrency, h.cap, h.life);
    assert Recovering(w, h.entries);
    assert id in s.disk <==> id in h.entries by {
      assert id in s.disk.Keys <==> id in (set x | x in h.entries);
    }
    RecoverKeeps(w, h.entries, h.oks, h.at, id);
  }

  // ---- Main results ----

  lemma StepKeepsInv(s: System, h: Happening, t: System)
    requires SystemInv(s) && StepBy(s, h, t)
    ensures SystemInv(t)
  {
    match h
    case Act(op, ok, now) => ApplyKeeps(s.world, op, ok, now, "");
    case Crash =>
    case Restart(_, _, _, _, _, _) => RestartOutcome(s, h, t, "");
  }

  lemma {:induction false} InvAt(tr: seq<System>, hs: seq<Happening>, i: nat)
    requires History(tr, hs) && i < |tr|
    ensures SystemInv(tr[i])
  {
    if i > 0 {
      InvAt(tr, hs, i - 1);
      assert StepBy(tr[i - 1], hs[i - 1], tr[i]);
      StepKeepsInv(tr[i - 1], hs[i - 1], tr[i]);
    }
  }

  /** The final record of a task: archived, and what a running broker answers. */
  predicate Settled(s: System, id: Id, v: Task) {
    && v.state.Terminal()
    && id in Archive(s) && Seen(Archive(s)[id]) == v
    && (s.Up? ==> Answer(s.world, id) == Some(v))
  }

  lemma FinishedEntryIsNotRewritten(w: World, op: Op, ok: bool, now: int, id: Id)
    requires Inv(w) && Fresh(w, op) && Finished(w, id) && id in w.disk
    ensures var v := Apply(w, op, ok, now).0; id in v.disk && v.disk[id] == w.disk[id]
  {
    if ByTransition(op) {
      TransitionShape(w, op, ok, now);
      if op.id in w.tasks && !Terminal(w.tasks[op.id]) {
        assert RecOk(w.disk, op.id, w.tasks[op.id]);
        assert Answer(w, op.id).value.state == w.tasks[op.id].task.state;
        var r1 := Written(w.tasks[op.id], op, now);
        assert op.id != id && r1.task.id == op.id;
        EvictKeepsDisk(Save(w, r1, ok, now).0, now);
      }
    } else {
      EvictKeepsDisk(w, now);
    }
  }

  lemma EvictKeepsDisk(w: World, now: int)
    ensures Evict(w, now).disk == w.disk
  {
  }

  lemma StepKeepsSettled(s: System, h: Happening, t: System, id: Id, v: Task)
    requires SystemInv(s) && StepBy(s, h, t) && Settled(s, id, v)
    ensures Settled(t, id, v)
  {
    assert Seen(Archive(s)[id]).state == Archive(s)[id].state;
    match h
    case Crash =>
    case Act(op, ok, now) =>
      ApplyKeeps(s.world, op, ok, now, id);
      FinishedEntryIsNotRewritten(s.world, op, ok, now, id);
    case Restart(_, _, _, _, _, _) => RestartOutcome(s, h, t, id);
  }

  /** What a terminal transition reports, in the terms of the call that made it. */
  predicate Promised(op: Op, v: Task)
    requires Ending(op)
  {
    match op
    case Complete(_, exit, codexSession, fellBack) => v.state.Done? && v.exit == exit && v.codexSession == codexSession && v.fellBack == fellBack
    case Fail(_, exit, reason) => v.state.Errored? && v.exit == exit && v.message == Reason(reason)
    case Stop(_) => v.state.Cancelled? && v.exit == 64
    case Interrupt(_, exit) => v.state.Cancelled? && v.exit == (if exit == 0 then 64 else exit)
  }

  lemma EndingSettles(w: World, op: Op, ok: bool, now: int)
    requires Inv(w) && Ending(op) && Apply(w, op, ok, now).1 == Ok
    ensures var t := Up(Apply(w, op, ok, now).0);
            Answer(t.world, op.id).Some? && Settled(t, op.id, Answer(t.world, op.id).value) && Promised(op, Answer(t.world, op.id).value)
  {
    TransitionShape(w, op, ok, now);
    var r1 := Written(w.tasks[op.id], op, now);
    assert RecOk(w.disk, op.id, w.tasks[op.id]);
    assert r1.task.id == op.id && !r1.pinned && ok;
    FinishKeeps(w, r1, ok, now);
    SaveKeepsInv(w, r1, ok, now);
    EvictKeeps(Save(w, r1, ok, now).0, now, {});
  }

  lemma {:induction false} SettledAt(tr: seq<System>, hs: seq<Happening>, i: nat, j: nat, id: Id, v: Task)
    requires History(tr, hs) && i <= j < |tr| && Settled(tr[i], id, v)
    ensures Settled(tr[j], id, v)
    decreases j
  {
    if i < j {
      SettledAt(tr, hs, i, j - 1, id, v);
      InvAt(tr, hs, j - 1);
      assert StepBy(tr[j - 1], hs[j - 1], tr[j]);
      StepKeepsSettled(tr[j - 1], hs[j - 1], tr[j], id, v);
    }
  }

  /** Once a terminal transition returns success, every broker that runs later gives the same answer for that task:
      after any evictions, failed writes of other tasks, crashes and restarts. */
  lemma TerminalOutcomeIsDurable(tr: seq<System>, hs: seq<Happening>, i: nat, j: nat)
    requires History(tr, hs) && i < j < |tr|
    requires hs[i].Act? && Ending(hs[i].op) && tr[i].Up?
    requires Apply(tr[i].world, hs[i].op, hs[i].ok, hs[i].now).1 == Ok
    ensures tr[j].Up? ==> Answer(tr[j].world, hs[i].op.id).Some? && Promised(hs[i].op, Answer(tr[j].world, hs[i].op.id).value)
    ensures tr[i + 1].Up?
    ensures tr[j].Up? ==> Answer(tr[j].world, hs[i].op.id) == Answer(tr[i + 1].world, hs[i].op.id)
  {
    var op := hs[i].op;
    InvAt(tr, hs, i);
    assert StepBy(tr[i], hs[i], tr[i + 1]);
    EndingSettles(tr[i].world, op, hs[i].ok, hs[i].now);
    var v := Answer(tr[i + 1].world, op.id).value;
    SettledAt(tr, hs, i + 1, j, op.id, v);
  }

  predicate Answers(s: System, id: Id, v: Task) {
    s.Up? && Answer(s.world, id) == Some(v)
  }

  lemma ActKeepsAnswer(s: System, h: Happening, t: System, id: Id, v: Task)
    requires SystemInv(s) && h.Act? && StepBy(s, h, t) && Answers(s, id, v) && v.state.Terminal()
    ensures Answers(t, id, v)
  {
    ApplyKeeps(s.world, h.op, h.ok, h.now, id);
  }

  lemma UpStepKeepsAnswer(tr: seq<System>, hs: seq<Happening>, k: nat, id: Id, v: Task)
    requires History(tr, hs) && k < |hs| && tr[k + 1].Up? && Answers(tr[k], id, v) && v.state.Terminal()
    ensures Answers(tr[k + 1], id, v)
  {
    InvAt(tr, hs, k);
    assert StepBy(tr[k], hs[k], tr[k + 1]);
    ActKeepsAnswer(tr[k], hs[k], tr[k + 1], id, v);
  }

  /** While one broker runs, no finished answer ever changes, even one whose write failed: the stale archive entry
      cannot come back through eviction. */
  lemma {:induction false} FinishedAnswerStays(tr: seq<System>, hs: seq<Happening>, i: nat, j: nat, id: Id, v: Task)
    requires History(tr, hs) && i <= j < |tr| && (forall k :: i <= k <= j ==> tr[k].Up?)
    requires Answers(tr[i], id, v) && v.state.Terminal()
    ensures Answers(tr[j], id, v)
    decreases j
  {
    if i < j {
      FinishedAnswerStays(tr, hs, i, j - 1, id, v);
      UpStepKeepsAnswer(tr, hs, j - 1, id, v);
    }
  }

  /** A finished answer outlives a crash and restart exactly when its record is not pinned by a failed write. */
  lemma SurvivesRestartIffNotPinned(w: World, h: Happening, t: System, id: Id)
    requires Inv(w) && Finished(w, id) && h.Restart? && StepBy(Down(w.disk), h, t) && t.Up?
    ensures Answer(t.world, id) == Answer(w, id) <==> !(id in w.tasks && w.tasks[id].pinned)
  {
    RestartOutcome(Down(w.disk), h, t, id);
    if id in w.tasks {
      var r := w.tasks[id];
      assert RecOk(w.disk, id, r);
      assert Answer(w, id) == Some(Seen(r.task));
      assert Seen(r.task).state == r.task.state && Seen(w.disk[id]).state == w.disk[id].state;
      if r.pinned {
        assert Survivor(w.disk[id], h.at).exit == 125 && Seen(r.task).exit == 1;
      }
    } else {
      assert Seen(w.disk[id]).state == w.disk[id].state;
    }
  }

  // ---- Deregistration, which neither persists nor evicts ----

  /** A task the deregistration of the session cancels. */
  predicate Hit(w: World, session: string, id: Id) {
    id in w.tasks && w.tasks[id].task.session == session && w.tasks[id].task.state.Queued?
  }

  /** It keeps memory and archive in agreement exactly when the session has no queued task. */
  lemma DeregisterKeepsAgreementIff(w: World, session: string, now: int)
    requires Inv(w)
    ensures Inv(DeregisterSession(w, session, now))
      <==> !exists id :: Hit(w, session, id)
  {
    var v := DeregisterSession(w, session, now);
    assert v.tasks.Keys == w.tasks.Keys;
    forall id | id in w.tasks
      ensures RecOk(v.disk, id, v.tasks[id]) <==> !Hit(w, session, id)
    {
      var r := w.tasks[id];
      assert RecOk(w.disk, id, r);
      assert Seen(w.disk[id]).state == w.disk[id].state && Seen(v.tasks[id].task).state == v.tasks[id].task.state;
      assert Seen(r.task).state == r.task.state;
    }
  }

  lemma DeregisterAnswers(w: World, session: string, now: int, id: Id)
    requires Inv(w)
    ensures var v := DeregisterSession(w, session, now);
            && (!Hit(w, session, id) ==> Answer(v, id) == Answer(w, id))
            && (Hit(w, session, id) ==>
                  Answer(v, id).Some? && Answer(v, id).value.state.Cancelled? && Answer(v, id).value.exit == 64
                  && id in w.disk && w.disk[id].state.Queued?)
  {
    if Hit(w, session, id) {
      assert RecOk(w.disk, id, w.tasks[id]);
      assert Seen(w.disk[id]).state == w.disk[id].state && Seen(w.tasks[id].task).state == w.tasks[id].task.state;
    }
  }

  /** What then goes wrong: whatever else the table holds, the cancelled task is evicted as if it were archived, and
      queries find it queued again. */
  lemma DeregisteredTaskResurfaces(w: World, session: string, now: int, id: Id)
    requires Inv(w) && Hit(w, session, id)
    ensures var v := DeregisterSession(w, session, now);
            var u := SetEvictionPolicy(v, 0, 1, now + 2);
            && Answer(v, id).Some? && Answer(v, id).value.state.Cancelled?
            && Answer(u, id).Some? && Answer(u, id).value.state.Queued?
  {
    DeregisterAnswers(w, session, now, id);
    var v := DeregisterSession(w, session, now);
    assert Expired(v.tasks[id], 1, now + 2);
    assert id !in Unexpired(v.tasks, 1, now + 2);
    assert Seen(w.disk[id]).state == w.disk[id].state;
  }

  /** An eviction pass over a table with such tasks: any other record is evicted only if its archive entry says the same. */
  lemma EvictKeepsAnswer(v: World, now: int, id: Id)
    requires v.store && OrderOk(v) && (id in v.tasks ==> RecOk(v.disk, id, v.tasks[id]))
    ensures Answer(Evict(v, now), id) == Answer(v, id)
  {
    EvictIsSafe(v, now);
    if id in v.tasks && id !in Evict(v, now).tasks {
      assert Seen(v.disk[id]) == Seen(v.tasks[id].task);
    }
  }

  /** The deregistration leaves the answer for a task to every later eviction pass exactly when it did not cancel it. */
  lemma EvictionKeepsAnswerIff(w: World, session: string, now: int, id: Id)
    requires Inv(w)
    ensures var v := DeregisterSession(w, session, now);
            (forall cap, ttl, at :: Answer(SetEvictionPolicy(v, cap, ttl, at), id) == Answer(v, id)) <==> !Hit(w, session, id)
  {
    var v := DeregisterSession(w, session, now);
    if Hit(w, session, id) {
      DeregisteredTaskResurfaces(w, session, now, id);
      assert Answer(SetEvictionPolicy(v, 0, 1, now + 2), id) != Answer(v, id);
    } else {
      assert v.tasks.Keys == w.tasks.Keys;
      if id in w.tasks { assert RecOk(w.disk, id, w.tasks[id]) && v.tasks[id] == w.tasks[id]; }
      forall cap, ttl, at ensures Answer(SetEvictionPolicy(v, cap, ttl, at), id) == Answer(v, id) {
        EvictKeepsAnswer(v.(maxTerminal := cap, ttl := ttl), at, id);
        assert Answer(v.(maxTerminal := cap, ttl := ttl), id) == Answer(v, id);
      }
    }
  }

  /** So all answers survive every eviction pass exactly when the session had no queued task. */
  lemma DeregisterIsDurableIff(w: World, session: string, now: int)
    requires Inv(w)
    ensures var v := DeregisterSession(w, session, now);
            (forall id, cap, ttl, at :: Answer(SetEvictionPolicy(v, cap, ttl, at), id) == Answer(v, id))
              <==> !exists id :: Hit(w, session, id)
  {
    var v := DeregisterSession(w, session, now);
    forall id
      ensures (forall cap, ttl, at :: Answer(SetEvictionPolicy(v, cap, ttl, at), id) == Answer(v, id)) <==> !Hit(w, session, id)
    {
      EvictionKeepsAnswerIff(w, session, now, id);
    }
  }

  /** And a finished answer outlives a crash and restart exactly when its record is not pinned and the deregistration did
      not cancel it: a cancelled one comes back as a restart failure. */
  lemma DeregisteredSurvivesRestartIff(w: World, session: string, now: int, h: Happening, t: System, id: Id)
    requires Inv(w) && Finished(DeregisterSession(w, session, now), id)
    requires h.Restart? && StepBy(Down(DeregisterSession(w, session, now).disk), h, t) && t.Up?
    ensures Answer(t.world, id) == Answer(DeregisterSession(w, session, now), id)
      <==> !(id in w.tasks && w.tasks[id].pinned) && !Hit(w, session, id)
  {
    DeregisterAnswers(w, session, now, id);
    if Hit(w, session, id) {
      RestartOutcome(Down(w.disk), h, t, id);
      assert RecOk(w.disk, id, w.tasks[id]);
      assert Answer(t.world, id).value.exit == 125;
    } else {
      SurvivesRestartIffNotPinned(w, h, t, id);
    }
  }

  /** The archived event count lags: an event appended after the last write is forgotten on eviction. */
  lemma EventCountLags(w: World, id: Id)
    requires Inv(w) && id in w.tasks && !w.tasks[id].pinned && w.disk[id] == Archived(w.tasks[id])
    ensures var v := AppendEvent(w, id).0;
            Inv(v) && Status(v, id).value.eventCount == v.disk[id].eventCount + 1
  {
    ApplyKeeps(w, Emit(id), true, 0, id);
  }
}
