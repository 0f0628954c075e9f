/** Broker runs: the handlers of dispatch.run and task.start, from admission to exit, against task.cancel, context
    cancellation, per-turn deadlines, child death and failed archive writes. Each handler is a program counter over
    the shared task table, the run-slot semaphore, its cancel registration and its own turn. */
module Lifecycle {
  import opened TaskTable
  import D = Durability
  import P = TurnPump

  /** ctx.Err() of the task's context. */
  datatype Ctx = Live | Canceled | Expired

  /** The wire result of a run; `late` marks the deadline arm. */
  datatype Wire = Wire(state: State, exit: int, late: bool)

  datatype Pc =
    | Admitted | Registered | Acquiring | GivingUp | Granted
    | Opening | OpenFailed | Setup | Starting | HandleReady
    | Draining | CheckCtx | Collect | Completing(turn: P.Option<P.Turn>)
    | Cancelling | TimedOut | Failing | FailCancel | FailMark
    | DoneFailed | CancelReport | FailStatus
    | Leaving(wire: Option<Wire>) | Cleaning(wire: Option<Wire>) | Exited(wire: Option<Wire>)

  /** The goroutine of a task.cancel whose table transition went through. */
  datatype Killer = KIdle | KLookup | KFound(handle: bool) | KSpawn(handle: bool) | KDone

  datatype Handler = Handler(
    pc: Pc, ctx: Ctx,
    registered: bool,         // in taskCancels
    handle: bool,             // the registration knows the turn handle
    killer: Killer,
    mayCancel: bool,          // cancelTask has started handle.Cancel
    interrupting: bool,       // the drain has started handle.Cancel
    holds: bool,              // between acquireRunSlot and releaseRunSlot
    turn: P.Option<P.State>)

  datatype Sys = Sys(world: World, taken: nat, handlers: map<Id, Handler>)

  // ---- Steps of one handler that touch only the handler ----

  predicate Register(h: Handler, k: Handler) {
    h.pc.Admitted? && k == h.(pc := Registered, registered := true)
  }

  /** acquireRunSlot's ctx arm. */
  predicate GiveUp(h: Handler, k: Handler) {
    h.pc.Acquiring? && !h.ctx.Live? && k == h.(pc := GivingUp)
  }

  predicate OpenLog(h: Handler, k: Handler, opened_: bool) {
    h.pc.Opening? && k == h.(pc := if opened_ then Setup else OpenFailed)
  }

  /** Any setup step of runDispatchOn that fails before turn/start. */
  predicate SetupFails(h: Handler, k: Handler) {
    h.pc.Setup? && k == h.(pc := Failing)
  }

  predicate BeginTurn(h: Handler, k: Handler, turn: P.State) {
    h.pc.Setup? && P.Init(turn) && k == h.(pc := Starting, turn := P.Some(turn))
  }

  predicate StartReturns(h: Handler, k: Handler) {
    && h.pc.Starting? && h.turn.Some?
    && (h.turn.value.starter.SStarted? || h.turn.value.starter.SFailed?)
    && k == h.(pc := if h.turn.value.starter.SStarted? then HandleReady else Failing)
  }

  /** registerTurnHandle. */
  predicate RegisterHandle(h: Handler, k: Handler) {
    h.pc.HandleReady? && k == h.(pc := Draining, handle := h.registered)
  }

  predicate RelayEvent(h: Handler, k: Handler, turn: P.State) {
    && h.pc.Draining? && h.turn.Some? && P.TakeEvent(h.turn.value, turn)
    && k == h.(turn := P.Some(turn))
  }

  predicate SeeEventsClosed(h: Handler, k: Handler) {
    && h.pc.Draining? && h.turn.Some? && h.turn.value.eventsClosed && |h.turn.value.events| == 0
    && k == h.(pc := CheckCtx)
  }

  /** `case <-ctx.Done()`. */
  predicate SeeDone(h: Handler, k: Handler) {
    h.pc.Draining? && !h.ctx.Live? && k == h.(pc := Cancelling, interrupting := true)
  }

  /** `case <-deadlineCh`. */
  predicate SeeDeadline(h: Handler, k: Handler) {
    h.pc.Draining? && k == h.(pc := TimedOut, interrupting := true)
  }

  /** `if ctx.Err() != nil` after the events channel closed. */
  predicate LoadCtx(h: Handler, k: Handler) {
    h.pc.CheckCtx? && k == h.(pc := if h.ctx.Live? then Collect else Cancelling)
  }

  predicate CollectTurn(h: Handler, k: Handler, turn: P.State) {
    && h.pc.Collect? && h.turn.Some? && P.TakeResult(h.turn.value, turn)
    && k == h.(pc := Completing(h.turn.value.result), turn := P.Some(turn))
  }

  predicate CollectNil(h: Handler, k: Handler) {
    && h.pc.Collect? && h.turn.Some? && h.turn.value.result.None? && h.turn.value.resultClosed
    && k == h.(pc := Completing(P.None))
  }

  /** dispatchFailure's `errors.Is(ctx.Err(), context.Canceled)`. */
  predicate LoadFailCtx(h: Handler, k: Handler) {
    h.pc.Failing? && k == h.(pc := if h.ctx.Canceled? then FailCancel else FailMark)
  }

  /** cleanup: drop the registration and cancel the context. */
  predicate Cleanup(h: Handler, k: Handler) {
    && h.pc.Cleaning?
    && k == h.(pc := Exited(h.pc.wire), registered := false, ctx := if h.ctx.Live? then Canceled else h.ctx)
  }

  // ---- Steps of others against the handler ----

  predicate ParentEnds(h: Handler, k: Handler, why: Ctx) {
    h.ctx.Live? && !why.Live? && k == h.(ctx := why)
  }

  predicate KillLookup(h: Handler, k: Handler) {
    h.killer.KLookup? && k == h.(killer := if h.registered then KFound(h.handle) else KDone)
  }

  /** `cancel()` comes before the goroutine that calls handle.Cancel is started. */
  predicate KillCtx(h: Handler, k: Handler) {
    && h.killer.KFound?
    && k == h.(killer := KSpawn(h.killer.handle), ctx := if h.ctx.Live? then Canceled else h.ctx)
  }

  predicate KillSpawn(h: Handler, k: Handler) {
    h.killer.KSpawn? && k == h.(killer := KDone, mayCancel := h.mayCancel || h.killer.handle)
  }

  /** The reader, the pump, StartTurn or a Cancel under way, or another turn of the same thread that deletes this one's
      entry; a new Cancel call needs a goroutine that was started. */
  ghost predicate TurnMove(h: Handler, k: Handler, turn: P.State) {
    && h.turn.Some? && k == h.(turn := P.Some(turn))
    && (P.Internal(h.turn.value, turn) || P.Disown(h.turn.value, turn)
        || (P.CancelCall(h.turn.value, turn) && (h.mayCancel || h.interrupting)))
  }

  // Groups of two, for the proofs.

  ghost predicate Entering(h: Handler, k: Handler) { Register(h, k) || GiveUp(h, k) }

  ghost predicate Preparing(h: Handler, k: Handler) { (exists b :: OpenLog(h, k, b)) || SetupFails(h, k) }

  ghost predicate Launching(h: Handler, k: Handler) { (exists turn :: BeginTurn(h, k, turn)) || StartReturns(h, k) }

  ghost predicate Listening(h: Handler, k: Handler) { RegisterHandle(h, k) || (exists turn :: RelayEvent(h, k, turn)) }

  ghost predicate Interrupted(h: Handler, k: Handler) { SeeDone(h, k) || SeeDeadline(h, k) }

  ghost predicate Judging(h: Handler, k: Handler) { SeeEventsClosed(h, k) || LoadCtx(h, k) }

  ghost predicate Collecting(h: Handler, k: Handler) { (exists turn :: CollectTurn(h, k, turn)) || CollectNil(h, k) }

  ghost predicate Ending(h: Handler, k: Handler) { LoadFailCtx(h, k) || Cleanup(h, k) }

  ghost predicate Killing(h: Handler, k: Handler) { KillLookup(h, k) || KillCtx(h, k) }

  ghost predicate Outside(h: Handler, k: Handler) { KillSpawn(h, k) || (exists why :: ParentEnds(h, k, why)) }

  ghost predicate Private(h: Handler, k: Handler) {
    || Entering(h, k) || Preparing(h, k) || Launching(h, k) || Listening(h, k) || Interrupted(h, k)
    || Judging(h, k) || Collecting(h, k) || Ending(h, k) || Killing(h, k) || Outside(h, k)
    || exists turn :: TurnMove(h, k, turn)
  }

  // ---- Steps on the task table ----

  function TurnToExit(turn: P.Option<P.Turn>): int {
    match turn
    case None => 64
    case Some(t) =>
      match t.status
      case Completed => 0
      case Failed => 2
      case Cancelled => 64
      case Unknown(_) => 64
  }

  predicate Committing(pc: Pc) {
    || pc.GivingUp? || pc.Granted? || pc.OpenFailed? || pc.Completing?
    || pc.Cancelling? || pc.TimedOut? || pc.FailCancel? || pc.FailMark?
  }

  /** The table transition a handler makes; the thread id, fallback flag and error text are whatever they are. */
  function Commit(pc: Pc, id: Id, thread: string, fellBack: bool, text: string): D.Op
    requires Committing(pc)
  {
    match pc
    case Granted => D.Run(id)
    case OpenFailed => D.Fail(id, -1, text)
    case Completing(turn) => D.Complete(id, TurnToExit(turn), thread, fellBack)
    case Cancelling => D.Interrupt(id, 64)
    case FailCancel => D.Interrupt(id, 64)
    case _ => D.Fail(id, 64, text)
  }

  /** Where each arm goes, given the error of its transition. */
  function AfterCommit(pc: Pc, o: Outcome): Pc
    requires Committing(pc)
  {
    var nil := o == Ok || o == Unchanged;
    match pc
    case Granted => if nil then Opening else Leaving(None)
    case GivingUp => Leaving(None)
    case OpenFailed => Leaving(None)
    case Completing(turn) => if nil then Leaving(Some(Wire(Done, TurnToExit(turn), false))) else DoneFailed
    case Cancelling => CancelReport
    case TimedOut => Leaving(Some(Wire(Errored, 64, true)))
    case FailCancel => FailMark
    case FailMark => if nil then Leaving(Some(Wire(Errored, 64, false))) else FailStatus
  }

  predicate Reading(pc: Pc) { pc.Registered? || pc.DoneFailed? || pc.CancelReport? || pc.FailStatus? }

  /** What a handler makes of the status it reads back. */
  function AfterRead(pc: Pc, st: Option<Task>): Pc
    requires Reading(pc)
  {
    match pc
    case Registered =>
      if st.Some? && st.value.state.Cancelled? then Leaving(Some(Wire(Cancelled, st.value.exit, false))) else Acquiring
    case CancelReport => Leaving(Some(Wire(Cancelled, if st.Some? then st.value.exit else 0, false)))
    case _ =>
      if st.Some? && st.value.state.Terminal() then Leaving(Some(Wire(st.value.state, st.value.exit, false)))
      else Leaving(Some(Wire(Errored, 64, false)))
  }

  datatype Act =
    | Admission(session: string, prompt: string, ok: bool, now: int)
    | Moving(next: Handler)
    | Acquire
    | Transition(thread: string, fellBack: bool, text: string, ok: bool, now: int)
    | Query
    | Release
    | Kill(ok: bool, now: int)
    | Emission
    | Policy(maxTerminal: nat, ttl: nat, now: int)

  const NEWCOMER := Handler(Admitted, Live, false, false, KIdle, false, false, false, P.None)

  ghost predicate StepBy(s: Sys, id: Id, act: Act, t: Sys) {
    match act
    case Admission(session, prompt, ok, now) =>
      && D.Fresh(s.world, D.Start(id, session, prompt)) && id !in s.handlers
      && var (v, o) := Admit(s.world, id, session, prompt, ok, now);
         t == s.(world := v, handlers := if o == Ok then s.handlers[id := NEWCOMER] else s.handlers)
    case Moving(next) =>
      id in s.handlers && Private(s.handlers[id], next) && t == s.(handlers := s.handlers[id := next])
    case Acquire =>
      && id in s.handlers && s.handlers[id].pc.Acquiring? && s.taken < s.world.concurrency
      && t == s.(taken := s.taken + 1, handlers := s.handlers[id := s.handlers[id].(pc := Granted, holds := true)])
    case Transition(thread, fellBack, text, ok, now) =>
      && id in s.handlers && Committing(s.handlers[id].pc)
      && var h := s.handlers[id];
         var (v, o) := D.Apply(s.world, Commit(h.pc, id, thread, fellBack, text), ok, now);
         t == s.(world := v, handlers := s.handlers[id := h.(pc := AfterCommit(h.pc, o))])
    case Query =>
      && id in s.handlers && Reading(s.handlers[id].pc)
      && var h := s.handlers[id];
         t == s.(handlers := s.handlers[id := h.(pc := AfterRead(h.pc, Status(s.world, id)))])
    case Release =>
      && id in s.handlers && s.handlers[id].pc.Leaving?
      && var h := s.handlers[id];
         t == s.(taken := if h.holds && s.taken > 0 then s.taken - 1 else s.taken,
                 handlers := s.handlers[id := h.(pc := Cleaning(h.pc.wire), holds := false)])
    case Kill(ok, now) =>
      var (v, o) := D.Apply(s.world, D.Stop(id), ok, now);
      t == s.(world := v, handlers := if id in s.handlers && (o == Ok || o == StoreFailed)
                                      then s.handlers[id := s.handlers[id].(killer := KLookup)] else s.handlers)
    case Emission => t == s.(world := D.Apply(s.world, D.Emit(id), true, 0).0)
    case Policy(maxTerminal, ttl, now) => t == s.(world := D.Apply(s.world, D.Repolicy(maxTerminal, ttl), true, now).0)
  }

  ghost predicate Step(s: Sys, t: Sys) {
    exists id, act :: StepBy(s, id, act, t)
  }

  /** A broker that has just recovered its archive: no handler, every task terminal. */
  predicate Init(s: Sys) {
    && D.Inv(s.world) && NonTerminals(s.world.tasks) == {}
    && s.taken == 0 && s.handlers == map[]
  }

  ghost predicate Behavior(tr: seq<Sys>) {
    && |tr| > 0 && Init(tr[0])
    && forall i, j :: 0 <= i < |tr| && 0 <= j < |tr| && j == i + 1 ==> Step(tr[i], tr[j])
  }

  // ---- One task's entry as a register: what each transition does to the answer a query gets ----

  predicate Allowed(op: D.Op, state: State)
    requires D.ByTransition(op)
  {
    match op
    case Run(_) => state.Queued?
    case Complete(_, _, _, _) => state.Running?
    case _ => !state.Terminal()
  }

  function Target(op: D.Op): (State, int)
    requires D.ByTransition(op)
  {
    match op
    case Run(_) => (Running, 0)
    case Complete(_, exit, _, _) => (Done, exit)
    case Fail(_, exit, _) => (Errored, exit)
    case Stop(_) => (Cancelled, 64)
    case Interrupt(_, exit) => (Cancelled, if exit == 0 then 64 else exit)
  }

  /** The answer before, the transition, its outcome and the answer after. */
  predicate Effect(a: Task, op: D.Op, o: Outcome, b: Task)
    requires D.ByTransition(op)
  {
    if Allowed(op, a.state) then
      || (o == Ok && b.state == Target(op).0 && (!op.Run? ==> b.exit == Target(op).1))
      || (o == StoreFailed && b.exit == 1 && b.state == if Target(op).0.Cancelled? then Cancelled else Errored)
    else b == a && o != Ok && o != StoreFailed && (o == Unchanged ==> op.Interrupt?)
  }

  predicate Known(w: World, id: Id) {
    D.Answer(w, id).Some?
  }

  function Entry(w: World, id: Id): Task
    requires Known(w, id)
  {
    D.Answer(w, id).value
  }

  /** A terminal or open answer is a terminal or open record. */
  lemma AnswerIsRecord(w: World, id: Id)
    requires D.Inv(w)
    ensures Known(w, id) <==> id in w.disk
    ensures id in w.tasks ==> Known(w, id) && Entry(w, id).state == w.tasks[id].task.state
    ensures Known(w, id) && id !in w.tasks ==> Entry(w, id).state.Terminal()
    ensures id in NonTerminals(w.tasks) <==> Known(w, id) && !Entry(w, id).state.Terminal()
  {
    if id in w.tasks { assert D.RecOk(w.disk, id, w.tasks[id]); }
    else if id in w.disk { assert w.disk[id].state.Terminal(); }
  }

  lemma TransitionEffect(w: World, op: D.Op, ok: bool, now: int)
    requires D.Inv(w) && D.ByTransition(op) && Known(w, op.id)
    ensures var (v, o) := D.Apply(w, op, ok, now);
            && D.Inv(v) && Known(v, op.id) && Effect(Entry(w, op.id), op, o, Entry(v, op.id))
            && forall x :: x != op.id ==> D.Answer(v, x) == D.Answer(w, x)
  {
    AnswerIsRecord(w, op.id);
    D.TransitionShape(w, op, ok, now);
    D.ApplyKeeps(w, op, ok, now, op.id);
    if op.id in w.tasks && !Terminal(w.tasks[op.id]) {
      var r := w.tasks[op.id];
      assert D.RecOk(w.disk, op.id, r);
      var r1 := D.Written(r, op, now);
      assert r1.task.id == op.id && !r1.pinned;
      D.SaveAnswers(w, r1, ok, now);
      D.FinishKeeps(w, r1, ok, now);
    }
  }

  // ---- The inductive invariant ----

  predicate Waiting(pc: Pc) { pc.Admitted? || pc.Registered? || pc.Acquiring? || pc.GivingUp? || pc.Granted? }

  predicate Over(pc: Pc) {
    pc.DoneFailed? || pc.CancelReport? || pc.FailStatus? || pc.Leaving? || pc.Cleaning? || pc.Exited?
  }

  predicate Returning(pc: Pc) { pc.Leaving? || pc.Cleaning? || pc.Exited? }

  /** From acquireRunSlot to releaseRunSlot. */
  predicate SlotPc(pc: Pc) {
    !pc.Admitted? && !pc.Registered? && !pc.Acquiring? && !pc.GivingUp? && !pc.Cleaning? && !pc.Exited?
  }

  /** StartTurn has returned a handle and the drain is not over. */
  predicate Watching(pc: Pc) { pc.HandleReady? || pc.Draining? || pc.CheckCtx? }

  /** The wire result says what the table says, except that the deadline arm may miss a cancellation. */
  predicate Matches(a: Task, w: Wire) {
    if w.late then w.state.Errored? && w.exit == 64 && (a.state.Errored? || a.state.Cancelled?)
    else a.state == w.state && a.exit == w.exit
  }

  /** The table's entry against the handler's position. */
  predicate TableInv(a: Task, h: Handler) {
    && (Waiting(h.pc) ==> a.state.Queued? || a.state.Cancelled?)
    && (!Waiting(h.pc) && !Over(h.pc) ==> a.state.Running? || a.state.Cancelled?)
    && (Over(h.pc) ==> a.state.Terminal())
    && (h.pc.CancelReport? ==> a.state.Cancelled?)
    && (h.pc.DoneFailed? || h.pc.FailStatus? ==> !a.state.Done?)
    && (Returning(h.pc) && h.pc.wire.Some? ==> Matches(a, h.pc.wire.value))
    && (!h.killer.KIdle? ==> a.state.Cancelled?)
  }

  /** Control facts of the handler and of the goroutines around it. */
  predicate ControlInv(h: Handler) {
    && (h.holds ==> SlotPc(h.pc))
    && (SlotPc(h.pc) && !Returning(h.pc) ==> h.holds)
    && (h.mayCancel || h.killer.KSpawn? ==> !h.ctx.Live?)
    && (h.interrupting ==> h.pc.Cancelling? || h.pc.CancelReport? || h.pc.TimedOut? || Returning(h.pc))
    && (h.pc.Starting? || Watching(h.pc) || h.pc.Collect? || h.pc.Completing? ==> h.turn.Some?)
  }

  /** A turn nobody has cancelled while its context is live, and whose verdict is still in the result channel. */
  predicate Uncancelled(h: Handler, turn: P.State) {
    (turn.canceller.CIdle? || h.mayCancel) && turn.result == turn.reported
  }

  /** The verdict of a turn whose pump left through the closed inbox. */
  predicate Judged(turn: P.State, verdict: P.Option<P.Turn>) {
    turn.naturalExit && verdict == P.Verdict(turn.routed)
  }

  predicate TurnInv(h: Handler) {
    h.turn.Some? ==>
      var turn := h.turn.value;
      && P.Inv(turn)
      && (h.pc.Starting? || Watching(h.pc) ==> Uncancelled(h, turn))
      && (Watching(h.pc) ==> turn.starter.SStarted?)
      && (h.pc.CheckCtx? || h.pc.Collect? ==> turn.eventsClosed)
      && (h.pc.Collect? ==> turn.naturalExit && turn.result == turn.reported)
      && (h.pc.Completing? ==> Judged(turn, h.pc.turn))
  }

  /** A run reported done carries the exit code of the verdict. */
  predicate DoneInv(h: Handler) {
    Returning(h.pc) && h.pc.wire.Some? && h.pc.wire.value.state.Done? ==>
      h.turn.Some? && h.turn.value.naturalExit && h.pc.wire.value.exit == TurnToExit(P.Verdict(h.turn.value.routed))
  }

  predicate HandlerInv(a: Task, h: Handler) {
    TableInv(a, h) && ControlInv(h) && TurnInv(h) && DoneInv(h)
  }

  // ---- Steps of one handler ----

  /** A task.cancel that got past the table is never forgotten. */
  predicate StaysKilled(h: Handler, k: Handler) {
    !h.killer.KIdle? ==> !k.killer.KIdle?
  }

  lemma EnteringKeeps(a: Task, h: Handler, k: Handler)
    requires HandlerInv(a, h) && Entering(h, k)
    ensures HandlerInv(a, k) && k.holds == h.holds && StaysKilled(h, k)
  {
    if Register(h, k) { assert HandlerInv(a, k); } else { assert HandlerInv(a, k); }
  }

  lemma PreparingKeeps(a: Task, h: Handler, k: Handler)
    requires HandlerInv(a, h) && Preparing(h, k)
    ensures HandlerInv(a, k) && k.holds == h.holds && StaysKilled(h, k)
  {
    if SetupFails(h, k) { assert HandlerInv(a, k); } else { assert HandlerInv(a, k); }
  }

  lemma LaunchingKeeps(a: Task, h: Handler, k: Handler)
    requires HandlerInv(a, h) && Launching(h, k)
    ensures HandlerInv(a, k) && k.holds == h.holds && StaysKilled(h, k)
  {
    if StartReturns(h, k) {
      assert HandlerInv(a, k);
    } else {
      var turn :| BeginTurn(h, k, turn);
      FreshTurn(turn);
      assert HandlerInv(a, k);
    }
  }

  lemma FreshTurn(turn: P.State)
    requires P.Init(turn)
    ensures P.Inv(turn) && turn.canceller.CIdle? && turn.result == turn.reported
  {
    P.InitInv(turn);
  }

  lemma ListeningKeeps(a: Task, h: Handler, k: Handler)
    requires HandlerInv(a, h) && Listening(h, k)
    ensures HandlerInv(a, k) && k.holds == h.holds && StaysKilled(h, k)
  {
    if RegisterHandle(h, k) {
      assert HandlerInv(a, k);
    } else {
      var turn :| RelayEvent(h, k, turn);
      RelayKeepsTurn(h.turn.value, turn);
      assert HandlerInv(a, k);
    }
  }

  lemma RelayKeepsTurn(s: P.State, t: P.State)
    requires P.Inv(s) && P.TakeEvent(s, t)
    ensures P.Inv(t) && t.canceller == s.canceller && t.result == s.result && t.reported == s.reported && t.starter == s.starter
  {
    P.StepKeepsInv(s, t);
  }

  lemma InterruptedKeeps(a: Task, h: Handler, k: Handler)
    requires HandlerInv(a, h) && Interrupted(h, k)
    ensures HandlerInv(a, k) && k.holds == h.holds && StaysKilled(h, k)
  {
    if SeeDone(h, k) { assert TableInv(a, k) && ControlInv(k) && DoneInv(k); } else { assert TableInv(a, k) && ControlInv(k) && DoneInv(k); }
    assert TurnInv(k);
  }

  /** Events closed under a live context: the reader closed them, so the pump left through the closed inbox. */
  lemma ClosedByReader(h: Handler)
    requires TurnInv(h) && ControlInv(h) && h.pc.CheckCtx? && h.ctx.Live?
    ensures h.turn.value.naturalExit && h.turn.value.reported == P.Verdict(h.turn.value.routed)
  {
    P.VerdictIsFinal(h.turn.value);
  }

  lemma JudgingKeeps(a: Task, h: Handler, k: Handler)
    requires HandlerInv(a, h) && Judging(h, k)
    ensures HandlerInv(a, k) && k.holds == h.holds && StaysKilled(h, k)
  {
    if SeeEventsClosed(h, k) { SeeClosedKeeps(a, h, k); } else { LoadCtxKeeps(a, h, k); }
  }

  lemma SeeClosedKeeps(a: Task, h: Handler, k: Handler)
    requires HandlerInv(a, h) && SeeEventsClosed(h, k)
    ensures HandlerInv(a, k) && k.holds == h.holds && StaysKilled(h, k)
  {
    assert TableInv(a, k) && ControlInv(k) && DoneInv(k);
    assert TurnInv(k);
  }

  lemma LoadCtxKeeps(a: Task, h: Handler, k: Handler)
    requires HandlerInv(a, h) && LoadCtx(h, k)
    ensures HandlerInv(a, k) && k.holds == h.holds && StaysKilled(h, k)
  {
    if h.ctx.Live? { ClosedByReader(h); }
    assert TableInv(a, k) && ControlInv(k) && DoneInv(k);
    assert TurnInv(k);
  }

  lemma CollectingKeeps(a: Task, h: Handler, k: Handler)
    requires HandlerInv(a, h) && Collecting(h, k)
    ensures HandlerInv(a, k) && k.holds == h.holds && StaysKilled(h, k)
  {
    if CollectNil(h, k) {
      CollectNilKeeps(a, h, k);
    } else {
      var turn :| CollectTurn(h, k, turn);
      CollectTurnKeeps(a, h, k, turn);
    }
  }

  lemma CollectNilKeeps(a: Task, h: Handler, k: Handler)
    requires HandlerInv(a, h) && CollectNil(h, k)
    ensures HandlerInv(a, k) && k.holds == h.holds && StaysKilled(h, k)
  {
    ResultIsVerdict(h.turn.value);
    assert TableInv(a, k) && ControlInv(k) && DoneInv(k);
    assert TurnInv(k);
  }

  lemma CollectTurnKeeps(a: Task, h: Handler, k: Handler, turn: P.State)
    requires HandlerInv(a, h) && CollectTurn(h, k, turn)
    ensures HandlerInv(a, k) && k.holds == h.holds && StaysKilled(h, k)
  {
    ResultIsVerdict(h.turn.value);
    TakeKeepsTurn(h.turn.value, turn);
    assert TableInv(a, k) && ControlInv(k) && DoneInv(k);
    assert TurnInv(k);
  }

  lemma ResultIsVerdict(turn: P.State)
    requires P.Inv(turn) && turn.naturalExit && turn.eventsClosed && turn.result == turn.reported
    ensures turn.result == P.Verdict(turn.routed)
  {
    P.VerdictIsFinal(turn);
  }

  lemma TakeKeepsTurn(s: P.State, t: P.State)
    requires P.Inv(s) && P.TakeResult(s, t)
    ensures P.Inv(t) && t.naturalExit == s.naturalExit && t.routed == s.routed
  {
    P.StepKeepsInv(s, t);
  }

  lemma EndingKeeps(a: Task, h: Handler, k: Handler)
    requires HandlerInv(a, h) && Ending(h, k)
    ensures HandlerInv(a, k) && k.holds == h.holds && StaysKilled(h, k)
  {
    if LoadFailCtx(h, k) { assert HandlerInv(a, k); } else { assert HandlerInv(a, k); }
  }

  lemma KillingKeeps(a: Task, h: Handler, k: Handler)
    requires HandlerInv(a, h) && Killing(h, k)
    ensures HandlerInv(a, k) && k.holds == h.holds && StaysKilled(h, k)
  {
    if KillLookup(h, k) { assert HandlerInv(a, k); } else { assert HandlerInv(a, k); }
  }

  lemma OutsideKeeps(a: Task, h: Handler, k: Handler)
    requires HandlerInv(a, h) && Outside(h, k)
    ensures HandlerInv(a, k) && k.holds == h.holds && StaysKilled(h, k)
  {
    if KillSpawn(h, k) { assert HandlerInv(a, k); } else { assert HandlerInv(a, k); }
  }

  /** What any move of the turn itself keeps. */
  predicate Advanced(s: P.State, t: P.State, allowed: bool) {
    && P.Inv(t)
    && (s.starter.SStarted? ==> t.starter.SStarted?)
    && (s.eventsClosed ==> t.eventsClosed)
    && (s.naturalExit ==> t.naturalExit && t.routed == s.routed)
    && (s.result == s.reported ==> t.result == t.reported)
    && (s.canceller.CIdle? && !allowed ==> t.canceller.CIdle?)
  }

  lemma TurnAdvances(s: P.State, t: P.State, allowed: bool)
    requires P.Inv(s) && (P.Internal(s, t) || P.Disown(s, t) || (P.CancelCall(s, t) && allowed))
    ensures Advanced(s, t, allowed)
  {
    if P.Disown(s, t) { P.DisownKeeps(s, t); }
    else if P.Internal(s, t) { InternalAdvances(s, t); }
    else { CallAdvances(s, t); }
  }

  lemma InternalAdvances(s: P.State, t: P.State)
    requires P.Inv(s) && P.Internal(s, t)
    ensures Advanced(s, t, false)
  {
    P.StepKeepsInv(s, t);
    P.InternalIsUntouched(s, t);
    AdvancedFacts(s, t);
  }

  lemma AdvancedFacts(s: P.State, t: P.State)
    requires P.Inv(s) && P.Inv(t) && P.Advance(s, t) && P.Untouched(s, t)
    ensures Advanced(s, t, false)
  {
  }

  lemma CallAdvances(s: P.State, t: P.State)
    requires P.Inv(s) && P.CancelCall(s, t)
    ensures Advanced(s, t, true)
  {
    P.StepKeepsInv(s, t);
    CallTakesNothing(s, t);
  }

  lemma CallTakesNothing(s: P.State, t: P.State)
    requires P.CancelCall(s, t)
    ensures t.result == s.result && t.reported == s.reported && t.routed == s.routed
  {
  }

  lemma AdvancedKeepsTurn(h: Handler, turn: P.State)
    requires TurnInv(h) && ControlInv(h) && DoneInv(h) && h.turn.Some?
    requires Advanced(h.turn.value, turn, h.mayCancel || h.interrupting)
    ensures TurnInv(h.(turn := P.Some(turn))) && DoneInv(h.(turn := P.Some(turn)))
  {
  }

  lemma TurnMoveKeeps(a: Task, h: Handler, k: Handler, turn: P.State)
    requires HandlerInv(a, h) && TurnMove(h, k, turn)
    ensures HandlerInv(a, k) && k.holds == h.holds && StaysKilled(h, k)
  {
    TurnAdvances(h.turn.value, turn, h.mayCancel || h.interrupting);
    AdvancedKeepsTurn(h, turn);
    assert TableInv(a, k) && ControlInv(k);
  }

  lemma PrivateKeeps(a: Task, h: Handler, k: Handler)
    requires HandlerInv(a, h) && Private(h, k)
    ensures HandlerInv(a, k) && k.holds == h.holds && StaysKilled(h, k)
  {
    if Entering(h, k) { EnteringKeeps(a, h, k); }
    else if Preparing(h, k) { PreparingKeeps(a, h, k); }
    else if Launching(h, k) { LaunchingKeeps(a, h, k); }
    else if Listening(h, k) { ListeningKeeps(a, h, k); }
    else if Interrupted(h, k) { InterruptedKeeps(a, h, k); }
    else if Judging(h, k) { JudgingKeeps(a, h, k); }
    else if Collecting(h, k) { CollectingKeeps(a, h, k); }
    else if Ending(h, k) { EndingKeeps(a, h, k); }
    else if Killing(h, k) { KillingKeeps(a, h, k); }
    else if Outside(h, k) { OutsideKeeps(a, h, k); }
    else {
      var turn :| TurnMove(h, k, turn);
      TurnMoveKeeps(a, h, k, turn);
    }
  }

  // ---- Steps on the table, from one handler's point of view ----

  lemma CommitKeeps(a: Task, h: Handler, op: D.Op, o: Outcome, b: Task)
    requires HandlerInv(a, h) && Committing(h.pc) && D.ByTransition(op) && Effect(a, op, o, b)
    requires op == Commit(h.pc, op.id, CommitThread(op), CommitFellBack(op), CommitText(op))
    ensures HandlerInv(b, h.(pc := AfterCommit(h.pc, o)))
    ensures a.state.Terminal() ==> b == a
  {
    CommitKeepsTable(a, h, op, o, b);
    CommitKeepsControl(h, o);
  }

  function CommitThread(op: D.Op): string { if op.Complete? then op.codexSession else "" }

  function CommitFellBack(op: D.Op): bool { op.Complete? && op.fellBack }

  function CommitText(op: D.Op): string { if op.Fail? then op.reason else "" }

  lemma CommitKeepsTable(a: Task, h: Handler, op: D.Op, o: Outcome, b: Task)
    requires TableInv(a, h) && Committing(h.pc) && D.ByTransition(op) && Effect(a, op, o, b)
    requires op == Commit(h.pc, op.id, CommitThread(op), CommitFellBack(op), CommitText(op))
    ensures TableInv(b, h.(pc := AfterCommit(h.pc, o)))
    ensures a.state.Terminal() ==> b == a
  {
  }

  lemma CommitKeepsControl(h: Handler, o: Outcome)
    requires ControlInv(h) && TurnInv(h) && DoneInv(h) && Committing(h.pc)
    ensures var k := h.(pc := AfterCommit(h.pc, o)); ControlInv(k) && TurnInv(k) && DoneInv(k)
  {
    var k := h.(pc := AfterCommit(h.pc, o));
    assert ControlInv(k);
    assert DoneInv(k);
  }

  lemma QueryKeeps(w: World, id: Id, h: Handler)
    requires D.Inv(w) && Known(w, id) && HandlerInv(Entry(w, id), h) && Reading(h.pc)
    ensures HandlerInv(Entry(w, id), h.(pc := AfterRead(h.pc, Status(w, id))))
  {
    var a, st := Entry(w, id), Status(w, id);
    assert st.Some? && st.value.state == a.state && st.value.exit == a.exit;
    var k := h.(pc := AfterRead(h.pc, st));
    assert TableInv(a, k);
    assert ControlInv(k);
    assert TurnInv(k) && DoneInv(k);
  }

  /** A second task.cancel never gets past the table. */
  lemma KillKeeps(a: Task, h: Handler, id: Id, o: Outcome, b: Task)
    requires HandlerInv(a, h) && Effect(a, D.Stop(id), o, b)
    ensures HandlerInv(b, if o == Ok || o == StoreFailed then h.(killer := KLookup) else h)
    ensures o == Ok || o == StoreFailed ==> h.killer.KIdle?
    ensures a.state.Terminal() ==> b == a
  {
    var k := if o == Ok || o == StoreFailed then h.(killer := KLookup) else h;
    assert TableInv(b, k);
    assert ControlInv(k) && TurnInv(k) && DoneInv(k);
  }

  // ---- The whole broker ----

  function Holders(handlers: map<Id, Handler>): set<Id> {
    set id | id in handlers && handlers[id].holds
  }

  predicate Sound(w: World, handlers: map<Id, Handler>, id: Id) {
    id in handlers ==> Known(w, id) && HandlerInv(Entry(w, id), handlers[id])
  }

  ghost predicate HandlersInv(w: World, handlers: map<Id, Handler>) {
    forall id :: Sound(w, handlers, id)
  }

  predicate SlotsInv(s: Sys) {
    s.taken == |Holders(s.handlers)| && s.taken <= s.world.concurrency
  }

  predicate WorkInv(s: Sys) {
    NonTerminals(s.world.tasks) <= s.handlers.Keys && |NonTerminals(s.world.tasks)| <= ADMISSION_LIMIT
  }

  ghost predicate SysInv(s: Sys) {
    D.Inv(s.world) && HandlersInv(s.world, s.handlers) && SlotsInv(s) && WorkInv(s)
  }

  /** Unfinished work can only shrink when no finished answer reopens and no other answer moves. */
  lemma WorkShrinks(w: World, v: World, id: Id)
    requires D.Inv(w) && D.Inv(v) && Known(w, id) && Known(v, id)
    requires forall x :: x != id ==> D.Answer(v, x) == D.Answer(w, x)
    requires Entry(w, id).state.Terminal() ==> Entry(v, id) == Entry(w, id)
    ensures NonTerminals(v.tasks) <= NonTerminals(w.tasks) && |NonTerminals(v.tasks)| <= |NonTerminals(w.tasks)|
  {
    forall x | x in NonTerminals(v.tasks) ensures x in NonTerminals(w.tasks) {
      AnswerIsRecord(w, x);
      AnswerIsRecord(v, x);
    }
    SubsetSize(NonTerminals(v.tasks), NonTerminals(w.tasks));
  }

  lemma SubsetSize(a: set<Id>, b: set<Id>)
    requires a <= b
    ensures |a| <= |b|
  {
    assert b == a + (b - a);
  }

  lemma EvictKeepsConcurrency(w: World, now: int)
    ensures Evict(w, now).concurrency == w.concurrency
  {
  }

  lemma ApplyKeepsConcurrency(w: World, op: D.Op, ok: bool, now: int)
    requires D.ByTransition(op)
    ensures D.Apply(w, op, ok, now).0.concurrency == w.concurrency
  {
    D.TransitionShape(w, op, ok, now);
    if op.id in w.tasks {
      EvictKeepsConcurrency(Save(w, D.Written(w.tasks[op.id], op, now), ok, now).0, now);
    }
  }

  /** Handlers whose own answer did not move are where they were. */
  lemma FrameKeeps(w: World, handlers: map<Id, Handler>, v: World, after: map<Id, Handler>, id: Id)
    requires HandlersInv(w, handlers) && Sound(v, after, id)
    requires forall x :: x != id ==> D.Answer(v, x) == D.Answer(w, x)
    requires forall x :: x != id ==> (x in after <==> x in handlers)
    requires forall x :: x != id && x in after ==> after[x] == handlers[x]
    ensures HandlersInv(v, after)
  {
    forall x ensures Sound(v, after, x) {
      if x != id {
        assert Sound(w, handlers, x);
        assert D.Answer(v, x) == D.Answer(w, x);
      }
    }
  }

  lemma HoldersSame(handlers: map<Id, Handler>, id: Id, k: Handler)
    requires id in handlers && k.holds == handlers[id].holds
    ensures Holders(handlers[id := k]) == Holders(handlers) && handlers[id := k].Keys == handlers.Keys
  {
  }

  lemma HoldersAdd(handlers: map<Id, Handler>, id: Id, k: Handler)
    requires id in handlers && k.holds && !handlers[id].holds
    ensures Holders(handlers[id := k]) == Holders(handlers) + {id} && id !in Holders(handlers)
  {
  }

  /** One handler is replaced, over a table in which only its own answer may have moved. */
  lemma ReplaceKeeps(s: Sys, id: Id, v: World, k: Handler)
    requires SysInv(s) && id in s.handlers && D.Inv(v) && Known(v, id) && HandlerInv(Entry(v, id), k)
    requires forall x :: x != id ==> D.Answer(v, x) == D.Answer(s.world, x)
    requires Known(s.world, id) && (Entry(s.world, id).state.Terminal() ==> Entry(v, id) == Entry(s.world, id))
    requires k.holds == s.handlers[id].holds && v.concurrency == s.world.concurrency
    ensures SysInv(s.(world := v, handlers := s.handlers[id := k]))
  {
    var after := s.handlers[id := k];
    FrameKeeps(s.world, s.handlers, v, after, id);
    WorkShrinks(s.world, v, id);
    HoldersSame(s.handlers, id, k);
  }

  lemma AcquireKeeps(s: Sys, id: Id)
    requires SysInv(s) && id in s.handlers && s.handlers[id].pc.Acquiring? && s.taken < s.world.concurrency
    ensures SysInv(s.(taken := s.taken + 1, handlers := s.handlers[id := s.handlers[id].(pc := Granted, holds := true)]))
  {
    var after := s.handlers[id := s.handlers[id].(pc := Granted, holds := true)];
    assert Sound(s.world, s.handlers, id);
    HoldersAdd(s.handlers, id, after[id]);
    HeldIsFrame(s, id, s.(taken := s.taken + 1, handlers := after), Granted, true);
  }

  lemma ReleaseKeeps(s: Sys, id: Id)
    requires SysInv(s) && id in s.handlers && s.handlers[id].pc.Leaving?
    ensures var h := s.handlers[id];
            SysInv(s.(taken := if h.holds && s.taken > 0 then s.taken - 1 else s.taken,
                      handlers := s.handlers[id := h.(pc := Cleaning(h.pc.wire), holds := false)]))
  {
    var h := s.handlers[id];
    var after := s.handlers[id := h.(pc := Cleaning(h.pc.wire), holds := false)];
    assert Holders(s.handlers) == Holders(after) + if h.holds then {id} else {};
    HeldIsFrame(s, id, s.(taken := if h.holds && s.taken > 0 then s.taken - 1 else s.taken, handlers := after),
                Cleaning(h.pc.wire), false);
  }

  lemma HeldIsFrame(s: Sys, id: Id, t: Sys, pc: Pc, holds: bool)
    requires SysInv(s) && id in s.handlers
    requires (s.handlers[id].pc.Acquiring? && pc.Granted? && holds)
          || (s.handlers[id].pc.Leaving? && pc == Cleaning(s.handlers[id].pc.wire) && !holds)
    requires t.world == s.world && t.handlers == s.handlers[id := s.handlers[id].(pc := pc, holds := holds)]
    ensures HandlersInv(t.world, t.handlers) && WorkInv(t)
  {
    assert Sound(s.world, s.handlers, id);
    HeldKeeps(Entry(s.world, id), s.handlers[id], pc, holds);
    FrameKeeps(s.world, s.handlers, s.world, t.handlers, id);
  }

  lemma HeldKeeps(a: Task, h: Handler, pc: Pc, holds: bool)
    requires HandlerInv(a, h)
    requires (h.pc.Acquiring? && pc.Granted? && holds) || (h.pc.Leaving? && pc == Cleaning(h.pc.wire) && !holds)
    ensures HandlerInv(a, h.(pc := pc, holds := holds))
  {
    var k := h.(pc := pc, holds := holds);
    assert TableInv(a, k) && ControlInv(k) && TurnInv(k) && DoneInv(k);
  }

  lemma AdmissionKeeps(s: Sys, id: Id, session: string, prompt: string, ok: bool, now: int)
    requires SysInv(s) && id !in s.world.tasks && id !in s.world.disk && id !in s.handlers
    ensures var (v, o) := Admit(s.world, id, session, prompt, ok, now);
            SysInv(s.(world := v, handlers := if o == Ok then s.handlers[id := NEWCOMER] else s.handlers))
  {
    D.AdmitKeeps(s.world, id, session, prompt, ok, now);
    AdmitShape(s.world, id, session, prompt, ok, now);
    var (v, o) := Admit(s.world, id, session, prompt, ok, now);
    if o == Ok { AdmittedKeeps(s, id, v); } else { RefusedKeeps(s, id, v); }
  }

  lemma RefusedKeeps(s: Sys, id: Id, v: World)
    requires SysInv(s) && id !in s.handlers && D.Inv(v) && v.concurrency == s.world.concurrency
    requires forall x :: x != id ==> D.Answer(v, x) == D.Answer(s.world, x)
    requires id !in v.tasks
    ensures SysInv(s.(world := v))
  {
    AdmissionWork(s.world, v, id, Full);
    FrameKeeps(s.world, s.handlers, v, s.handlers, id);
  }

  lemma AdmittedKeeps(s: Sys, id: Id, v: World)
    requires SysInv(s) && id !in s.handlers && D.Inv(v) && v.concurrency == s.world.concurrency
    requires forall x :: x != id ==> D.Answer(v, x) == D.Answer(s.world, x)
    requires Known(v, id) && Entry(v, id).state.Queued? && |NonTerminals(s.world.tasks)| < ADMISSION_LIMIT
    ensures SysInv(s.(world := v, handlers := s.handlers[id := NEWCOMER]))
  {
    AdmissionWork(s.world, v, id, Ok);
    NewcomerStarts(v, s.handlers, id);
    NewcomerHolds(s.handlers, id);
    FrameKeeps(s.world, s.handlers, v, s.handlers[id := NEWCOMER], id);
  }

  lemma NewcomerStarts(v: World, handlers: map<Id, Handler>, id: Id)
    requires Known(v, id) && Entry(v, id).state.Queued?
    ensures Sound(v, handlers[id := NEWCOMER], id)
  {
  }

  lemma NewcomerHolds(handlers: map<Id, Handler>, id: Id)
    requires id !in handlers
    ensures Holders(handlers[id := NEWCOMER]) == Holders(handlers)
    ensures handlers[id := NEWCOMER].Keys == handlers.Keys + {id}
  {
  }

  lemma AdmissionWork(w: World, v: World, id: Id, o: Outcome)
    requires D.Inv(w) && D.Inv(v) && |NonTerminals(w.tasks)| <= ADMISSION_LIMIT
    requires forall x :: x != id ==> D.Answer(v, x) == D.Answer(w, x)
    requires if o == Ok then |NonTerminals(w.tasks)| < ADMISSION_LIMIT else id !in v.tasks
    ensures NonTerminals(v.tasks) <= NonTerminals(w.tasks) + (if o == Ok then {id} else {})
    ensures |NonTerminals(v.tasks)| <= ADMISSION_LIMIT
  {
    var bound := NonTerminals(w.tasks) + if o == Ok then {id} else {};
    forall x | x in NonTerminals(v.tasks) ensures x in bound {
      if x != id {
        AnswerIsRecord(w, x);
        AnswerIsRecord(v, x);
      }
    }
    SubsetSize(NonTerminals(v.tasks), bound);
  }

  lemma AdmitShape(w: World, id: Id, session: string, prompt: string, ok: bool, now: int)
    requires D.Inv(w) && id !in w.tasks && id !in w.disk
    ensures var (v, o) := Admit(w, id, session, prompt, ok, now);
            && v.concurrency == w.concurrency
            && (if o == Ok then Known(v, id) && Entry(v, id).state.Queued? && |NonTerminals(w.tasks)| < ADMISSION_LIMIT
                else id !in v.tasks && id !in v.disk)
  {
    D.EvictKeeps(w, now, {});
  }

  /** Steps of the surroundings: every answer stays as it is. */
  lemma AmbientKeeps(s: Sys, v: World)
    requires SysInv(s) && D.Inv(v) && v.concurrency == s.world.concurrency
    requires forall x :: D.Answer(v, x) == D.Answer(s.world, x)
    ensures SysInv(s.(world := v))
  {
    forall x ensures x in NonTerminals(v.tasks) <==> x in NonTerminals(s.world.tasks) {
      AnswerIsRecord(s.world, x);
      AnswerIsRecord(v, x);
    }
    assert NonTerminals(v.tasks) == NonTerminals(s.world.tasks);
    assert Sound(s.world, s.handlers, "") && D.Answer(v, "") == D.Answer(s.world, "");
    FrameKeeps(s.world, s.handlers, v, s.handlers, "");
  }

  lemma CommitStepKeeps(s: Sys, id: Id, op: D.Op, v: World, o: Outcome)
    requires SysInv(s) && id in s.handlers && Committing(s.handlers[id].pc) && D.ByTransition(op) && op.id == id
    requires op == Commit(s.handlers[id].pc, op.id, CommitThread(op), CommitFellBack(op), CommitText(op))
    requires D.Inv(v) && Known(v, id) && Known(s.world, id) && Effect(Entry(s.world, id), op, o, Entry(v, id))
    requires forall x :: x != id ==> D.Answer(v, x) == D.Answer(s.world, x)
    requires v.concurrency == s.world.concurrency
    ensures SysInv(s.(world := v, handlers := s.handlers[id := s.handlers[id].(pc := AfterCommit(s.handlers[id].pc, o))]))
  {
    assert Sound(s.world, s.handlers, id);
    CommitKeeps(Entry(s.world, id), s.handlers[id], op, o, Entry(v, id));
    ReplaceKeeps(s, id, v, s.handlers[id].(pc := AfterCommit(s.handlers[id].pc, o)));
  }

  lemma TransitionStepKeeps(s: Sys, id: Id, op: D.Op, ok: bool, now: int)
    requires SysInv(s) && id in s.handlers && Committing(s.handlers[id].pc) && D.ByTransition(op) && op.id == id
    requires op == Commit(s.handlers[id].pc, op.id, CommitThread(op), CommitFellBack(op), CommitText(op))
    ensures var (v, o) := D.Apply(s.world, op, ok, now);
            SysInv(s.(world := v, handlers := s.handlers[id := s.handlers[id].(pc := AfterCommit(s.handlers[id].pc, o))]))
  {
    assert Sound(s.world, s.handlers, id);
    TransitionEffect(s.world, op, ok, now);
    ApplyKeepsConcurrency(s.world, op, ok, now);
    var (v, o) := D.Apply(s.world, op, ok, now);
    CommitStepKeeps(s, id, op, v, o);
  }

  lemma CommitIsTransition(pc: Pc, id: Id, thread: string, fellBack: bool, text: string)
    requires Committing(pc)
    ensures var op := Commit(pc, id, thread, fellBack, text);
            && D.ByTransition(op) && op.id == id
            && op == Commit(pc, op.id, CommitThread(op), CommitFellBack(op), CommitText(op))
  {
  }

  lemma KilledKeeps(s: Sys, id: Id, v: World, o: Outcome)
    requires SysInv(s) && id in s.handlers
    requires D.Inv(v) && Known(v, id) && Known(s.world, id) && Effect(Entry(s.world, id), D.Stop(id), o, Entry(v, id))
    requires forall x :: x != id ==> D.Answer(v, x) == D.Answer(s.world, x)
    requires v.concurrency == s.world.concurrency
    ensures SysInv(s.(world := v, handlers := if o == Ok || o == StoreFailed
                                              then s.handlers[id := s.handlers[id].(killer := KLookup)] else s.handlers))
  {
    assert Sound(s.world, s.handlers, id);
    KillKeeps(Entry(s.world, id), s.handlers[id], id, o, Entry(v, id));
    ReplaceKeeps(s, id, v, if o == Ok || o == StoreFailed then s.handlers[id].(killer := KLookup) else s.handlers[id]);
    assert s.handlers == s.handlers[id := s.handlers[id]];
  }

  lemma KillStepKeeps(s: Sys, id: Id, ok: bool, now: int)
    requires SysInv(s)
    ensures var (v, o) := D.Apply(s.world, D.Stop(id), ok, now);
            SysInv(s.(world := v, handlers := if id in s.handlers && (o == Ok || o == StoreFailed)
                                              then s.handlers[id := s.handlers[id].(killer := KLookup)] else s.handlers))
  {
    var op := D.Stop(id);
    ApplyKeepsConcurrency(s.world, op, ok, now);
    if id in s.handlers {
      assert Sound(s.world, s.handlers, id);
      TransitionEffect(s.world, op, ok, now);
      var (v, o) := D.Apply(s.world, op, ok, now);
      KilledKeeps(s, id, v, o);
    } else {
      StrayKill(s.world, id, ok, now);
    }
  }

  /** task.cancel on a task no handler owns: unfinished work always has a handler, so there is nothing to cancel. */
  lemma StrayKill(w: World, id: Id, ok: bool, now: int)
    requires id !in NonTerminals(w.tasks)
    ensures D.Apply(w, D.Stop(id), ok, now) == (w, if id in w.tasks then AlreadyTerminal else NotFound)
  {
  }

  lemma EmitAnswers(w: World, id: Id)
    requires D.Inv(w)
    ensures forall x :: D.Answer(AppendEvent(w, id).0, x) == D.Answer(w, x)
  {
  }

  lemma EmissionKeeps(s: Sys, id: Id)
    requires SysInv(s)
    ensures SysInv(s.(world := D.Apply(s.world, D.Emit(id), true, 0).0))
  {
    D.ApplyKeeps(s.world, D.Emit(id), true, 0, id);
    EmitAnswers(s.world, id);
    AmbientKeeps(s, AppendEvent(s.world, id).0);
  }

  lemma PolicyKeeps(s: Sys, maxTerminal: nat, ttl: nat, now: int)
    requires SysInv(s)
    ensures SysInv(s.(world := D.Apply(s.world, D.Repolicy(maxTerminal, ttl), true, now).0))
  {
    var w1 := s.world.(maxTerminal := maxTerminal, ttl := ttl);
    D.EvictKeeps(w1, now, {});
    assert D.Inv(Evict(w1, now));
    AmbientKeeps(s, Evict(w1, now));
  }

  lemma StepByKeepsInv(s: Sys, id: Id, act: Act, t: Sys)
    requires SysInv(s) && StepBy(s, id, act, t)
    ensures SysInv(t)
  {
    match act
    case Admission(session, prompt, ok, now) => AdmissionKeeps(s, id, session, prompt, ok, now);
    case Moving(next) =>
      assert Sound(s.world, s.handlers, id);
      PrivateKeeps(Entry(s.world, id), s.handlers[id], next);
      ReplaceKeeps(s, id, s.world, next);
    case Acquire => AcquireKeeps(s, id);
    case Transition(thread, fellBack, text, ok, now) =>
      CommitIsTransition(s.handlers[id].pc, id, thread, fellBack, text);
      TransitionStepKeeps(s, id, Commit(s.handlers[id].pc, id, thread, fellBack, text), ok, now);
    case Query =>
      assert Sound(s.world, s.handlers, id);
      QueryKeeps(s.world, id, s.handlers[id]);
      ReplaceKeeps(s, id, s.world, t.handlers[id]);
    case Release => ReleaseKeeps(s, id);
    case Kill(ok, now) => KillStepKeeps(s, id, ok, now);
    case Emission => EmissionKeeps(s, id);
    case Policy(maxTerminal, ttl, now) => PolicyKeeps(s, maxTerminal, ttl, now);
  }

  // ---- Main results: every interleaving ----

  lemma InitInv(s: Sys)
    requires Init(s)
    ensures SysInv(s)
  {
    assert Holders(s.handlers) == {};
  }

  lemma {:induction false} InvAt(tr: seq<Sys>, i: nat)
    requires Behavior(tr) && i < |tr|
    ensures SysInv(tr[i])
  {
    if i == 0 {
      InitInv(tr[0]);
    } else {
      InvAt(tr, i - 1);
      assert Step(tr[i - 1], tr[i]);
      var id, act :| StepBy(tr[i - 1], id, act, tr[i]);
      StepByKeepsInv(tr[i - 1], id, act, tr[i]);
    }
  }

  /** A broker restarted over any archive is such an initial state. */
  lemma RecoveredBrokerIsIdle(disk: map<Id, Task>, h: D.Happening, w: World)
    requires h.Restart? && D.StepBy(D.Down(disk), h, D.Up(w))
    ensures Init(Sys(w, 0, map[]))
  {
    D.RestartOutcome(D.Down(disk), h, D.Up(w), "");
    forall id ensures id !in NonTerminals(w.tasks) {
      D.RestartOutcome(D.Down(disk), h, D.Up(w), id);
      AnswerIsRecord(w, id);
    }
  }

  /** fromBrokerResult, with the -1 of a failed call. */
  function ClientExit(wire: Option<Wire>): int {
    match wire
    case None => -1
    case Some(w) => if w.exit == 0 && !w.state.Done? then 64 else w.exit
  }

  /** No false success: a client sees exit 0 only if turn/completed with status "completed" was routed to this very turn,
      and the table and the archive both hold the task as done with exit 0. */
  lemma NoFalseSuccess(tr: seq<Sys>, i: nat, id: Id)
    requires Behavior(tr) && i < |tr| && id in tr[i].handlers
    requires Returning(tr[i].handlers[id].pc) && ClientExit(tr[i].handlers[id].pc.wire) == 0
    ensures var h := tr[i].handlers[id];
            && h.turn.Some? && |h.turn.value.routed| > 0
            && var last := h.turn.value.routed[|h.turn.value.routed| - 1];
               last.kind.TurnCompleted? && last.turn.Some? && last.turn.value.status.Completed?
    ensures var w := tr[i].world;
            && D.Answer(w, id).Some? && Entry(w, id).state.Done? && Entry(w, id).exit == 0
            && D.Settled(D.Up(w), id, Entry(w, id))
  {
    InvAt(tr, i);
    var w, h := tr[i].world, tr[i].handlers[id];
    assert Sound(w, tr[i].handlers, id);
    AnswerIsRecord(w, id);
    if id in w.tasks { assert D.RecOk(w.disk, id, w.tasks[id]); }
  }

  /** Whatever a run returns is what the table says, for the deadline arm up to a concurrent cancellation. */
  lemma WireMatchesTable(tr: seq<Sys>, i: nat, id: Id)
    requires Behavior(tr) && i < |tr| && id in tr[i].handlers
    requires Returning(tr[i].handlers[id].pc) && tr[i].handlers[id].pc.wire.Some?
    ensures Known(tr[i].world, id) && Matches(Entry(tr[i].world, id), tr[i].handlers[id].pc.wire.value)
  {
    InvAt(tr, i);
    assert Sound(tr[i].world, tr[i].handlers, id);
  }

  lemma StepKeepsKilled(s: Sys, x: Id, act: Act, t: Sys, id: Id)
    requires SysInv(s) && StepBy(s, x, act, t) && id in s.handlers
    ensures id in t.handlers && StaysKilled(s.handlers[id], t.handlers[id])
  {
    match act
    case Admission(_, _, _, _) => assert t.handlers[id] == s.handlers[id];
    case Moving(next) =>
      assert Sound(s.world, s.handlers, id);
      if x == id { PrivateKeeps(Entry(s.world, id), s.handlers[id], next); }
    case Acquire =>
    case Transition(_, _, _, _, _) =>
    case Query =>
    case Release =>
    case Kill(_, _) => assert t.handlers[id] == s.handlers[id] || t.handlers[id].killer.KLookup?;
    case Emission =>
    case Policy(_, _, _) =>
  }

  predicate StaysKilledAt(tr: seq<Sys>, i: nat, id: Id) {
    i + 1 < |tr| && id in tr[i].handlers ==>
      id in tr[i + 1].handlers && StaysKilled(tr[i].handlers[id], tr[i + 1].handlers[id])
  }

  lemma KilledStep(tr: seq<Sys>, i: nat, id: Id)
    requires Behavior(tr)
    ensures StaysKilledAt(tr, i, id)
  {
    if i + 1 < |tr| && id in tr[i].handlers {
      assert Step(tr[i], tr[i + 1]);
      var x, act :| StepBy(tr[i], x, act, tr[i + 1]);
      InvAt(tr, i);
      StepKeepsKilled(tr[i], x, act, tr[i + 1], id);
    }
  }

  lemma {:induction false} KilledAt(tr: seq<Sys>, i: nat, j: nat, id: Id)
    requires forall k: nat :: StaysKilledAt(tr, k, id)
    requires i <= j < |tr| && id in tr[i].handlers
    ensures id in tr[j].handlers && StaysKilled(tr[i].handlers[id], tr[j].handlers[id])
    decreases j
  {
    if i < j {
      KilledAt(tr, i, j - 1, id);
      assert StaysKilledAt(tr, j - 1, id);
    }
  }

  /** Once task.cancel has taken effect on a task, even with a failed write, no later result for it is done. */
  lemma CancelIsFinal(tr: seq<Sys>, i: nat, j: nat, id: Id)
    requires Behavior(tr) && i <= j < |tr| && id in tr[i].handlers && !tr[i].handlers[id].killer.KIdle?
    ensures id in tr[j].handlers && Known(tr[j].world, id) && Entry(tr[j].world, id).state.Cancelled?
    ensures var h := tr[j].handlers[id];
            Returning(h.pc) && h.pc.wire.Some? ==> !h.pc.wire.value.state.Done? && ClientExit(h.pc.wire) != 0
  {
    forall k: nat ensures StaysKilledAt(tr, k, id) { KilledStep(tr, k, id); }
    KilledAt(tr, i, j, id);
    InvAt(tr, j);
    assert Sound(tr[j].world, tr[j].handlers, id);
  }

  /** A cancel is never taken for completion: events that close under a live context were closed by the reader, and what
      the drain then collects is the verdict of the routed frames, not an empty result. */
  lemma LiveCloseIsCompletion(tr: seq<Sys>, i: nat, id: Id)
    requires Behavior(tr) && i < |tr| && id in tr[i].handlers
    ensures var h := tr[i].handlers[id];
            h.pc.CheckCtx? && h.ctx.Live? ==> h.turn.Some? && h.turn.value.naturalExit && h.turn.value.reported == P.Verdict(h.turn.value.routed)
    ensures var h := tr[i].handlers[id];
            h.pc.Completing? ==> h.turn.Some? && h.turn.value.naturalExit && h.pc.turn == P.Verdict(h.turn.value.routed)
  {
    InvAt(tr, i);
    assert Sound(tr[i].world, tr[i].handlers, id);
    var h := tr[i].handlers[id];
    if h.pc.CheckCtx? && h.ctx.Live? { ClosedByReader(h); }
  }

  /** No stuck work: every unfinished task has a handler that has not left it, and a handler leaves only finished work. */
  lemma NoStuckWork(tr: seq<Sys>, i: nat, id: Id)
    requires Behavior(tr) && i < |tr| && id in NonTerminals(tr[i].world.tasks)
    ensures id in tr[i].handlers && !Over(tr[i].handlers[id].pc)
    ensures tr[i].world.tasks[id].task.state.Running? ==> tr[i].handlers[id].holds
  {
    InvAt(tr, i);
    assert Sound(tr[i].world, tr[i].handlers, id);
    AnswerIsRecord(tr[i].world, id);
  }

  function RunningTasks(w: World): set<Id> {
    set id | id in w.tasks && w.tasks[id].task.state.Running?
  }

  /** The semaphore counts exactly the handlers between acquire and release; running tasks never exceed the
      concurrency cap, nor unfinished ones the admission limit. */
  lemma RunningIsBounded(tr: seq<Sys>, i: nat)
    requires Behavior(tr) && i < |tr|
    ensures tr[i].taken == |Holders(tr[i].handlers)|
    ensures |RunningTasks(tr[i].world)| <= tr[i].world.concurrency
    ensures |NonTerminals(tr[i].world.tasks)| <= ADMISSION_LIMIT
  {
    InvAt(tr, i);
    forall id | id in RunningTasks(tr[i].world) ensures id in Holders(tr[i].handlers) {
      NoStuckWork(tr, i, id);
    }
    SubsetSize(RunningTasks(tr[i].world), Holders(tr[i].handlers));
  }

  /** The deadline arm ignores MarkErrored's error: its wire result and the table agree on the state exactly when the
      task was not already cancelled, and on state and exit code exactly when besides its write succeeded. */
  lemma DeadlineAgreesIffNotCancelled(s: Sys, id: Id, act: Act, t: Sys)
    requires SysInv(s) && id in s.handlers && s.handlers[id].pc.TimedOut? && act.Transition? && StepBy(s, id, act, t)
    ensures t.handlers[id].pc.Leaving? && t.handlers[id].pc.wire.Some? && Known(t.world, id) && Known(s.world, id)
    ensures t.handlers[id].pc.wire.value.state == Entry(t.world, id).state <==> !Entry(s.world, id).state.Cancelled?
    ensures var wire, a := t.handlers[id].pc.wire.value, Entry(t.world, id);
            (wire.state, wire.exit) == (a.state, a.exit) <==> !Entry(s.world, id).state.Cancelled? && act.ok
  {
    assert Sound(s.world, s.handlers, id);
    DeadlineEffect(s.world, id, act.text, act.ok, act.now);
    DeadlineStep(s, id, act, t);
  }

  lemma DeadlineStep(s: Sys, id: Id, act: Act, t: Sys)
    requires id in s.handlers && s.handlers[id].pc.TimedOut? && act.Transition? && StepBy(s, id, act, t)
    ensures t.world == D.Apply(s.world, D.Fail(id, 64, act.text), act.ok, act.now).0
    ensures id in t.handlers && t.handlers[id].pc == Leaving(Some(Wire(Errored, 64, true)))
  {
  }

  lemma DeadlineEffect(w: World, id: Id, text: string, ok: bool, now: int)
    requires D.Inv(w) && Known(w, id)
    ensures var v := D.Apply(w, D.Fail(id, 64, text), ok, now).0;
            Known(v, id) && (Entry(w, id).state.Cancelled? || !Entry(w, id).state.Terminal() ==>
                              (Entry(v, id).state.Errored? <==> !Entry(w, id).state.Cancelled?)
                              && (Entry(v, id).state.Errored? && Entry(v, id).exit == 64 <==> !Entry(w, id).state.Cancelled? && ok))
  {
    TransitionEffect(w, D.Fail(id, 64, text), ok, now);
    if !Entry(w, id).state.Terminal() { FailOutcome(w, id, text, ok, now); }
  }

  lemma FailOutcome(w: World, id: Id, text: string, ok: bool, now: int)
    requires D.Inv(w) && Known(w, id) && !Entry(w, id).state.Terminal()
    ensures D.Apply(w, D.Fail(id, 64, text), ok, now).1 == if ok then Ok else StoreFailed
  {
    AnswerIsRecord(w, id);
  }

  /** From every state in which a running task is being drained, three steps lead to that disagreement. */
  lemma DeadlineCanMissCancel(s: Sys, id: Id) returns (s1: Sys, s2: Sys, t: Sys)
    requires SysInv(s) && id in s.handlers && s.handlers[id].pc.Draining?
    requires Known(s.world, id) && Entry(s.world, id).state.Running?
    ensures Step(s, s1) && Step(s1, s2) && Step(s2, t)
    ensures id in t.handlers && t.handlers[id].pc.Leaving? && t.handlers[id].pc.wire == Some(Wire(Errored, 64, true))
    ensures Known(t.world, id) && Entry(t.world, id).state.Cancelled?
  {
    var h := s.handlers[id];
    var next := h.(pc := TimedOut, interrupting := true);
    s1 := s.(handlers := s.handlers[id := next]);
    assert SeeDeadline(h, next);
    assert StepBy(s, id, Moving(next), s1);
    s2 := KilledWhileTimingOut(s1, id);
    StepByKeepsInv(s, id, Moving(next), s1);
    var act := Transition("", false, "", true, 0);
    var op := Commit(TimedOut, id, "", false, "");
    TransitionEffect(s2.world, op, true, 0);
    var (v, o) := D.Apply(s2.world, op, true, 0);
    t := s2.(world := v, handlers := s2.handlers[id := s2.handlers[id].(pc := AfterCommit(TimedOut, o))]);
    assert StepBy(s2, id, act, t);
  }

  lemma KilledWhileTimingOut(s: Sys, id: Id) returns (t: Sys)
    requires D.Inv(s.world) && id in s.handlers && s.handlers[id].pc.TimedOut?
    requires Known(s.world, id) && Entry(s.world, id).state.Running?
    ensures Step(s, t) && D.Inv(t.world) && id in t.handlers && t.handlers[id].pc.TimedOut?
    ensures Known(t.world, id) && Entry(t.world, id).state.Cancelled?
  {
    TransitionEffect(s.world, D.Stop(id), true, 0);
    var (v, o) := D.Apply(s.world, D.Stop(id), true, 0);
    t := s.(world := v, handlers := s.handlers[id := s.handlers[id].(killer := KLookup)]);
    assert StepBy(s, id, Kill(true, 0), t);
  }
}
