/** Many turns on one child: the table a.turns, keyed by thread, and the one reader goroutine that
    routes frames through it. Turn identities are indices, so a thread may be used by several turns. */
module Multiplexer {
  import T = TurnPump

  type Thread = string

  datatype Mode = Reading | Failing | Exited

  /** `Failing`: failPendingRequests is running and holds turnsMu. */
  datatype Mux = Mux(turns: seq<T.State>, thread: seq<Thread>, table: map<Thread, nat>, mode: Mode)

  const EMPTY := Mux([], [], map[], Reading)

  predicate Busy(u: T.State) { !u.reader.RIdle? && !u.reader.RGone? }

  predicate Dying(u: T.State) {
    u.reader.RDiedDone? || u.reader.RDiedStamp? || u.reader.RDiedClose? || u.reader.RDiedDelete?
  }

  predicate ReaderFree(m: Mux) {
    forall i :: 0 <= i < |m.turns| ==> !Busy(m.turns[i])
  }

  /** A move past a `delete(a.turns, ts.threadID)`. */
  predicate PastDelete(u: T.State, v: T.State) {
    || (u.reader != v.reader && (u.reader.RDelete? || u.reader.RDiedDelete?))
    || (u.starter != v.starter && u.starter.SFailDelete?)
    || (u.canceller != v.canceller && u.canceller.CDelete?)
  }

  /** A step of one turn that neither consults nor changes the table. */
  ghost predicate Local(u: T.State, v: T.State) {
    T.Step(u, v) && !PastDelete(u, v) && (u.reader != v.reader ==> !u.reader.RIdle?)
  }

  ghost predicate LocalStep(m: Mux, i: nat, n: Mux) {
    && i < |m.turns| == |n.turns|
    && Local(m.turns[i], n.turns[i])
    && n == m.(turns := m.turns[i := n.turns[i]])
  }

  /** The delete happens under turnsMu, and its key is the thread, whichever turn holds it. */
  ghost predicate DeleteStep(m: Mux, i: nat, n: Mux) {
    && i < |m.turns| == |m.thread| == |n.turns|
    && T.Step(m.turns[i], n.turns[i]) && PastDelete(m.turns[i], n.turns[i])
    && (m.mode == Failing ==> m.turns[i].reader != n.turns[i].reader)
    && n.thread == m.thread && n.mode == m.mode && n.table == m.table - {m.thread[i]}
    && forall j :: 0 <= j < |m.turns| && j != i ==>
         n.turns[j] == if m.thread[j] == m.thread[i] then m.turns[j].(registered := false) else m.turns[j]
  }

  /** One notification is read and looked up. */
  predicate FrameStep(m: Mux, th: Thread, f: T.Frame, n: Mux) {
    && m.mode == Reading && ReaderFree(m)
    && if th in m.table && m.table[th] < |m.turns|
       then m.table[th] < |n.turns| && T.Lookup(m.turns[m.table[th]], f, n.turns[m.table[th]])
            && n == m.(turns := m.turns[m.table[th] := n.turns[m.table[th]]])
       else n == m
  }

  predicate EofStep(m: Mux, n: Mux) {
    m.mode == Reading && ReaderFree(m) && n == m.(mode := Failing)
  }

  /** The range over a.turns reaches turn i. */
  predicate VisitStep(m: Mux, i: nat, n: Mux) {
    && m.mode == Failing && ReaderFree(m) && i < |m.turns| == |n.turns| && m.turns[i].registered
    && T.Eof(m.turns[i], n.turns[i])
    && n == m.(turns := m.turns[i := n.turns[i]])
  }

  predicate ExitStep(m: Mux, n: Mux) {
    && m.mode == Failing && ReaderFree(m) && m.table == map[] && n.mode == Exited
    && n.thread == m.thread && n.table == m.table && |n.turns| == |m.turns|
    && forall i :: 0 <= i < |m.turns| ==> n.turns[i] == m.turns[i].(reader := T.RGone)
  }

  function Fresh(mode: Mode): (u: T.State)
    ensures T.Init(u)
  {
    T.State(true, if mode == Exited then T.RGone else T.RIdle, T.PRecv, T.SCalling, T.CIdle, [], false, false, [], false,
            T.None, false, false, false, T.None, false, false, false, false, [], [], [], [], T.None, 0, false, 0, T.None)
  }

  /** StartTurn: refused while the thread's entry is not done, otherwise the entry is overwritten. */
  predicate StartStep(m: Mux, th: Thread, n: Mux) {
    && m.mode != Failing && |m.thread| == |m.turns|
    && (th in m.table && m.table[th] < |m.turns| ==> m.turns[m.table[th]].done)
    && |n.turns| == |m.turns| + 1 && n.turns[|m.turns|] == Fresh(m.mode)
    && n.thread == m.thread + [th] && n.table == m.table[th := |m.turns|] && n.mode == m.mode
    && forall j :: 0 <= j < |m.turns| ==>
         n.turns[j] == if m.thread[j] == th then m.turns[j].(registered := false) else m.turns[j]
  }

  /** Some goroutine of this turn can still reach a `delete(a.turns, threadID)`. */
  predicate MayDelete(u: T.State) {
    || u.starter.SCalling? || u.starter.SFailDelete?
    || u.canceller.CDelete? || (u.starter.SStarted? && !u.done)
    || u.reader.RStash? || u.reader.RTermSend? || u.reader.RSetDone? || u.reader.RDelete? || Dying(u)
    || (u.reader.RCheck? && u.reader.f.kind.TurnCompleted? && !u.done)
  }

  /** Every earlier turn of the thread is past its deletes. StartTurn's own guard sees only the current entry's done flag;
      this looks at where the goroutines of all of them are. */
  predicate Quiescent(m: Mux, th: Thread) {
    forall j :: 0 <= j < |m.turns| && j < |m.thread| && m.thread[j] == th ==> !MayDelete(m.turns[j])
  }

  datatype Label =
    | Own(i: nat) | Delete(i: nat) | Read(th: Thread, f: T.Frame)
    | Eof | Visit(i: nat) | Exit | Start(th: Thread)

  ghost predicate StepBy(m: Mux, l: Label, n: Mux) {
    match l
    case Own(i) => LocalStep(m, i, n)
    case Delete(i) => DeleteStep(m, i, n)
    case Read(th, f) => FrameStep(m, th, f, n)
    case Eof => EofStep(m, n)
    case Visit(i) => VisitStep(m, i, n)
    case Exit => ExitStep(m, n)
    case Start(th) => StartStep(m, th, n)
  }

  /** A step that starts a turn only on a quiescent thread. */
  ghost predicate CarefulBy(m: Mux, l: Label, n: Mux) {
    StepBy(m, l, n) && (l.Start? ==> Quiescent(m, l.th))
  }

  ghost predicate Step(m: Mux, n: Mux) {
    exists l :: StepBy(m, l, n)
  }

  ghost predicate CarefulStep(m: Mux, n: Mux) {
    exists l :: CarefulBy(m, l, n)
  }

  ghost predicate Run(tr: seq<Mux>) {
    |tr| > 0 && forall i, j :: 0 <= i < |tr| && 0 <= j < |tr| && j == i + 1 ==> Step(tr[i], tr[j])
  }

  ghost predicate CarefulRun(tr: seq<Mux>) {
    |tr| > 0 && forall i, j :: 0 <= i < |tr| && 0 <= j < |tr| && j == i + 1 ==> CarefulStep(tr[i], tr[j])
  }

  // ---- Invariant of careful runs ----

  predicate Synced(m: Mux) {
    && |m.thread| == |m.turns|
    && (forall i :: 0 <= i < |m.turns| ==> (m.turns[i].registered <==> m.thread[i] in m.table && m.table[m.thread[i]] == i))
    && (forall th :: th in m.table ==> m.table[th] < |m.turns| && m.thread[m.table[th]] == th)
  }

  /** One reader: at most one turn is being handled, dying only under failPendingRequests. */
  predicate OneReader(m: Mux) {
    && (forall i, j :: 0 <= i < |m.turns| && 0 <= j < |m.turns| && Busy(m.turns[i]) && Busy(m.turns[j]) ==> i == j)
    && (forall i :: 0 <= i < |m.turns| && Dying(m.turns[i]) ==> m.mode == Failing)
    && (forall i :: 0 <= i < |m.turns| && Busy(m.turns[i]) && m.mode == Failing ==> Dying(m.turns[i]))
    && (m.mode == Exited ==> ReaderFree(m))
  }

  /** Turns that share a thread: all but the last are past their deletes. */
  predicate Ordered(m: Mux) {
    forall i, j :: 0 <= i < j < |m.turns| && j < |m.thread| && m.thread[i] == m.thread[j] ==> !MayDelete(m.turns[i])
  }

  predicate LocalInv(m: Mux) {
    forall i :: 0 <= i < |m.turns| ==> T.Inv(m.turns[i]) && !T.Orphan(m.turns[i])
  }

  predicate Inv(m: Mux) {
    Synced(m) && OneReader(m) && Ordered(m) && LocalInv(m)
  }

  // ---- Local facts ----

  lemma RegisteredMayDelete(u: T.State)
    requires T.Inv(u) && u.registered
    ensures MayDelete(u)
  {
  }

  lemma NeverAgain(u: T.State, v: T.State)
    requires !u.registered && !MayDelete(u) && T.Advance(u, v)
    ensures !MayDelete(v)
  {
  }

  lemma PastItsDeletes(u: T.State, v: T.State)
    requires T.Inv(u) && !MayDelete(u) && (v == u || T.Advance(u, v))
    ensures !MayDelete(v)
  {
    if u.registered { RegisteredMayDelete(u); }
    else if v != u { NeverAgain(u, v); }
  }

  predicate SameStanding(u: T.State, v: T.State) {
    v.registered == u.registered && (Busy(v) ==> Busy(u)) && (Dying(v) <==> Dying(u))
  }

  lemma LocalStanding(u: T.State, v: T.State)
    requires T.Advance(u, v) && !PastDelete(u, v) && (u.reader != v.reader ==> !u.reader.RIdle?)
    ensures SameStanding(u, v)
  {
  }

  lemma DeleteStanding(u: T.State, v: T.State)
    requires T.Advance(u, v) && PastDelete(u, v)
    ensures !v.registered && (Busy(v) ==> Busy(u) && (Dying(u) ==> Dying(v))) && (Dying(v) ==> Dying(u))
  {
  }

  lemma PastDeleteMayDelete(u: T.State, v: T.State)
    requires PastDelete(u, v)
    ensures MayDelete(u)
  {
  }

  lemma AlreadyUnregistered(u: T.State)
    requires !u.registered
    ensures u.(registered := false) == u
  {
  }

  // ---- Careful runs keep the invariant ----

  /** Every turn takes one of its own steps or none, and a new turn starts afresh. */
  ghost predicate Isolated(m: Mux, n: Mux) {
    && |m.turns| <= |n.turns| && m.thread <= n.thread && |n.thread| == |n.turns| && |m.thread| == |m.turns|
    && (forall i :: 0 <= i < |m.turns| ==> n.turns[i] == m.turns[i] || T.Step(m.turns[i], n.turns[i]))
    && (forall i :: |m.turns| <= i < |n.turns| ==> T.Init(n.turns[i]))
  }

  lemma LocalStepIsolated(m: Mux, i: nat, n: Mux)
    requires Inv(m) && LocalStep(m, i, n)
    ensures Isolated(m, n)
  {
  }

  lemma DeleteStepIsolated(m: Mux, i: nat, n: Mux)
    requires Inv(m) && DeleteStep(m, i, n) && MayDelete(m.turns[i])
    ensures Isolated(m, n)
    ensures forall j :: 0 <= j < |m.turns| && j != i ==> n.turns[j] == m.turns[j]
  {
    OthersAreUnregistered(m, i);
    forall j | 0 <= j < |m.turns| && j != i ensures n.turns[j] == m.turns[j] {
      if m.thread[j] == m.thread[i] { AlreadyUnregistered(m.turns[j]); }
    }
  }

  lemma OthersAreUnregistered(m: Mux, i: nat)
    requires Inv(m) && i < |m.turns| && MayDelete(m.turns[i])
    ensures forall j :: 0 <= j < |m.turns| && j != i && m.thread[j] == m.thread[i] ==> !m.turns[j].registered
  {
    forall j | 0 <= j < |m.turns| && j != i && m.thread[j] == m.thread[i] ensures !m.turns[j].registered {
      if m.turns[j].registered { RegisteredMayDelete(m.turns[j]); }
    }
  }

  lemma StartStepIsolated(m: Mux, th: Thread, n: Mux)
    requires LocalInv(m) && Synced(m) && StartStep(m, th, n) && Quiescent(m, th)
    ensures Isolated(m, n)
  {
    QuiescentIsUnregistered(m, th);
    StartMovesNone(m, th, n);
  }

  lemma QuiescentIsUnregistered(m: Mux, th: Thread)
    requires LocalInv(m) && Quiescent(m, th) && |m.thread| == |m.turns|
    ensures forall j :: 0 <= j < |m.turns| && m.thread[j] == th ==> !m.turns[j].registered
  {
    forall j | 0 <= j < |m.turns| && m.thread[j] == th ensures !m.turns[j].registered {
      if m.turns[j].registered { RegisteredMayDelete(m.turns[j]); }
    }
  }

  lemma StartMovesNone(m: Mux, th: Thread, n: Mux)
    requires StartStep(m, th, n)
    requires forall j :: 0 <= j < |m.turns| && m.thread[j] == th ==> !m.turns[j].registered
    ensures Isolated(m, n)
  {
    forall j | 0 <= j < |m.turns|
      ensures n.turns[j] == m.turns[j]
    {
      if m.thread[j] == th { AlreadyUnregistered(m.turns[j]); }
    }
  }

  lemma CarefulStepIsolated(m: Mux, l: Label, n: Mux)
    requires Inv(m) && CarefulBy(m, l, n)
    ensures Isolated(m, n)
  {
    match l
    case Own(i) => LocalStepIsolated(m, i, n);
    case Delete(i) =>
      PastDeleteMayDelete(m.turns[i], n.turns[i]);
      DeleteStepIsolated(m, i, n);
    case Read(th, f) => FrameStepIsolated(m, th, f, n);
    case Eof =>
    case Visit(i) => VisitStepIsolated(m, i, n);
    case Exit => ExitIsolated(m, n);
    case Start(th) => StartStepIsolated(m, th, n);
  }

  lemma FrameStepIsolated(m: Mux, th: Thread, f: T.Frame, n: Mux)
    requires Synced(m) && FrameStep(m, th, f, n)
    ensures Isolated(m, n)
  {
    if th in m.table { assert T.Looking(m.turns[m.table[th]], n.turns[m.table[th]]); }
  }

  lemma VisitStepIsolated(m: Mux, i: nat, n: Mux)
    requires Synced(m) && VisitStep(m, i, n)
    ensures Isolated(m, n)
  {
    assert T.Dying(m.turns[i], n.turns[i]);
  }

  lemma ExitIsolated(m: Mux, n: Mux)
    requires Synced(m) && ExitStep(m, n)
    ensures Isolated(m, n)
  {
    forall i | 0 <= i < |m.turns|
      ensures n.turns[i] == m.turns[i] || T.Step(m.turns[i], n.turns[i])
    {
      assert !Busy(m.turns[i]) && !m.turns[i].registered;
      if m.turns[i].reader.RIdle? { assert T.Eof(m.turns[i], n.turns[i]); }
    }
  }

  lemma IsolatedKeepsLocal(m: Mux, n: Mux)
    requires LocalInv(m) && Isolated(m, n)
    ensures LocalInv(n)
    ensures forall i :: 0 <= i < |m.turns| ==> n.turns[i] == m.turns[i] || T.Advance(m.turns[i], n.turns[i])
  {
    forall i | 0 <= i < |n.turns|
      ensures T.Inv(n.turns[i]) && !T.Orphan(n.turns[i]) && (i < |m.turns| ==> n.turns[i] == m.turns[i] || T.Advance(m.turns[i], n.turns[i]))
    {
      if i >= |m.turns| { T.InitInv(n.turns[i]); }
      else if n.turns[i] != m.turns[i] {
        T.StepKeepsInv(m.turns[i], n.turns[i]);
        T.StepKeepsOwned(m.turns[i], n.turns[i]);
      }
    }
  }

  /** No turn that is past its deletes comes back before them. */
  predicate StayPast(m: Mux, n: Mux) {
    |m.turns| <= |n.turns| && forall i :: 0 <= i < |m.turns| && !MayDelete(m.turns[i]) ==> !MayDelete(n.turns[i])
  }

  lemma AdvanceStaysPast(m: Mux, n: Mux)
    requires LocalInv(m) && |m.turns| <= |n.turns|
    requires forall i :: 0 <= i < |m.turns| ==> n.turns[i] == m.turns[i] || T.Advance(m.turns[i], n.turns[i])
    ensures StayPast(m, n)
  {
    forall i | 0 <= i < |m.turns| && !MayDelete(m.turns[i]) ensures !MayDelete(n.turns[i]) {
      PastItsDeletes(m.turns[i], n.turns[i]);
    }
  }

  lemma StepKeepsOrdered(m: Mux, n: Mux)
    requires Ordered(m) && StayPast(m, n) && |m.thread| == |m.turns| && |n.thread| == |n.turns| && m.thread <= n.thread
    requires |n.turns| > |m.turns| ==> |n.turns| == |m.turns| + 1 && Quiescent(m, n.thread[|m.turns|])
    ensures Ordered(n)
  {
    forall i, j | 0 <= i < j < |n.turns| && n.thread[i] == n.thread[j]
      ensures !MayDelete(n.turns[i])
    {
      assert !MayDelete(m.turns[i]);
    }
  }

  lemma LocalStepKeepsTable(m: Mux, i: nat, n: Mux)
    requires Synced(m) && OneReader(m) && LocalStep(m, i, n) && T.Advance(m.turns[i], n.turns[i])
    ensures Synced(n) && OneReader(n)
  {
    LocalStanding(m.turns[i], n.turns[i]);
  }

  lemma FrameStepKeepsTable(m: Mux, th: Thread, f: T.Frame, n: Mux)
    requires Synced(m) && OneReader(m) && FrameStep(m, th, f, n)
    ensures Synced(n) && OneReader(n)
  {
    if th in m.table {
      var i := m.table[th];
      assert n.turns[i].registered == m.turns[i].registered && !Dying(n.turns[i]);
    }
  }

  lemma VisitStepKeepsTable(m: Mux, i: nat, n: Mux)
    requires Synced(m) && OneReader(m) && VisitStep(m, i, n)
    ensures Synced(n) && OneReader(n)
  {
    assert n.turns[i].registered == m.turns[i].registered && Dying(n.turns[i]);
  }

  lemma ExitStepKeepsTable(m: Mux, n: Mux)
    requires Synced(m) && OneReader(m) && ExitStep(m, n)
    ensures Synced(n) && OneReader(n)
  {
    assert forall i :: 0 <= i < |n.turns| ==> n.turns[i].registered == m.turns[i].registered && !Busy(n.turns[i]);
  }

  lemma CarefulStepKeepsInv(m: Mux, l: Label, n: Mux)
    requires Inv(m) && CarefulBy(m, l, n)
    ensures Inv(n) && Isolated(m, n)
  {
    CarefulStepIsolated(m, l, n);
    IsolatedKeepsLocal(m, n);
    AdvanceStaysPast(m, n);
    StepKeepsOrdered(m, n);
    StepKeepsSharedInv(m, l, n);
  }

  lemma CarefulStepInv(m: Mux, n: Mux)
    requires Inv(m) && CarefulStep(m, n)
    ensures Inv(n) && Isolated(m, n)
  {
    var l :| CarefulBy(m, l, n);
    CarefulStepKeepsInv(m, l, n);
  }

  lemma {:induction false} CarefulInvAt(tr: seq<Mux>, i: nat)
    requires CarefulRun(tr) && Inv(tr[0]) && i < |tr|
    ensures Inv(tr[i])
  {
    if i > 0 {
      CarefulInvAt(tr, i - 1);
      CarefulStepInv(tr[i - 1], tr[i]);
    }
  }

  // ---- Any run, threads reused at will ----

  predicate SoundTurns(m: Mux) {
    forall i :: 0 <= i < |m.turns| ==> T.Inv(m.turns[i])
  }

  predicate SharedInv(m: Mux) { Synced(m) && OneReader(m) && SoundTurns(m) }

  /** Every turn takes one of its own steps, loses its entry to another turn of its thread, or does nothing. */
  ghost predicate Interleaved(m: Mux, n: Mux) {
    && |m.turns| <= |n.turns| && |m.thread| == |m.turns|
    && (forall i :: 0 <= i < |m.turns| ==> n.turns[i] == m.turns[i] || T.SharedStep(m.turns[i], n.turns[i]))
    && (forall i :: |m.turns| <= i < |n.turns| ==> T.Init(n.turns[i]))
  }

  lemma OtherLosesEntry(u: T.State)
    ensures T.SharedStep(u, u.(registered := false))
  {
    assert T.Disown(u, u.(registered := false));
  }

  lemma OthersInterleave(m: Mux, n: Mux, i: nat, th: Thread)
    requires |m.thread| == |m.turns| <= |n.turns|
    requires i < |m.turns| ==> n.turns[i] == m.turns[i] || T.SharedStep(m.turns[i], n.turns[i])
    requires forall j :: 0 <= j < |m.turns| && j != i ==>
               n.turns[j] == if m.thread[j] == th then m.turns[j].(registered := false) else m.turns[j]
    requires forall j :: |m.turns| <= j < |n.turns| ==> T.Init(n.turns[j])
    ensures Interleaved(m, n)
  {
    forall j | 0 <= j < |m.turns| ensures n.turns[j] == m.turns[j] || T.SharedStep(m.turns[j], n.turns[j]) {
      if j != i && m.thread[j] == th { OtherLosesEntry(m.turns[j]); }
    }
  }

  lemma StepInterleaves(m: Mux, l: Label, n: Mux)
    requires SharedInv(m) && StepBy(m, l, n)
    ensures Interleaved(m, n)
  {
    match l
    case Own(i) =>
    case Delete(i) => OthersInterleave(m, n, i, m.thread[i]);
    case Read(th, f) => FrameStepIsolated(m, th, f, n);
    case Eof =>
    case Visit(i) => VisitStepIsolated(m, i, n);
    case Exit => ExitIsolated(m, n);
    case Start(th) => OthersInterleave(m, n, |m.turns|, th);
  }

  lemma InterleavedKeepsTurns(m: Mux, n: Mux)
    requires SoundTurns(m) && Interleaved(m, n)
    ensures SoundTurns(n)
  {
    forall i | 0 <= i < |n.turns| ensures T.Inv(n.turns[i]) {
      if i >= |m.turns| { T.InitInv(n.turns[i]); }
      else if n.turns[i] != m.turns[i] { SharedStepKeepsInv(m.turns[i], n.turns[i]); }
    }
  }

  lemma SharedStepKeepsInv(u: T.State, v: T.State)
    requires T.Inv(u) && T.SharedStep(u, v)
    ensures T.Inv(v)
  {
    if T.Step(u, v) { T.StepKeepsInv(u, v); } else { T.DisownKeeps(u, v); }
  }

  /** Entries of one thread are unregistered, one turn moves, and the table forgets the thread. */
  lemma SharedDeleteKeepsSynced(m: Mux, i: nat, n: Mux)
    requires Synced(m) && i < |m.turns| == |n.turns| && !n.turns[i].registered
    requires n.thread == m.thread && n.table == m.table - {m.thread[i]}
    requires forall j :: 0 <= j < |m.turns| && j != i ==>
               n.turns[j] == if m.thread[j] == m.thread[i] then m.turns[j].(registered := false) else m.turns[j]
    ensures Synced(n)
  {
    forall j | 0 <= j < |n.turns|
      ensures n.turns[j].registered <==> n.thread[j] in n.table && n.table[n.thread[j]] == j
    {
      if m.thread[j] == m.thread[i] { assert !n.turns[j].registered; }
    }
  }

  lemma SharedDeleteKeepsReader(m: Mux, i: nat, n: Mux)
    requires OneReader(m) && i < |m.turns| == |n.turns| && n.mode == m.mode
    requires Busy(n.turns[i]) ==> Busy(m.turns[i]) && (Dying(m.turns[i]) ==> Dying(n.turns[i]))
    requires Dying(n.turns[i]) ==> Dying(m.turns[i])
    requires forall j :: 0 <= j < |m.turns| && j != i ==> n.turns[j].reader == m.turns[j].reader
    ensures OneReader(n)
  {
    assert forall j :: 0 <= j < |n.turns| && Busy(n.turns[j]) ==> Busy(m.turns[j]);
  }

  lemma SharedDeleteKeepsTable(m: Mux, i: nat, n: Mux)
    requires SharedInv(m) && DeleteStep(m, i, n)
    ensures Synced(n) && OneReader(n)
  {
    T.StepKeepsInv(m.turns[i], n.turns[i]);
    DeleteStanding(m.turns[i], n.turns[i]);
    SharedDeleteKeepsSynced(m, i, n);
    SharedDeleteKeepsReader(m, i, n);
  }

  lemma SharedStartKeepsSynced(m: Mux, th: Thread, n: Mux)
    requires Synced(m) && StartStep(m, th, n)
    ensures Synced(n)
  {
    forall j | 0 <= j < |n.turns|
      ensures n.turns[j].registered <==> n.thread[j] in n.table && n.table[n.thread[j]] == j
    {
      if j < |m.turns| && m.thread[j] == th { assert !n.turns[j].registered; }
    }
  }

  lemma SharedStartKeepsReader(m: Mux, n: Mux)
    requires OneReader(m) && |n.turns| == |m.turns| + 1 && !Busy(n.turns[|m.turns|]) && n.mode == m.mode
    requires forall j :: 0 <= j < |m.turns| ==> n.turns[j].reader == m.turns[j].reader
    ensures OneReader(n)
  {
    assert forall j :: 0 <= j < |n.turns| && Busy(n.turns[j]) ==> j < |m.turns| && Busy(m.turns[j]);
  }

  lemma StepKeepsSharedInv(m: Mux, l: Label, n: Mux)
    requires SharedInv(m) && StepBy(m, l, n)
    ensures SharedInv(n) && Interleaved(m, n)
  {
    StepInterleaves(m, l, n);
    InterleavedKeepsTurns(m, n);
    match l
    case Own(i) =>
      T.StepKeepsInv(m.turns[i], n.turns[i]);
      LocalStepKeepsTable(m, i, n);
    case Delete(i) => SharedDeleteKeepsTable(m, i, n);
    case Read(th, f) => FrameStepKeepsTable(m, th, f, n);
    case Eof =>
    case Visit(i) => VisitStepKeepsTable(m, i, n);
    case Exit => ExitStepKeepsTable(m, n);
    case Start(th) =>
      SharedStartKeepsSynced(m, th, n);
      SharedStartKeepsReader(m, n);
  }

  lemma SharedInvAfter(m: Mux, n: Mux)
    requires SharedInv(m) && Step(m, n)
    ensures SharedInv(n) && Interleaved(m, n)
  {
    var l :| StepBy(m, l, n);
    StepKeepsSharedInv(m, l, n);
  }

  lemma {:induction false} SharedInvAt(tr: seq<Mux>, k: nat)
    requires Run(tr) && tr[0] == EMPTY && k < |tr|
    ensures SharedInv(tr[k])
  {
    if k > 0 {
      SharedInvAt(tr, k - 1);
      assert Step(tr[k - 1], tr[k]);
      SharedInvAfter(tr[k - 1], tr[k]);
    }
  }

  /** Turn i's part of the step to tr[k]: its own step, the loss of its entry, nothing, or its registration. */
  ghost predicate PartAt(tr: seq<Mux>, k: nat, i: nat) {
    0 < k < |tr| && i < |tr[k].turns| ==>
      if i < |tr[k - 1].turns| then tr[k].turns[i] == tr[k - 1].turns[i] || T.SharedStep(tr[k - 1].turns[i], tr[k].turns[i])
      else T.Init(tr[k].turns[i])
  }

  lemma InterleavedAt(tr: seq<Mux>, k: nat, i: nat)
    requires Run(tr) && tr[0] == EMPTY
    ensures PartAt(tr, k, i)
  {
    if 0 < k < |tr| {
      SharedInvAt(tr, k - 1);
      assert Step(tr[k - 1], tr[k]);
      SharedInvAfter(tr[k - 1], tr[k]);
    }
  }

  lemma ExtendShared(run: seq<T.State>, u: T.State) returns (run': seq<T.State>)
    requires T.SharedBehavior(run) && (u == run[|run| - 1] || T.SharedStep(run[|run| - 1], u))
    ensures T.SharedBehavior(run') && run'[|run'| - 1] == u
  {
    run' := run;
    if u != run[|run| - 1] {
      run' := run + [u];
      forall i, j | 0 <= i < |run'| && 0 <= j < |run'| && j == i + 1
        ensures T.SharedStep(run'[i], run'[j])
      {
        if j < |run| { assert run'[j] == run[j]; }
        assert run'[i] == run[i];
      }
    }
  }

  lemma {:induction false} ProjectParts(tr: seq<Mux>, k: nat, i: nat) returns (run: seq<T.State>)
    requires (forall j: nat :: PartAt(tr, j, i)) && k < |tr| && tr[0] == EMPTY && i < |tr[k].turns|
    ensures T.SharedBehavior(run) && run[|run| - 1] == tr[k].turns[i]
  {
    assert PartAt(tr, k, i);
    if i >= |tr[k - 1].turns| {
      run := [tr[k].turns[i]];
    } else {
      run := ProjectParts(tr, k - 1, i);
      run := ExtendShared(run, tr[k].turns[i]);
    }
  }

  /** What any run does to one of its turns is a run of the single-turn machine whose entry others may delete: its safety
      results hold of every turn, also where a thread is reused too early. */
  lemma ProjectedSharedRun(tr: seq<Mux>, k: nat, i: nat) returns (run: seq<T.State>)
    requires Run(tr) && tr[0] == EMPTY && k < |tr| && i < |tr[k].turns|
    ensures T.SharedBehavior(run) && run[|run| - 1] == tr[k].turns[i]
  {
    forall j: nat ensures PartAt(tr, j, i) { InterleavedAt(tr, j, i); }
    run := ProjectParts(tr, k, i);
  }

  // ---- Main results of careful runs ----

  /** Turn i's part of a step from m to n: its own step, nothing, or its registration. */
  ghost predicate Projects(m: Mux, n: Mux, i: nat)
    requires i < |n.turns|
  {
    if i < |m.turns| then n.turns[i] == m.turns[i] || T.Step(m.turns[i], n.turns[i]) else T.Init(n.turns[i])
  }

  lemma ProjectsAt(tr: seq<Mux>, k: nat, i: nat)
    requires CarefulRun(tr) && Inv(tr[0]) && k + 1 < |tr| && i < |tr[k + 1].turns|
    ensures Projects(tr[k], tr[k + 1], i)
  {
    CarefulInvAt(tr, k);
    CarefulStepInv(tr[k], tr[k + 1]);
  }

  /** Per-thread isolation: what a careful run from an empty table does to one turn is a run of the single-turn
      machine, so everything proved of that machine holds of each turn of the multiplexer. */
  lemma {:induction false} ProjectedRun(tr: seq<Mux>, k: nat, i: nat) returns (run: seq<T.State>)
    requires CarefulRun(tr) && tr[0] == EMPTY && k < |tr| && i < |tr[k].turns|
    ensures T.Behavior(run) && run[|run| - 1] == tr[k].turns[i]
  {
    ProjectsAt(tr, k - 1, i);
    if i >= |tr[k - 1].turns| {
      run := Begin(tr[k].turns[i]);
    } else {
      run := ProjectedRun(tr, k - 1, i);
      if tr[k].turns[i] != tr[k - 1].turns[i] {
        run := Extend(run, tr[k].turns[i]);
      }
    }
  }

  lemma Begin(u: T.State) returns (run: seq<T.State>)
    requires T.Init(u)
    ensures T.Behavior(run) && run[|run| - 1] == u
  {
    run := [u];
  }

  lemma Extend(run: seq<T.State>, u: T.State) returns (run': seq<T.State>)
    requires T.Behavior(run) && T.Step(run[|run| - 1], u)
    ensures T.Behavior(run') && run'[|run'| - 1] == u
  {
    run' := run + [u];
    forall i, j | 0 <= i < |run'| && 0 <= j < |run'| && j == i + 1
      ensures T.Step(run'[i], run'[j])
    {
      if j < |run| { assert run'[j] == run[j]; }
      assert run'[i] == run[i];
    }
  }

  /** A frame for one thread moves no turn of another. */
  lemma FrameMovesOneThread(tr: seq<Mux>, k: nat, th: Thread, f: T.Frame, n: Mux, i: nat)
    requires Run(tr) && tr[0] == EMPTY && k < |tr| && FrameStep(tr[k], th, f, n)
    requires i < |tr[k].turns| == |tr[k].thread| && tr[k].thread[i] != th
    ensures |n.turns| == |tr[k].turns| && n.turns[i] == tr[k].turns[i]
  {
    SharedInvAt(tr, k);
    FrameKeepsOthers(tr[k], th, f, n, i);
  }

  lemma FrameKeepsOthers(m: Mux, th: Thread, f: T.Frame, n: Mux, i: nat)
    requires Synced(m) && FrameStep(m, th, f, n) && i < |m.turns| && m.thread[i] != th
    ensures |n.turns| == |m.turns| && n.turns[i] == m.turns[i]
  {
  }

  /** In a careful run no live turn is ever lost from a.turns. */
  lemma CarefulNeverOrphans(tr: seq<Mux>, k: nat, i: nat)
    requires CarefulRun(tr) && Inv(tr[0]) && k < |tr| && i < |tr[k].turns|
    ensures !T.Orphan(tr[k].turns[i])
  {
    CarefulInvAt(tr, k);
    assert T.Inv(tr[k].turns[i]);
  }

  // ---- Reuse of a thread: exactly when it is harmless ----

  /** The reader is inside this turn on its way to a delete. */
  predicate ReaderDeletes(u: T.State) {
    || u.reader.RStash? || u.reader.RTermSend? || u.reader.RSetDone? || u.reader.RDelete?
    || (u.reader.RCheck? && u.reader.f.kind.TurnCompleted? && !u.done)
  }

  /** How far the goroutine that will delete still has to go. */
  function Distance(u: T.State): nat {
    if ReaderDeletes(u) then
      if u.reader.RCheck? then 5 else if u.reader.RStash? then 4 else if u.reader.RTermSend? then 3
      else if u.reader.RSetDone? then 2 else 1
    else if u.canceller.CDelete? || u.starter.SFailDelete? then 1
    else 2
  }

  /** A step that deletes, or that brings a delete nearer without touching the table. */
  ghost predicate Toward(u: T.State, v: T.State) {
    && T.Step(u, v)
    && (PastDelete(u, v)
        || (Local(u, v) && MayDelete(v) && !Dying(v) && Distance(v) < Distance(u)))
  }

  lemma FromDelete(u: T.State) returns (v: T.State)
    requires u.reader.RDelete?
    ensures Toward(u, v)
  {
    v := u.(reader := T.RCloseInbox, registered := false);
    assert T.Delete(u, v) && T.Unregistering(u, v);
  }

  lemma FromSetDone(u: T.State) returns (v: T.State)
    requires u.reader.RSetDone?
    ensures Toward(u, v)
  {
    v := u.(reader := T.RDelete, done := true);
    assert T.SetDone(u, v) && T.Stashing(u, v);
  }

  lemma FromStash(u: T.State) returns (v: T.State)
    requires u.reader.RStash?
    ensures Toward(u, v)
  {
    v := u.(reader := T.RTermSend(u.reader.f),
            finalTurn := if u.reader.f.turn.Some? then u.reader.f.turn else u.finalTurn);
    StashIsStep(u, v);
    StashIsLocal(u, v);
  }

  lemma StashIsStep(u: T.State, v: T.State)
    requires T.Stash(u, v)
    ensures T.Step(u, v)
  {
    assert T.Stashing(u, v);
  }

  lemma StashIsLocal(u: T.State, v: T.State)
    requires T.Stash(u, v) && T.Step(u, v)
    ensures Local(u, v) && MayDelete(v) && !Dying(v) && Distance(v) < Distance(u)
  {
  }

  lemma FromCheck(u: T.State) returns (v: T.State)
    requires u.reader.RCheck? && u.reader.f.kind.TurnCompleted? && !u.done
    ensures Toward(u, v)
  {
    v := u.(reader := T.RStash(u.reader.f), routed := u.routed + [u.reader.f], ended := T.Some(u.reader.f));
    assert T.CheckLive(u, v) && T.Moving(u, v);
  }

  lemma FromTermSend(u: T.State) returns (v: T.State)
    requires u.reader.RTermSend?
    ensures Toward(u, v)
  {
    v := T.OfferHasStep(u);
    assert T.Moving(u, v);
  }

  lemma FromCancelDelete(u: T.State) returns (v: T.State)
    requires u.canceller.CDelete? && !Dying(u) && !ReaderDeletes(u)
    ensures Toward(u, v)
  {
    v := u.(canceller := T.CStore, registered := false);
    assert T.CancelDelete(u, v) && T.Cancelling(u, v);
  }

  lemma FromFailDelete(u: T.State) returns (v: T.State)
    requires u.starter.SFailDelete? && !Dying(u) && !ReaderDeletes(u)
    ensures Toward(u, v)
  {
    v := u.(starter := T.SFailDone, registered := false);
    assert T.FailDelete(u, v) && T.Failing(u, v);
  }

  lemma FromCalling(u: T.State) returns (v: T.State)
    requires u.starter.SCalling? && !u.canceller.CDelete? && !Dying(u) && !ReaderDeletes(u)
    ensures Toward(u, v)
  {
    v := u.(starter := T.SFailDelete);
    assert T.CallFailed(u, v) && T.Calling(u, v);
  }

  lemma FromStarted(u: T.State) returns (v: T.State)
    requires u.starter.SStarted? && !u.done && !u.canceller.CDelete? && !Dying(u) && !ReaderDeletes(u)
    ensures Toward(u, v)
  {
    v := u.(done := true, canceller := T.CDelete);
    assert T.CancelCall(u, v);
  }

  lemma TowardDelete(u: T.State) returns (v: T.State)
    requires MayDelete(u) && !Dying(u)
    ensures Toward(u, v)
  {
    if u.reader.RDelete? { v := FromDelete(u); }
    else if u.reader.RSetDone? { v := FromSetDone(u); }
    else if u.reader.RTermSend? { v := FromTermSend(u); }
    else if u.reader.RStash? { v := FromStash(u); }
    else if ReaderDeletes(u) { v := FromCheck(u); }
    else if u.canceller.CDelete? { v := FromCancelDelete(u); }
    else if u.starter.SFailDelete? { v := FromFailDelete(u); }
    else if u.starter.SCalling? { v := FromCalling(u); }
    else { v := FromStarted(u); }
  }

  lemma Prepend(m: Mux, run: seq<Mux>) returns (run': seq<Mux>)
    requires CarefulRun(run) && CarefulStep(m, run[0])
    ensures CarefulRun(run') && run'[0] == m && run'[|run'| - 1] == run[|run| - 1]
  {
    run' := [m] + run;
    forall i, j | 0 <= i < |run'| && 0 <= j < |run'| && j == i + 1
      ensures CarefulStep(run'[i], run'[j])
    {
      assert run'[j] == run[i];
      if i > 0 { assert run'[i] == run[i - 1]; }
    }
  }

  predicate Live(u: T.State) { !u.done && !u.starter.SFailDone? }

  /** A turn that shares its thread with one that may still delete can be orphaned by that turn's own steps. */
  lemma DriveDelete(m: Mux, j: nat, i: nat) returns (run: seq<Mux>)
    requires |m.thread| == |m.turns| && i < |m.turns| && j < |m.turns| && i != j && m.thread[i] == m.thread[j]
    requires m.mode != Failing && MayDelete(m.turns[j]) && !Dying(m.turns[j]) && Live(m.turns[i])
    ensures CarefulRun(run) && run[0] == m
    ensures |run[|run| - 1].turns| == |m.turns| && T.Orphan(run[|run| - 1].turns[i])
    decreases Distance(m.turns[j])
  {
    var u := m.turns[j];
    var v := TowardDelete(u);
    if PastDelete(u, v) {
      var n := AfterDelete(m, j, v);
      assert CarefulBy(m, Delete(j), n);
      run := Prepend(m, [n]);
    } else {
      var n := m.(turns := m.turns[j := v]);
      assert CarefulBy(m, Own(j), n);
      run := DriveDelete(n, j, i);
      run := Prepend(m, run);
    }
  }

  lemma AfterDelete(m: Mux, j: nat, v: T.State) returns (n: Mux)
    requires |m.thread| == |m.turns| && j < |m.turns| && m.mode != Failing
    requires T.Step(m.turns[j], v) && PastDelete(m.turns[j], v)
    ensures DeleteStep(m, j, n)
    ensures forall i :: 0 <= i < |m.turns| && i != j && m.thread[i] == m.thread[j] && Live(m.turns[i]) ==> T.Orphan(n.turns[i])
  {
    var turns := seq(|m.turns|, k requires 0 <= k < |m.turns| =>
      if k == j then v else if m.thread[k] == m.thread[j] then m.turns[k].(registered := false) else m.turns[k]);
    n := Mux(turns, m.thread, m.table - {m.thread[j]}, m.mode);
  }

  ghost predicate NoOrphans(run: seq<Mux>) {
    forall k, i :: 0 <= k < |run| && 0 <= i < |run[k].turns| ==> !T.Orphan(run[k].turns[i])
  }

  lemma QuiescentStartIsHarmless(m: Mux, th: Thread, n: Mux, run: seq<Mux>)
    requires Inv(m) && StartStep(m, th, n) && Quiescent(m, th) && CarefulRun(run) && run[0] == n
    ensures NoOrphans(run)
  {
    CarefulStepKeepsInv(m, Start(th), n);
    forall k, i | 0 <= k < |run| && 0 <= i < |run[k].turns|
      ensures !T.Orphan(run[k].turns[i])
    {
      CarefulNeverOrphans(run, k, i);
    }
  }

  lemma UnquietStartCanOrphan(m: Mux, th: Thread, n: Mux) returns (run: seq<Mux>)
    requires Synced(m) && OneReader(m) && StartStep(m, th, n) && !Quiescent(m, th)
    ensures CarefulRun(run) && run[0] == n && !NoOrphans(run)
  {
    var j :| 0 <= j < |m.turns| && m.thread[j] == th && MayDelete(m.turns[j]);
    run := DriveDelete(n, j, |m.turns|);
  }

  /** Starting a turn is harmless in every continuation exactly when the thread is quiescent at that moment:
      the source's own guard, that the existing entry is done, is not enough. */
  lemma StartIsHarmlessIffQuiescent(m: Mux, th: Thread, n: Mux)
    requires Inv(m) && StartStep(m, th, n)
    ensures Quiescent(m, th) <==> forall run: seq<Mux> :: CarefulRun(run) && run[0] == n ==> NoOrphans(run)
  {
    if Quiescent(m, th) {
      forall run: seq<Mux> | CarefulRun(run) && run[0] == n
        ensures NoOrphans(run)
      {
        QuiescentStartIsHarmless(m, th, n, run);
      }
    } else {
      var run := UnquietStartCanOrphan(m, th, n);
    }
  }

  /** A turn on `th` whose Cancel has won the compare-and-swap but not yet reached its delete. */
  function CancelUnderWay(th: Thread): Mux {
    Mux([Fresh(Reading).(starter := T.SStarted, done := true, canceller := T.CDelete)], [th], map[th := 0], Reading)
  }

  lemma CancelUnderWayIsReachable(th: Thread) returns (run: seq<Mux>)
    ensures CarefulRun(run) && run[0] == EMPTY && run[|run| - 1] == CancelUnderWay(th)
  {
    var u0 := Fresh(Reading);
    var u1 := u0.(starter := T.SStarted);
    assert T.CallAnswered(u0, u1) && T.Calling(u0, u1);
    var m1 := Mux([u0], [th], map[th := 0], Reading);
    var m2 := Mux([u1], [th], map[th := 0], Reading);
    var m3 := CancelUnderWay(th);
    assert T.CancelCall(u1, m3.turns[0]);
    assert CarefulBy(EMPTY, Start(th), m1) && CarefulBy(m1, Own(0), m2) && CarefulBy(m2, Own(0), m3);
    run := Prepend(m2, [m3]);
    run := Prepend(m1, run);
    run := Prepend(EMPTY, run);
  }

  /** From there StartTurn accepts the thread again, and the old Cancel goes on to delete the new turn's entry:
      the new turn is live but no frame, and no death of the child, can reach it. */
  lemma ReuseOrphansATurn(th: Thread) returns (n: Mux, run: seq<Mux>)
    ensures StartStep(CancelUnderWay(th), th, n)
    ensures CarefulRun(run) && run[0] == n
    ensures |run[|run| - 1].turns| == 2 && T.Orphan(run[|run| - 1].turns[1])
  {
    var u := CancelUnderWay(th).turns[0];
    n := Mux([u.(registered := false), Fresh(Reading)], [th, th], map[th := 1], Reading);
    run := DriveDelete(n, 0, 1);
  }
}
