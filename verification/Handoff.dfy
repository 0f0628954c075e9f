/** Background handoff between a supervisor and the owner process it started: the owner announces the task it left
    running, and exits without draining its descendants only if the supervisor commits to exactly that task. */
module Handoff {
  datatype Option<+T> = None | Some(value: T)

  const PIPE_READ: nat := 256

  /** re.fullmatch(r't_[0-9a-f]+'). */
  predicate ValidId(id: string) {
    && |id| > 2 && id[0] == 't' && id[1] == '_'
    && forall i :: 2 <= i < |id| ==> '0' <= id[i] <= '9' || 'a' <= id[i] <= 'f'
  }

  /** os.read(fd, 256) of one message. */
  function Received(message: string): string {
    if |message| <= PIPE_READ then message else message[..PIPE_READ]
  }

  function Message(id: string): string { id + "\n" }

  /** str.strip of what was read, for the trailing newline this protocol writes. */
  function Stripped(text: string): string {
    if text != "" && text[|text| - 1] == '\n' then text[..|text| - 1] else text
  }

  datatype OwnerPc =
    | Running                 // polling the command
    | Announcing              // task id read from the log, not yet written to the ready pipe
    | Waiting                 // select on the commit pipe, up to five seconds
    | Entering                // in the finally block, signals not ignored yet
    | Checking                // the last look at the commit pipe
    | Deciding
    | Draining
    | Drained                 // exited after a drain attempt
    | Released                // exited without one, the task handed over
    | Escaped                 // a signal raised inside the finally block: exited without either

  datatype SupervisorPc =
    | Polling
    | Committing              // holding the admission lock, commit not written yet
    | Recording               // commit written, `transferred` not set yet
    | Notifying               // `transferred` set; the callback and the outcome file follow
    | Killing                 // left the loop; kill_tree signals the owner
    | Unwinding               // the same under a pending exception
    | Finished                // returned its report
    | Raised                  // left by an exception: no report

  datatype State = State(
    owner: OwnerPc, taskId: Option<string>, acknowledged: bool,
    code: int,                // the owner's exit code so far
    supervisor: SupervisorPc, taskReady: Option<string>, transferred: Option<string>,
    ready: Option<string>,    // the ready pipe
    commit: Option<string>,   // the commit pipe
    // History.
    written: Option<string>,  // the commit the supervisor wrote
    late: bool,               // it was written after the owner's last look
    lost: bool)               // a signal discarded what the owner had read

  const START := State(Running, None, false, 125, Polling, None, None, None, None, None, false, false)

  predicate Init(s: State) { s == START }

  // ---- The owner ----

  /** The command fails, polling it raises, or its log names no valid task: there is nothing to hand over. */
  predicate ChildFails(s: State, t: State, code: int) {
    s.owner.Running? && code != 0 && t == s.(owner := Entering, code := code)
  }

  predicate ChildSucceeds(s: State, t: State, id: string) {
    s.owner.Running? && ValidId(id) && t == s.(owner := Announcing, taskId := Some(id), code := 0)
  }

  predicate Announce(s: State, t: State) {
    s.owner.Announcing? && s.taskId.Some? && t == s.(owner := Waiting, ready := Some(Message(s.taskId.value)))
  }

  function Answers(s: State): bool {
    s.taskId.Some? && s.commit.Some? && Received(s.commit.value) == Message(s.taskId.value)
  }

  /** acknowledge(5): a readable pipe is read, whatever it holds. */
  predicate ReadAnswer(s: State, t: State) {
    && s.owner.Waiting? && s.commit.Some?
    && t == s.(owner := Entering, acknowledged := Answers(s), commit := None, code := if Answers(s) then s.code else 125)
  }

  predicate WaitExpires(s: State, t: State) {
    s.owner.Waiting? && t == s.(owner := Entering, code := 125)
  }

  /** A signal or an OSError before the finally block; while waiting it can strike after the read and before the
      assignment. */
  predicate Interrupt(s: State, t: State, afterRead: bool, code: int) {
    && (s.owner.Running? || s.owner.Announcing? || s.owner.Waiting?) && (code == 130 || code == 127)
    && (afterRead ==> s.owner.Waiting? && s.commit.Some?)
    && t == s.(owner := Entering, commit := if afterRead then None else s.commit, lost := s.lost || afterRead, code := code)
  }

  predicate IgnoreSignals(s: State, t: State) {
    s.owner.Entering? && t == s.(owner := Checking)
  }

  /** A signal between the start of the finally block and the last SIG_IGN: KeyboardInterrupt leaves the block. */
  predicate SignalInFinally(s: State, t: State) {
    s.owner.Entering? && t == s.(owner := Escaped, code := 130)
  }

  /** `transferred = transferred or acknowledge(0)`. */
  predicate LastLook(s: State, t: State) {
    && s.owner.Checking?
    && t == s.(owner := Deciding, acknowledged := s.acknowledged || Answers(s),
               commit := if s.acknowledged || s.taskId.None? then s.commit else None)
  }

  predicate Decide(s: State, t: State) {
    && s.owner.Deciding?
    && t == s.(owner := if s.acknowledged then Released else Draining, code := if s.acknowledged then 0 else s.code)
  }

  predicate Drain(s: State, t: State, ok: bool) {
    s.owner.Draining? && t == s.(owner := Drained, code := if ok then s.code else 125)
  }

  // ---- The supervisor ----

  predicate ReadReady(s: State, t: State) {
    && s.supervisor.Polling? && s.taskReady.None? && s.ready.Some?
    && t == s.(taskReady := Some(Stripped(Received(s.ready.value))), ready := None)
  }

  predicate BeginCommit(s: State, t: State) {
    && s.supervisor.Polling? && s.taskReady.Some? && s.taskReady.value != "" && s.transferred.None?
    && t == s.(supervisor := if ValidId(s.taskReady.value) then Committing else Killing)
  }

  /** Cancelled or out of time at the check under the lock. */
  predicate AbandonCommit(s: State, t: State) {
    s.supervisor.Committing? && t == s.(supervisor := Killing)
  }

  predicate OwnerGone(o: OwnerPc) { o.Drained? || o.Released? || o.Escaped? }

  /** The owner still has its end of the pipe open. */
  predicate WriteCommit(s: State, t: State) {
    && s.supervisor.Committing? && s.taskReady.Some? && !OwnerGone(s.owner)
    && t == s.(supervisor := Recording, commit := Some(Message(s.taskReady.value)), written := s.taskReady,
               late := s.owner.Deciding? || s.owner.Draining?)
  }

  predicate RecordTransfer(s: State, t: State) {
    s.supervisor.Recording? && t == s.(supervisor := Notifying, transferred := s.taskReady)
  }

  /** on_handoff and the outcome file are done. */
  predicate NotifyDone(s: State, t: State) {
    s.supervisor.Notifying? && t == s.(supervisor := Polling)
  }

  /** Timeout, cancel, output limit, or the owner's exit: the loop ends. */
  predicate LeaveLoop(s: State, t: State) {
    s.supervisor.Polling? && t == s.(supervisor := Killing)
  }

  /** kill_tree has waited for the owner, and the report is returned. */
  predicate Finish(s: State, t: State) {
    s.supervisor.Killing? && OwnerGone(s.owner) && t == s.(supervisor := Finished)
  }

  /** The exception a signal, the record file, the commit pipe, the callback or the outcome file raises; kill_tree and
      the capture files can raise after the loop. */
  predicate Raise(s: State, t: State) {
    || ((s.supervisor.Polling? || s.supervisor.Committing? || s.supervisor.Recording? || s.supervisor.Notifying?)
        && t == s.(supervisor := Unwinding))
    || (s.supervisor.Killing? && t == s.(supervisor := Raised))
  }

  predicate Unwind(s: State, t: State) {
    s.supervisor.Unwinding? && t == s.(supervisor := Raised)
  }

  predicate OwnerWorks(s: State, t: State, id: string, code: int) {
    ChildFails(s, t, code) || ChildSucceeds(s, t, id) || Announce(s, t)
  }

  predicate OwnerWaits(s: State, t: State, code: int) {
    ReadAnswer(s, t) || WaitExpires(s, t) || Interrupt(s, t, false, code) || Interrupt(s, t, true, code)
  }

  predicate OwnerEnds(s: State, t: State) {
    || IgnoreSignals(s, t) || SignalInFinally(s, t) || LastLook(s, t) || Decide(s, t) || Drain(s, t, true) || Drain(s, t, false)
  }

  predicate SupervisorCommits(s: State, t: State) {
    ReadReady(s, t) || BeginCommit(s, t) || WriteCommit(s, t) || RecordTransfer(s, t) || NotifyDone(s, t)
  }

  predicate SupervisorEnds(s: State, t: State) {
    AbandonCommit(s, t) || LeaveLoop(s, t) || Finish(s, t) || Raise(s, t) || Unwind(s, t)
  }

  ghost predicate Step(s: State, t: State) {
    || (exists id, code :: OwnerWorks(s, t, id, code)) || (exists code :: OwnerWaits(s, t, code)) || OwnerEnds(s, t)
    || SupervisorCommits(s, t) || SupervisorEnds(s, t)
  }

  ghost predicate Behavior(tr: seq<State>) {
    && |tr| > 0 && Init(tr[0])
    && forall i, j :: 0 <= i < |tr| && 0 <= j < |tr| && j == i + 1 ==> Step(tr[i], tr[j])
  }

  // ---- Invariant ----

  predicate BeforeLook(o: OwnerPc) {
    o.Running? || o.Announcing? || o.Waiting? || o.Entering? || o.Checking?
  }

  predicate Over(p: SupervisorPc) { p.Finished? || p.Raised? }

  predicate CommitInv(s: State) {
    && (s.taskId.Some? ==> ValidId(s.taskId.value))
    && (s.written.Some? ==> ValidId(s.written.value) && s.taskReady == s.written)
    && (s.commit.Some? ==> s.written.Some? && s.commit.value == Message(s.written.value))
    && (s.supervisor.Recording? || s.supervisor.Notifying? || s.transferred.Some? ==> s.written.Some?)
    && (s.written.Some? && !s.supervisor.Recording? && !s.supervisor.Unwinding? && !s.supervisor.Raised? ==> s.transferred.Some?)
    && (s.transferred.Some? ==> s.transferred == s.written)
    && (s.supervisor.Committing? ==> s.taskReady.Some? && ValidId(s.taskReady.value) && s.written.None?)
    && (s.supervisor.Finished? ==> OwnerGone(s.owner))
  }

  predicate OwnerInv(s: State) {
    && (s.acknowledged ==> s.written.Some? && s.written == s.taskId && !s.late && !s.lost && !LongId(s))
    && (s.owner.Released? ==> s.acknowledged)
    && (s.owner.Draining? || s.owner.Drained? ==> !s.acknowledged)
    && (s.owner.Running? || s.owner.Announcing? || s.owner.Waiting? ==> !s.acknowledged)
    && (s.late || s.lost ==> s.written.Some?)
    && (s.late ==> !BeforeLook(s.owner))
    && (s.commit.Some? ==> !s.lost && !s.acknowledged)
    && (s.written.Some? && !s.late && !s.lost && !s.acknowledged ==>
          s.owner.Escaped? || (s.commit.Some? && BeforeLook(s.owner)) || LongId(s))
  }

  /** The exit code of an owner that is past its command is zero only if it may still release. */
  predicate CodeInv(s: State) {
    && (s.owner.Entering? || s.owner.Checking? || s.owner.Deciding? || s.owner.Draining? || OwnerGone(s.owner) ==>
          s.code != 0 || s.acknowledged)
    && (s.owner.Released? ==> s.code == 0)
    && (s.owner.Escaped? ==> s.code != 0)
  }

  /** The task id does not fit a single pipe read together with its newline. */
  predicate LongId(s: State) { s.taskId.Some? && |s.taskId.value| >= PIPE_READ }

  /** What travelled from the owner to the supervisor. */
  predicate ReadyInv(s: State) {
    && (s.ready.Some? ==> s.taskId.Some? && s.ready.value == Message(s.taskId.value))
    && (s.taskReady.Some? ==> s.taskId.Some? && s.taskReady.value == Stripped(Received(Message(s.taskId.value))))
    && (s.taskId.Some? ==> !s.owner.Running?)
  }

  predicate Inv(s: State) { CommitInv(s) && OwnerInv(s) && CodeInv(s) && ReadyInv(s) }

  /** A commit the owner recognises was written for its own task: a truncated message never passes. */
  lemma RecognisedMeansSame(id: string, commit: string)
    requires ValidId(id) && ValidId(commit) && Received(Message(commit)) == Message(id)
    ensures commit == id && |id| < PIPE_READ
  {
    var text := Message(commit);
    assert forall i :: 0 <= i < |commit| ==> commit[i] != '\n' && text[i] == commit[i];
    assert Received(text)[|id|] == '\n';
    assert text[..|commit|] == commit && Message(id)[..|id|] == id;
  }

  /** An id that fits is committed as it was announced, and then recognised. */
  lemma ShortIdIsRecognised(s: State)
    requires CommitInv(s) && ReadyInv(s) && s.commit.Some? && s.taskId.Some? && !LongId(s)
    ensures Answers(s)
  {
    var text := Message(s.taskId.value);
    assert text[..|text| - 1] == s.taskId.value;
  }

  lemma AnswerMeansSame(s: State)
    requires CommitInv(s) && Answers(s)
    ensures s.written.Some? && s.written == s.taskId && !LongId(s)
  {
    RecognisedMeansSame(s.taskId.value, s.written.value);
  }

  lemma WorkKeeps(s: State, t: State, id: string, code: int)
    requires Inv(s) && OwnerWorks(s, t, id, code)
    ensures Inv(t)
  {
    if ChildFails(s, t, code) { assert Inv(t); } else if Announce(s, t) { assert Inv(t); } else { assert Inv(t); }
  }

  lemma WaitKeeps(s: State, t: State, code: int)
    requires Inv(s) && OwnerWaits(s, t, code)
    ensures Inv(t)
  {
    if Answers(s) { AnswerMeansSame(s); }
    if s.commit.Some? && s.taskId.Some? && !LongId(s) { ShortIdIsRecognised(s); }
    if ReadAnswer(s, t) { assert Inv(t); } else if WaitExpires(s, t) { assert Inv(t); }
    else if Interrupt(s, t, false, code) { assert Inv(t); } else { assert Inv(t); }
  }

  lemma EndKeeps(s: State, t: State)
    requires Inv(s) && OwnerEnds(s, t)
    ensures Inv(t)
  {
    if Answers(s) { AnswerMeansSame(s); }
    if s.commit.Some? && s.taskId.Some? && !LongId(s) { ShortIdIsRecognised(s); }
    if LastLook(s, t) { assert Inv(t); } else if Decide(s, t) { assert Inv(t); }
    else if IgnoreSignals(s, t) { assert Inv(t); } else { assert Inv(t); }
  }

  lemma CommitKeeps(s: State, t: State)
    requires Inv(s) && SupervisorCommits(s, t)
    ensures Inv(t)
  {
    if WriteCommit(s, t) { assert Inv(t); } else if RecordTransfer(s, t) { assert Inv(t); }
    else if BeginCommit(s, t) { assert Inv(t); } else { assert Inv(t); }
  }

  lemma StepKeepsInv(s: State, t: State)
    requires Inv(s) && Step(s, t)
    ensures Inv(t)
  {
    if OwnerEnds(s, t) { EndKeeps(s, t); }
    else if SupervisorCommits(s, t) { CommitKeeps(s, t); }
    else if SupervisorEnds(s, t) { assert Inv(t); }
    else if code :| OwnerWaits(s, t, code) { WaitKeeps(s, t, code); }
    else {
      var id, code :| OwnerWorks(s, t, id, code);
      WorkKeeps(s, t, id, code);
    }
  }

  lemma {:induction false} InvAt(tr: seq<State>, i: nat)
    requires Behavior(tr) && i < |tr|
    ensures Inv(tr[i])
  {
    if i > 0 {
      InvAt(tr, i - 1);
      assert Step(tr[i - 1], tr[i]);
      StepKeepsInv(tr[i - 1], tr[i]);
    }
  }

  // ---- Events of a run ----

  /** By state i a signal has reached the owner between entering its finally block and ignoring signals. */
  ghost predicate SignalledInFinally(tr: seq<State>, i: nat) {
    exists k, n :: 0 <= k < n <= i && n < |tr| && n == k + 1 && SignalInFinally(tr[k], tr[n])
  }

  /** By state i the supervisor has raised after it wrote the commit. */
  ghost predicate RaisedAfterCommit(tr: seq<State>, i: nat) {
    exists k, n :: 0 <= k < n <= i && n < |tr| && n == k + 1 && tr[k].written.Some? && Raise(tr[k], tr[n])
  }

  predicate Abnormal(p: SupervisorPc) { p.Unwinding? || p.Raised? }

  /** Which step brings an owner to Escaped, and that it stays there. */
  lemma StepEscapes(s: State, t: State)
    requires Step(s, t)
    ensures t.owner.Escaped? <==> s.owner.Escaped? || SignalInFinally(s, t)
  {
    if OwnerEnds(s, t) || SupervisorCommits(s, t) || SupervisorEnds(s, t) {
    } else if code :| OwnerWaits(s, t, code) {
    } else {
      var id, code :| OwnerWorks(s, t, id, code);
    }
  }

  /** Which step brings a committed supervisor to an exception, and that it stays there. */
  lemma StepRaises(s: State, t: State)
    requires CommitInv(s) && Step(s, t)
    ensures Broke(t) <==> Broke(s) || (s.written.Some? && Raise(s, t))
  {
    if SupervisorCommits(s, t) || SupervisorEnds(s, t) {
    } else {
      OwnerLeavesSupervisor(s, t);
    }
  }

  lemma OwnerLeavesSupervisor(s: State, t: State)
    requires Step(s, t) && !SupervisorCommits(s, t) && !SupervisorEnds(s, t)
    ensures t.supervisor == s.supervisor && t.written == s.written
  {
    if OwnerEnds(s, t) {
    } else if code :| OwnerWaits(s, t, code) {
    } else {
      var id, code :| OwnerWorks(s, t, id, code);
    }
  }

  lemma EscapesOnce(tr: seq<State>, i: nat)
    requires Behavior(tr) && i + 1 < |tr|
    ensures tr[i + 1].owner.Escaped? <==> tr[i].owner.Escaped? || SignalInFinally(tr[i], tr[i + 1])
  {
    assert Step(tr[i], tr[i + 1]);
    StepEscapes(tr[i], tr[i + 1]);
  }

  lemma {:induction false} EscapedAt(tr: seq<State>, i: nat)
    requires Behavior(tr) && i < |tr|
    ensures tr[i].owner.Escaped? <==> SignalledInFinally(tr, i)
  {
    if i > 0 {
      EscapedAt(tr, i - 1);
      EscapesOnce(tr, i - 1);
    }
  }

  /** An exception is pending, or has ended the supervisor, after a commit. */
  predicate Broke(s: State) { Abnormal(s.supervisor) && s.written.Some? }

  lemma BreaksOnce(tr: seq<State>, i: nat)
    requires Behavior(tr) && i + 1 < |tr|
    ensures Broke(tr[i + 1]) <==> Broke(tr[i]) || (tr[i].written.Some? && Raise(tr[i], tr[i + 1]))
  {
    InvAt(tr, i);
    assert Step(tr[i], tr[i + 1]);
    StepRaises(tr[i], tr[i + 1]);
  }

  lemma {:induction false} BrokeAt(tr: seq<State>, i: nat)
    requires Behavior(tr) && i < |tr|
    ensures Broke(tr[i]) <==> RaisedAfterCommit(tr, i)
  {
    if i > 0 {
      BrokeAt(tr, i - 1);
      BreaksOnce(tr, i - 1);
    }
  }

  // ---- Main results: every interleaving ----

  /** An owner that is gone exited without a drain attempt exactly when it recognised the supervisor's commit to that
      very task, or a further signal reached it inside its finally block before signals were ignored. */
  lemma NoExitWithoutDrain(tr: seq<State>, i: nat)
    requires Behavior(tr) && i < |tr| && OwnerGone(tr[i].owner)
    ensures !tr[i].owner.Drained? <==> tr[i].owner.Released? || SignalledInFinally(tr, i)
    ensures tr[i].owner.Released? ==> tr[i].taskId.Some? && tr[i].written == tr[i].taskId
  {
    InvAt(tr, i);
    EscapedAt(tr, i);
  }

  /** What the supervisor's report says about the task. */
  predicate ReportsTransfer(s: State) { s.supervisor.Finished? && s.transferred.Some? }

  /** Of the tasks an owner released, a supervisor that is done has reported exactly those for which no step after the
      commit write raised: not the callback, the outcome file, nor kill_tree. */
  lemma ReleasedIsReportedIff(tr: seq<State>, i: nat)
    requires Behavior(tr) && i < |tr| && tr[i].owner.Released? && Over(tr[i].supervisor)
    ensures ReportsTransfer(tr[i]) <==> !RaisedAfterCommit(tr, i)
    ensures ReportsTransfer(tr[i]) ==> tr[i].transferred == tr[i].taskId
  {
    InvAt(tr, i);
    BrokeAt(tr, i);
  }

  /** A supervisor that reports no transfer, after a timeout or cancellation before its commit, has had the owner attempt a
      drain exactly when no signal reached the owner inside its finally block. */
  lemma AbortedMeansDrained(tr: seq<State>, i: nat)
    requires Behavior(tr) && i < |tr| && tr[i].supervisor.Finished? && !ReportsTransfer(tr[i])
    ensures tr[i].owner.Drained? <==> !SignalledInFinally(tr, i)
  {
    InvAt(tr, i);
    EscapedAt(tr, i);
  }

  /** A task reported as transferred was released by its owner exactly when the owner could still recognise the commit:
      the id fits one read, the commit was not written after the owner's last look, and no signal discarded the owner's
      read or broke its finally block. */
  lemma ReportIsTrueIffSeen(tr: seq<State>, i: nat)
    requires Behavior(tr) && i < |tr| && ReportsTransfer(tr[i])
    ensures tr[i].owner.Released? <==> !LongId(tr[i]) && !tr[i].late && !tr[i].lost && !SignalledInFinally(tr, i)
  {
    InvAt(tr, i);
    EscapedAt(tr, i);
  }

  /** And that is visible in the report itself, which carries the owner's exit code: the task was released exactly when
      that code is zero. */
  lemma ReportIsTrueIffOwnerExitsZero(tr: seq<State>, i: nat)
    requires Behavior(tr) && i < |tr| && tr[i].supervisor.Finished?
    ensures tr[i].owner.Released? <==> tr[i].code == 0
    ensures tr[i].code == 0 ==> ReportsTransfer(tr[i]) && tr[i].transferred == tr[i].taskId
  {
    InvAt(tr, i);
  }

  // ---- Runs in which the stated intent fails ----

  lemma Then(tr: seq<State>, t: State) returns (longer: seq<State>)
    requires Behavior(tr) && Step(tr[|tr| - 1], t)
    ensures Behavior(longer) && longer == tr + [t]
  {
    longer := tr + [t];
    forall i, j | 0 <= i < |longer| && 0 <= j < |longer| && j == i + 1 ensures Step(longer[i], longer[j]) {
      assert longer[i] == tr[i];
      if j < |tr| { assert longer[j] == tr[j]; }
    }
  }

  /** The owner waits for the answer and the supervisor holds the admission lock. */
  function AtCommit(id: string): State {
    START.(owner := Waiting, taskId := Some(id), code := 0, supervisor := Committing, taskReady := Some(id))
  }

  lemma ReachCommit(id: string) returns (tr: seq<State>)
    requires ValidId(id) && |id| < PIPE_READ
    ensures Behavior(tr) && tr[|tr| - 1] == AtCommit(id)
  {
    var s1 := START.(owner := Announcing, taskId := Some(id), code := 0);
    var s2 := s1.(owner := Waiting, ready := Some(Message(id)));
    var s3 := s2.(taskReady := Some(id), ready := None);
    assert Message(id)[..|id|] == id;
    assert OwnerWorks(START, s1, id, 1) && OwnerWorks(s1, s2, id, 1) && ReadReady(s2, s3) && BeginCommit(s3, AtCommit(id));
    tr := [START, s1, s2, s3, AtCommit(id)];
  }

  /** The commit can be written too late: the owner drains, and the supervisor still reports the task as transferred. */
  lemma CommitCanBeLate(id: string) returns (tr: seq<State>)
    requires ValidId(id) && |id| < PIPE_READ
    ensures Behavior(tr)
    ensures var last := tr[|tr| - 1]; last.owner.Drained? && ReportsTransfer(last) && last.transferred == Some(id)
  {
    tr := ReachCommit(id);
    var s1 := AtCommit(id).(owner := Entering, code := 125);
    var s2 := s1.(owner := Checking);
    var s3 := s2.(owner := Deciding);
    var s4 := s3.(supervisor := Recording, commit := Some(Message(id)), written := Some(id), late := true);
    var s5 := s4.(supervisor := Notifying, transferred := Some(id));
    var s6 := s5.(supervisor := Polling);
    var s7 := s6.(owner := Draining);
    var s8 := s7.(owner := Drained);
    var s9 := s8.(supervisor := Killing);
    assert OwnerWaits(AtCommit(id), s1, 130);
    tr := Then(tr, s1);
    tr := Then(tr, s2);
    tr := Then(tr, s3);
    tr := Then(tr, s4);
    tr := Then(tr, s5);
    tr := Then(tr, s6);
    tr := Then(tr, s7);
    assert Drain(s7, s8, true);
    tr := Then(tr, s8);
    tr := Then(tr, s9);
    tr := Then(tr, s9.(supervisor := Finished));
  }

  /** The callback or the outcome file can raise after the commit: the owner releases the task and nothing is reported. */
  lemma ReleasedWithoutReport(id: string) returns (tr: seq<State>)
    requires ValidId(id) && |id| < PIPE_READ
    ensures Behavior(tr)
    ensures var last := tr[|tr| - 1]; last.owner.Released? && last.taskId == Some(id) && last.supervisor.Raised? && !ReportsTransfer(last)
  {
    tr := ReachCommit(id);
    var s1 := AtCommit(id).(supervisor := Recording, commit := Some(Message(id)), written := Some(id));
    var s2 := s1.(supervisor := Notifying, transferred := Some(id));
    var s3 := s2.(owner := Entering, acknowledged := true, commit := None);
    var s4 := s3.(supervisor := Unwinding);
    var s5 := s4.(owner := Checking);
    var s6 := s5.(owner := Deciding);
    var s7 := s6.(owner := Released);
    tr := Then(tr, s1);
    tr := Then(tr, s2);
    assert OwnerWaits(s2, s3, 130);
    tr := Then(tr, s3);
    tr := Then(tr, s4);
    tr := Then(tr, s5);
    tr := Then(tr, s6);
    tr := Then(tr, s7);
    tr := Then(tr, s7.(supervisor := Raised));
  }

  /** A signal can reach the owner inside its finally block: the supervisor gives up before any commit, its kill_tree
      strikes there, and the owner exits without attempting a drain of the task it left running. */
  lemma AbortedWithoutDrain(id: string) returns (tr: seq<State>)
    requires ValidId(id) && |id| < PIPE_READ
    ensures Behavior(tr)
    ensures var last := tr[|tr| - 1];
            && last.owner.Escaped? && last.taskId == Some(id) && last.written.None?
            && last.supervisor.Finished? && !ReportsTransfer(last)
  {
    tr := ReachCommit(id);
    var s1 := AtCommit(id).(supervisor := Killing);
    var s2 := s1.(owner := Entering, code := 125);
    var s3 := s2.(owner := Escaped, code := 130);
    tr := Then(tr, s1);
    assert OwnerWaits(s1, s2, 130);
    tr := Then(tr, s2);
    tr := Then(tr, s3);
    tr := Then(tr, s3.(supervisor := Finished));
  }
}
