/** One in-flight turn of the shared `codex app-server` stream.

    The shared reader goroutine, the turn's pump goroutine, the goroutine inside
    StartTurn, any caller of TurnHandle.Cancel and the consumer run concurrently.
    Each is a program counter, and a step is one atomic action of one of them under
    Go's channel rules (a send on, or a close of, a closed channel panics). */
module TurnPump {
  import opened Sequences

  datatype Option<+T> = None | Some(value: T)

  const INBOX_CAP: nat := 256
  const EVENTS_CAP: nat := 64
  datatype Method = TurnCompleted | Other(name: string)

  datatype TurnStatus = Completed | Failed | Cancelled | Unknown(text: string)

  /** TurnError: `CodexExited` is the code the reader stamps itself. */
  datatype TurnError = NoError | CodexExited | Reported(message: string)

  datatype Turn = Turn(status: TurnStatus, error: TurnError)

  /** A notification for this turn's thread; `turn` is what decodeTurn finds in its params. */
  datatype Frame = Frame(kind: Method, body: nat, turn: Option<Turn>)

  datatype Event = Note(frame: Frame) | EventsLost

  const CODEX_EXITED := Turn(Failed, CodexExited)

  datatype ReaderPc =
    | RIdle | RGone
    | RCheck(f: Frame)                          // looked up under turnsMu, done not yet loaded
    | RSend(f: Frame) | RMarkLost
    | RStash(f: Frame) | RTermSend(f: Frame) | RSetDone | RDelete | RCloseInbox
    | RDiedDone | RDiedStamp | RDiedClose | RDiedDelete

  datatype PumpPc =
    | PRecv
    | PLoss(f: Frame) | PMarker(f: Frame) | PForward(f: Frame)
    | PFinalLoss | PFinalMarker | PResult
    | PCloseEvents | PCloseResult | PDone

  datatype StartPc = SCalling | SFailDelete | SFailDone | SFailClose | SFailed | SStarted

  datatype CancelPc = CIdle | CDelete | CStore | CClose | CReturned

  datatype State = State(
    registered: bool,
    reader: ReaderPc, pump: PumpPc, starter: StartPc, canceller: CancelPc,
    inbox: seq<Frame>, inboxClosed: bool, inboxOnce: bool,
    events: seq<Event>, eventsClosed: bool,
    result: Option<Turn>, resultClosed: bool,
    canceled: bool, cancelOnce: bool,
    finalTurn: Option<Turn>, done: bool, eventsLost: bool, lostSignaled: bool,
    panicked: bool,
    // History, never read by a step.
    routed: seq<Frame>,      // frames the reader took past the done check
    accepted: seq<Frame>,    // frames put on the inbox
    pulled: seq<Frame>,      // frames the pump received
    sent: seq<Event>,        // events put on the consumer channel
    reported: Option<Turn>,  // the turn put on the result channel (capacity 1)
    dropped: nat,            // non-terminal frames refused by a full inbox
    naturalExit: bool,       // the pump left through the closed inbox
    markers: nat,            // loss markers put on the consumer channel
    ended: Option<Frame>     // the terminal frame routed, once it is past the done check
  )

  /** The turn as StartTurn registers it; the reader may already have exited. */
  predicate Init(s: State) {
    && (s.reader == RIdle || s.reader == RGone)
    && s == State(true, s.reader, PRecv, SCalling, CIdle, [], false, false, [], false, None, false,
                  false, false, None, false, false, false, false, [], [], [], [], None, 0, false, 0, None)
  }

  // ---- The reader: routeNotification ----

  /** The lookup under turnsMu finds this turn. */
  predicate Lookup(s: State, f: Frame, t: State) {
    s.reader.RIdle? && s.registered && t == s.(reader := RCheck(f))
  }

  predicate CheckDone(s: State, t: State) {
    s.reader.RCheck? && s.done && t == s.(reader := RIdle)
  }

  predicate CheckLive(s: State, t: State) {
    && s.reader.RCheck? && !s.done
    && var f := s.reader.f;
       t == s.(reader := if f.kind.TurnCompleted? then RStash(f) else RSend(f),
               routed := s.routed + [f],
               ended := if f.kind.TurnCompleted? then Some(f) else s.ended)
  }

  predicate Stash(s: State, t: State) {
    && s.reader.RStash?
    && var f := s.reader.f;
       t == s.(reader := RTermSend(f), finalTurn := if f.turn.Some? then f.turn else s.finalTurn)
  }

  predicate Offering(r: ReaderPc) { r.RSend? || r.RTermSend? }

  /** `case ts.inbox <- n:` */
  predicate OfferTaken(s: State, t: State) {
    && Offering(s.reader) && (|s.inbox| < INBOX_CAP || s.inboxClosed)
    && t == s.(reader := if s.reader.RSend? then RIdle else RSetDone,
               inbox := s.inbox + [s.reader.f], accepted := s.accepted + [s.reader.f],
               panicked := s.panicked || s.inboxClosed)
  }

  /** `default:` */
  predicate OfferRefused(s: State, t: State) {
    && Offering(s.reader) && |s.inbox| >= INBOX_CAP && !s.inboxClosed
    && t == s.(reader := if s.reader.RSend? then RMarkLost else RSetDone,
               dropped := s.dropped + if s.reader.RSend? then 1 else 0)
  }

  predicate MarkLost(s: State, t: State) {
    s.reader.RMarkLost? && t == s.(reader := RIdle, eventsLost := true)
  }

  predicate SetDone(s: State, t: State) {
    s.reader.RSetDone? && t == s.(reader := RDelete, done := true)
  }

  predicate Delete(s: State, t: State) {
    s.reader.RDelete? && t == s.(reader := RCloseInbox, registered := false)
  }

  /** closeInbox under inboxOnce, after turn/completed or after the child died. */
  predicate CloseInbox(s: State, t: State) {
    && (s.reader.RCloseInbox? || s.reader.RDiedClose?)
    && t == s.(reader := if s.reader.RCloseInbox? then RIdle else RDiedDelete,
               inboxOnce := true, inboxClosed := true,
               panicked := s.panicked || (!s.inboxOnce && s.inboxClosed))
  }

  // ---- The reader: failPendingRequests, after the child's stdout ends ----

  predicate Eof(s: State, t: State) {
    s.reader.RIdle? && t == s.(reader := if s.registered then RDiedDone else RGone)
  }

  predicate DiedDone(s: State, t: State) {
    s.reader.RDiedDone? && t == s.(reader := RDiedStamp, done := true)
  }

  predicate DiedStamp(s: State, t: State) {
    && s.reader.RDiedStamp?
    && t == s.(reader := RDiedClose, finalTurn := if s.finalTurn.None? then Some(CODEX_EXITED) else s.finalTurn)
  }

  predicate DiedDelete(s: State, t: State) {
    s.reader.RDiedDelete? && t == s.(reader := RGone, registered := false)
  }

  // ---- The pump ----

  predicate Receive(s: State, t: State) {
    && s.pump.PRecv? && |s.inbox| > 0
    && t == s.(pump := PLoss(s.inbox[0]), inbox := s.inbox[1..], pulled := s.pulled + [s.inbox[0]])
  }

  predicate SeeClosed(s: State, t: State) {
    s.pump.PRecv? && |s.inbox| == 0 && s.inboxClosed && t == s.(pump := PFinalLoss, naturalExit := true)
  }

  predicate SeeCanceled(s: State, t: State) {
    s.pump.PRecv? && s.canceled && t == s.(pump := PCloseEvents)
  }

  /** forwardEventsLostIfNeeded: load eventsLost, then CompareAndSwap(eventsLostSignaled). */
  predicate CheckLoss(s: State, t: State) {
    && (s.pump.PLoss? || s.pump.PFinalLoss?)
    && var signal := s.eventsLost && !s.lostSignaled;
       t == s.(pump := if s.pump.PLoss? then (if signal then PMarker(s.pump.f) else PForward(s.pump.f))
                       else (if signal then PFinalMarker else PResult),
               lostSignaled := s.lostSignaled || signal)
  }

  predicate Forwarding(p: PumpPc) { p.PMarker? || p.PForward? || p.PFinalMarker? }

  function Forwarded(p: PumpPc): Event
    requires Forwarding(p)
  {
    if p.PForward? then Note(p.f) else EventsLost
  }

  function AfterForward(p: PumpPc): PumpPc
    requires Forwarding(p)
  {
    if p.PMarker? then PForward(p.f) else if p.PForward? then PRecv else PResult
  }

  /** forward: `case ts.events <- n:`, blocked while the buffer is full. */
  predicate Send(s: State, t: State) {
    && Forwarding(s.pump) && (|s.events| < EVENTS_CAP || s.eventsClosed)
    && var e := Forwarded(s.pump);
       t == s.(pump := AfterForward(s.pump), events := s.events + [e], sent := s.sent + [e],
               markers := s.markers + (if e.EventsLost? then 1 else 0),
               panicked := s.panicked || s.eventsClosed)
  }

  /** forward: `case <-ts.canceled:` */
  predicate Abandon(s: State, t: State) {
    Forwarding(s.pump) && s.canceled && t == s.(pump := AfterForward(s.pump))
  }

  /** Offer finalTurn, if any, on the result channel of capacity 1. */
  predicate Report(s: State, t: State) {
    && s.pump.PResult?
    && var send := s.finalTurn.Some? && (s.result.None? || s.resultClosed);
       t == s.(pump := PCloseEvents, result := if send then s.finalTurn else s.result,
               reported := if send then s.finalTurn else s.reported,
               panicked := s.panicked || (send && s.resultClosed))
  }

  predicate CloseEvents(s: State, t: State) {
    s.pump.PCloseEvents?
    && t == s.(pump := PCloseResult, eventsClosed := true, panicked := s.panicked || s.eventsClosed)
  }

  predicate CloseResult(s: State, t: State) {
    s.pump.PCloseResult?
    && t == s.(pump := PDone, resultClosed := true, panicked := s.panicked || s.resultClosed)
  }

  // ---- StartTurn after registration: the turn/start call answers, or fails and is undone ----

  predicate CallAnswered(s: State, t: State) {
    s.starter.SCalling? && t == s.(starter := SStarted)
  }

  predicate CallFailed(s: State, t: State) {
    s.starter.SCalling? && t == s.(starter := SFailDelete)
  }

  predicate FailDelete(s: State, t: State) {
    s.starter.SFailDelete? && t == s.(starter := SFailDone, registered := false)
  }

  predicate FailDone(s: State, t: State) {
    s.starter.SFailDone? && t == s.(starter := SFailClose, done := true)
  }

  /** signalCancel's close(ts.canceled) under cancelOnce. */
  predicate FailClose(s: State, t: State) {
    && s.starter.SFailClose?
    && t == s.(starter := SFailed, cancelOnce := true, canceled := true,
               panicked := s.panicked || (!s.cancelOnce && s.canceled))
  }

  // ---- TurnHandle.Cancel, by any number of callers ----

  /** done.CompareAndSwap(false, true): only the caller that wins it goes on. */
  predicate CancelCall(s: State, t: State) {
    && s.starter.SStarted?
    && t == s.(done := true, canceller := if s.done then s.canceller else CDelete)
  }

  predicate CancelDelete(s: State, t: State) {
    s.canceller.CDelete? && t == s.(canceller := CStore, registered := false)
  }

  predicate CancelStore(s: State, t: State) {
    s.canceller.CStore? && t == s.(canceller := CClose, done := true)
  }

  predicate CancelClose(s: State, t: State) {
    && s.canceller.CClose?
    && t == s.(canceller := CReturned, cancelOnce := true, canceled := true,
               panicked := s.panicked || (!s.cancelOnce && s.canceled))
  }

  // ---- The consumer ----

  predicate TakeEvent(s: State, t: State) {
    |s.events| > 0 && t == s.(events := s.events[1..])
  }

  predicate TakeResult(s: State, t: State) {
    s.result.Some? && t == s.(result := None)
  }

  // Steps in pairs, so that each proof below is about two updates of the state.

  ghost predicate Looking(s: State, t: State) { (exists f :: Lookup(s, f, t)) || CheckDone(s, t) }

  predicate Stashing(s: State, t: State) { Stash(s, t) || SetDone(s, t) }

  predicate Unregistering(s: State, t: State) { Delete(s, t) || CloseInbox(s, t) }

  predicate Dying(s: State, t: State) { Eof(s, t) || DiedDone(s, t) }

  predicate Died(s: State, t: State) { DiedStamp(s, t) || DiedDelete(s, t) }

  predicate Selecting(s: State, t: State) { SeeClosed(s, t) || SeeCanceled(s, t) }

  predicate Finishing(s: State, t: State) { CheckLoss(s, t) || Report(s, t) }

  predicate Closing(s: State, t: State) { CloseEvents(s, t) || CloseResult(s, t) }

  predicate Calling(s: State, t: State) { CallAnswered(s, t) || CallFailed(s, t) }

  predicate Failing(s: State, t: State) { FailDelete(s, t) || FailDone(s, t) }

  predicate Cancelling(s: State, t: State) { CancelDelete(s, t) || CancelStore(s, t) }

  predicate Signalling(s: State, t: State) { FailClose(s, t) || CancelClose(s, t) }

  predicate Taking(s: State, t: State) { TakeEvent(s, t) || TakeResult(s, t) }

  /** The steps that move frames. */
  predicate Moving(s: State, t: State) {
    || CheckLive(s, t) || OfferTaken(s, t) || OfferRefused(s, t)
    || Receive(s, t) || Send(s, t) || Abandon(s, t)
  }

  /** One atomic step of the reader, the pump, StartTurn or a Cancel under way that moves no frame. */
  ghost predicate Quiet(s: State, t: State) {
    || Looking(s, t) || MarkLost(s, t) || Stashing(s, t) || Unregistering(s, t) || Dying(s, t) || Died(s, t)
    || Selecting(s, t) || Finishing(s, t) || Closing(s, t)
    || Calling(s, t) || Failing(s, t) || Cancelling(s, t) || Signalling(s, t)
  }

  ghost predicate Internal(s: State, t: State) {
    Moving(s, t) || Quiet(s, t)
  }

  ghost predicate Step(s: State, t: State) {
    Internal(s, t) || CancelCall(s, t) || Taking(s, t)
  }

  /** A turn of the same thread deletes or replaces this turn's entry: the key of a.turns is the thread. */
  predicate Disown(s: State, t: State) {
    t == s.(registered := false)
  }

  /** A step of a turn that may share its thread with others. */
  ghost predicate SharedStep(s: State, t: State) {
    Step(s, t) || Disown(s, t)
  }

  /** Every interleaving of a turn alone on its thread. */
  ghost predicate Behavior(tr: seq<State>) {
    SharedBehavior(tr) && forall i, j :: 0 <= i < |tr| && 0 <= j < |tr| && j == i + 1 ==> Step(tr[i], tr[j])
  }

  /** Every interleaving: a finite sequence of states, each one step from the last. */
  ghost predicate SharedBehavior(tr: seq<State>) {
    && |tr| > 0 && Init(tr[0])
    && forall i, j :: 0 <= i < |tr| && 0 <= j < |tr| && j == i + 1 ==> SharedStep(tr[i], tr[j])
  }

  // ---- Vocabulary of the claims ----

  function Notes(es: seq<Event>): seq<Frame> {
    if es == [] then []
    else Notes(es[..|es| - 1]) + (if es[|es| - 1].Note? then [es[|es| - 1].frame] else [])
  }

  function LossMarkers(es: seq<Event>): nat {
    if es == [] then 0
    else LossMarkers(es[..|es| - 1]) + (if es[|es| - 1].EventsLost? then 1 else 0)
  }

  /** The notes sent so far, followed by the frame the pump received but has not yet offered. */
  function SentOrHeld(s: State): seq<Frame> {
    if s.pump.PLoss? || s.pump.PMarker? || s.pump.PForward? then Notes(s.sent) + [s.pump.f] else Notes(s.sent)
  }

  /** The frames accepted so far, followed by the one the reader is about to offer. */
  function AcceptedOrOffered(s: State): seq<Frame> {
    if s.reader.RSend? || s.reader.RTermSend? || s.reader.RStash? then s.accepted + [s.reader.f] else s.accepted
  }

  /** Missing from a.turns although nothing has ended it: no frame and no child death can reach it. */
  predicate Orphan(s: State) {
    !s.registered && !s.done && !s.starter.SFailDone?
  }

  predicate Natural(p: PumpPc) { p.PFinalLoss? || p.PFinalMarker? || p.PResult? }

  predicate Exiting(p: PumpPc) { p.PCloseEvents? || p.PCloseResult? || p.PDone? }

  // ---- The inductive invariant ----

  predicate ChannelInv(s: State) {
    && !s.panicked
    && s.inboxOnce == s.inboxClosed
    && s.cancelOnce == s.canceled
    && (s.eventsClosed <==> s.pump.PCloseResult? || s.pump.PDone?)
    && (s.resultClosed <==> s.pump.PDone?)
    && |s.inbox| <= INBOX_CAP && |s.events| <= EVENTS_CAP
    && (s.result.Some? ==> s.result == s.reported)
    && (s.reported.Some? ==> Exiting(s.pump))
  }

  /** What a closed inbox, an unregistered turn and each reader position imply. */
  predicate ReaderInv(s: State) {
    && (s.inboxClosed ==> s.done && (s.reader.RIdle? || s.reader.RGone? || s.reader.RDiedDelete? || s.reader.RCheck?))
    && (s.inboxClosed && !s.reader.RDiedDelete? ==> !s.registered)
    && (s.reader.RDelete? || s.reader.RCloseInbox? || s.reader.RDiedStamp? || s.reader.RDiedClose? ==> s.done)
    && (s.reader.RDiedDelete? ==> s.inboxClosed)
    && (s.reader.RCloseInbox? ==> !s.registered)
    && (s.reader.RStash? || s.reader.RTermSend? ==> s.reader.f.kind.TurnCompleted?)
    && (s.reader.RSend? ==> s.reader.f.kind.Other?)
  }

  /** Who closed `canceled`. */
  predicate CancelInv(s: State) {
    && (s.canceled <==> s.starter.SFailed? || s.canceller.CReturned?)
    && (!s.canceller.CIdle? ==> s.starter.SStarted? && s.done)
    && (s.canceled || s.starter.SFailClose? ==> s.done)
  }

  /** A terminal frame makes a turn leave a.turns, and a done turn is still there only for a moment. */
  predicate RegisteredInv(s: State) {
    && (s.registered && s.done ==> s.reader.RDelete? || s.canceller.CDelete? || s.reader.RDiedStamp? || s.reader.RDiedClose? || s.reader.RDiedDelete?)
    && (s.ended.Some? && s.registered ==> s.reader.RStash? || s.reader.RTermSend? || s.reader.RSetDone? || s.reader.RDelete?)
    && (s.reader.RDiedDone? || s.reader.RDiedStamp? || s.reader.RDiedClose? || s.reader.RDiedDelete? ==> s.ended.None?)
    && (s.starter.SFailDone? ==> !s.registered)
  }

  predicate PumpInv(s: State) {
    && (Natural(s.pump) ==> s.naturalExit)
    && (s.naturalExit ==> s.inboxClosed && |s.inbox| == 0 && (Natural(s.pump) || Exiting(s.pump)))
    && (Exiting(s.pump) && !s.naturalExit ==> s.canceled)
  }

  predicate FlowInv(s: State) {
    && s.accepted == s.pulled + s.inbox
    && Subsequence(SentOrHeld(s), s.pulled)
    && (!s.canceled ==> SentOrHeld(s) == s.pulled)
    && Subsequence(AcceptedOrOffered(s), s.routed)
  }

  predicate LossInv(s: State) {
    && (s.eventsLost || s.reader.RMarkLost? <==> s.dropped > 0)
    && (s.lostSignaled ==> s.eventsLost)
    && (!s.canceled ==> s.markers == (if s.lostSignaled && !s.pump.PMarker? && !s.pump.PFinalMarker? then 1 else 0))
    && (s.pump.PMarker? || s.pump.PFinalMarker? ==> s.lostSignaled && s.markers == 0)
    && (s.naturalExit && (s.pump.PResult? || Exiting(s.pump)) ==> (s.lostSignaled <==> s.eventsLost))
    && s.markers <= (if s.lostSignaled then 1 else 0)
  }

  predicate FinalInv(s: State) {
    && (s.reader.RStash? || s.reader.RTermSend? ==> s.ended == Some(s.reader.f))
    && (s.reader.RSetDone? || s.reader.RDelete? || s.reader.RCloseInbox? ==> s.ended.Some?)
    && (s.ended.Some? && !s.reader.RStash? && !s.reader.RTermSend? && !s.reader.RSetDone? ==> s.done)
    && (s.ended.Some? && s.ended.value.turn.Some? && !s.reader.RStash? ==> s.finalTurn == s.ended.value.turn)
    && (s.finalTurn.Some? ==>
          || (s.ended.Some? && s.ended.value.turn == s.finalTurn)
          || (s.finalTurn.value == CODEX_EXITED && s.ended.None?
              && (s.reader.RDiedClose? || s.reader.RDiedDelete? || s.reader.RGone?)))
    && (s.inboxClosed && s.finalTurn.None? ==> s.ended.Some?)
    && ((s.reader.RDiedClose? || s.reader.RDiedDelete?) ==> s.finalTurn.Some?)
    && (s.naturalExit && Exiting(s.pump) ==> s.reported == s.finalTurn)
    && (!s.naturalExit ==> s.reported.None?)
  }

  predicate ControlInv(s: State) {
    ChannelInv(s) && ReaderInv(s) && CancelInv(s) && RegisteredInv(s) && PumpInv(s) && LossInv(s) && FinalInv(s)
  }

  /** The scalar histories summarise the sequence histories. */
  predicate SummaryInv(s: State) {
    && s.markers == LossMarkers(s.sent)
    && (forall i :: 0 <= i < |s.routed| && s.routed[i].kind.TurnCompleted? ==> i == |s.routed| - 1)
    && (if s.ended.Some? then s.routed != [] && s.routed[|s.routed| - 1] == s.ended.value && s.ended.value.kind.TurnCompleted?
        else forall i :: 0 <= i < |s.routed| ==> s.routed[i].kind.Other?)
  }

  predicate Inv(s: State) {
    ControlInv(s) && SummaryInv(s) && FlowInv(s)
  }

  lemma NotesAppend(es: seq<Event>, e: Event)
    ensures Notes(es + [e]) == Notes(es) + (if e.Note? then [e.frame] else [])
    ensures LossMarkers(es + [e]) == LossMarkers(es) + (if e.EventsLost? then 1 else 0)
  {
    assert (es + [e])[..|es|] == es;
  }

  lemma InitInv(s: State)
    requires Init(s)
    ensures Inv(s)
  {
  }

  /** Nothing the frame histories say has changed. */
  predicate SameData(s: State, t: State) {
    && t.sent == s.sent && t.markers == s.markers && t.routed == s.routed && t.ended == s.ended
    && t.accepted == s.accepted && t.pulled == s.pulled && t.inbox == s.inbox
    && SentOrHeld(t) == SentOrHeld(s) && AcceptedOrOffered(t) == AcceptedOrOffered(s)
    && (s.canceled ==> t.canceled)
  }

  /** How a step moves the program counters, and which moves unregister the turn. */
  predicate Advance(s: State, t: State) {
    && (s.done ==> t.done) && (s.canceled ==> t.canceled)
    && (s.eventsClosed ==> t.eventsClosed) && (s.naturalExit ==> t.naturalExit)
    && StarterAdvance(s, t) && CancellerAdvance(s, t) && ReaderAdvance(s, t)
    && (t.registered == s.registered
        || (!t.registered && (s.reader != t.reader || s.starter != t.starter || s.canceller != t.canceller)
            && (s.reader.RDelete? || s.reader.RDiedDelete? || s.starter.SFailDelete? || s.canceller.CDelete?)))
  }

  /** Only the consumer takes the result, only a Cancel call leaves the idle canceller, and a done turn is routed nothing. */
  predicate Untouched(s: State, t: State) {
    && (s.result == s.reported ==> t.result == t.reported)
    && (s.canceller.CIdle? ==> t.canceller.CIdle?)
    && (s.done ==> t.routed == s.routed)
  }

  predicate StarterAdvance(s: State, t: State) {
    || t.starter == s.starter
    || (&& t.reader == s.reader && t.canceller == s.canceller
        && match s.starter
           case SCalling => (t.starter.SStarted? || t.starter.SFailDelete?) && t.registered == s.registered
           case SFailDelete => t.starter.SFailDone? && !t.registered
           case SFailDone => t.starter.SFailClose? && t.done && t.registered == s.registered
           case SFailClose => t.starter.SFailed? && t.registered == s.registered
           case _ => false)
  }

  predicate CancellerAdvance(s: State, t: State) {
    || t.canceller == s.canceller
    || (&& t.reader == s.reader && t.starter == s.starter
        && match s.canceller
           case CIdle => t.canceller.CDelete? && s.starter.SStarted? && !s.done && t.done && t.registered == s.registered
           case CDelete => t.canceller.CStore? && !t.registered
           case CStore => t.canceller.CClose? && t.registered == s.registered
           case CClose => t.canceller.CReturned? && t.registered == s.registered
           case CReturned => false)
  }

  predicate ReaderAdvance(s: State, t: State) {
    || t.reader == s.reader
    || (&& t.starter == s.starter && t.canceller == s.canceller
        && (t.registered == s.registered || s.reader.RDelete? || s.reader.RDiedDelete?)
        && match s.reader
           case RIdle => (t.reader.RCheck? && s.registered) || (if s.registered then t.reader.RDiedDone? else t.reader.RGone?)
           case RCheck(f) => if s.done then t.reader.RIdle? else if f.kind.TurnCompleted? then t.reader.RStash? else t.reader.RSend?
           case RSend(_) => t.reader.RIdle? || t.reader.RMarkLost?
           case RMarkLost => t.reader.RIdle?
           case RStash(_) => t.reader.RTermSend?
           case RTermSend(_) => t.reader.RSetDone?
           case RSetDone => t.reader.RDelete?
           case RDelete => t.reader.RCloseInbox? && !t.registered
           case RCloseInbox => t.reader.RIdle?
           case RDiedDone => t.reader.RDiedStamp?
           case RDiedStamp => t.reader.RDiedClose?
           case RDiedClose => t.reader.RDiedDelete?
           case RDiedDelete => t.reader.RGone? && !t.registered
           case RGone => false)
  }

  lemma LookingKeeps(s: State, t: State)
    requires ControlInv(s) && Looking(s, t)
    ensures ControlInv(t) && SameData(s, t) && Advance(s, t) && Untouched(s, t)
  {
    if CheckDone(s, t) { assert ControlInv(t) && SameData(s, t) && Advance(s, t) && Untouched(s, t); }
    else { assert ControlInv(t) && SameData(s, t) && Advance(s, t) && Untouched(s, t); }
  }

  lemma StashingKeeps(s: State, t: State)
    requires ControlInv(s) && Stashing(s, t)
    ensures ControlInv(t) && SameData(s, t) && Advance(s, t) && Untouched(s, t)
  {
    if Stash(s, t) { assert ControlInv(t) && SameData(s, t) && Advance(s, t) && Untouched(s, t); }
    else { assert ControlInv(t) && SameData(s, t) && Advance(s, t) && Untouched(s, t); }
  }

  lemma UnregisteringKeeps(s: State, t: State)
    requires ControlInv(s) && Unregistering(s, t)
    ensures ControlInv(t) && SameData(s, t) && Advance(s, t) && Untouched(s, t)
  {
    if Delete(s, t) { assert ControlInv(t) && SameData(s, t) && Advance(s, t) && Untouched(s, t); }
    else { assert ControlInv(t) && SameData(s, t) && Advance(s, t) && Untouched(s, t); }
  }

  lemma DyingKeeps(s: State, t: State)
    requires ControlInv(s) && Dying(s, t)
    ensures ControlInv(t) && SameData(s, t) && Advance(s, t) && Untouched(s, t)
  {
    if Eof(s, t) { assert ControlInv(t) && SameData(s, t) && Advance(s, t) && Untouched(s, t); }
    else { assert ControlInv(t) && SameData(s, t) && Advance(s, t) && Untouched(s, t); }
  }

  lemma DiedKeeps(s: State, t: State)
    requires ControlInv(s) && Died(s, t)
    ensures ControlInv(t) && SameData(s, t) && Advance(s, t) && Untouched(s, t)
  {
    if DiedStamp(s, t) { assert ControlInv(t) && SameData(s, t) && Advance(s, t) && Untouched(s, t); }
    else { assert ControlInv(t) && SameData(s, t) && Advance(s, t) && Untouched(s, t); }
  }

  lemma SelectingKeeps(s: State, t: State)
    requires ControlInv(s) && Selecting(s, t)
    ensures ControlInv(t) && SameData(s, t) && Advance(s, t) && Untouched(s, t)
  {
    if SeeClosed(s, t) { assert ControlInv(t) && SameData(s, t) && Advance(s, t) && Untouched(s, t); }
    else { assert ControlInv(t) && SameData(s, t) && Advance(s, t) && Untouched(s, t); }
  }

  lemma FinishingKeeps(s: State, t: State)
    requires ControlInv(s) && Finishing(s, t)
    ensures ControlInv(t) && SameData(s, t) && Advance(s, t) && Untouched(s, t)
  {
    if CheckLoss(s, t) { assert ControlInv(t) && SameData(s, t) && Advance(s, t) && Untouched(s, t); }
    else { assert ControlInv(t) && SameData(s, t) && Advance(s, t) && Untouched(s, t); }
  }

  lemma ClosingKeeps(s: State, t: State)
    requires ControlInv(s) && Closing(s, t)
    ensures ControlInv(t) && SameData(s, t) && Advance(s, t) && Untouched(s, t)
  {
    if CloseEvents(s, t) { assert ControlInv(t) && SameData(s, t) && Advance(s, t) && Untouched(s, t); }
    else { assert ControlInv(t) && SameData(s, t) && Advance(s, t) && Untouched(s, t); }
  }

  lemma CallingKeeps(s: State, t: State)
    requires ControlInv(s) && Calling(s, t)
    ensures ControlInv(t) && SameData(s, t) && Advance(s, t) && Untouched(s, t)
  {
    if CallAnswered(s, t) { assert ControlInv(t) && SameData(s, t) && Advance(s, t) && Untouched(s, t); }
    else { assert ControlInv(t) && SameData(s, t) && Advance(s, t) && Untouched(s, t); }
  }

  lemma FailingKeeps(s: State, t: State)
    requires ControlInv(s) && Failing(s, t)
    ensures ControlInv(t) && SameData(s, t) && Advance(s, t) && Untouched(s, t)
  {
    if FailDelete(s, t) { assert ControlInv(t) && SameData(s, t) && Advance(s, t) && Untouched(s, t); }
    else { assert ControlInv(t) && SameData(s, t) && Advance(s, t) && Untouched(s, t); }
  }

  lemma CancellingKeeps(s: State, t: State)
    requires ControlInv(s) && Cancelling(s, t)
    ensures ControlInv(t) && SameData(s, t) && Advance(s, t) && Untouched(s, t)
  {
    if CancelDelete(s, t) { assert ControlInv(t) && SameData(s, t) && Advance(s, t) && Untouched(s, t); }
    else { assert ControlInv(t) && SameData(s, t) && Advance(s, t) && Untouched(s, t); }
  }

  lemma SignallingKeeps(s: State, t: State)
    requires ControlInv(s) && Signalling(s, t)
    ensures ControlInv(t) && SameData(s, t) && Advance(s, t) && Untouched(s, t)
  {
    if FailClose(s, t) { assert ControlInv(t) && SameData(s, t) && Advance(s, t) && Untouched(s, t); }
    else { assert ControlInv(t) && SameData(s, t) && Advance(s, t) && Untouched(s, t); }
  }

  lemma CallsKeeps(s: State, t: State)
    requires ControlInv(s) && (MarkLost(s, t) || CancelCall(s, t))
    ensures ControlInv(t) && SameData(s, t) && Advance(s, t)
  {
    if MarkLost(s, t) { assert ControlInv(t) && SameData(s, t) && Advance(s, t); }
    else { assert ControlInv(t) && SameData(s, t) && Advance(s, t); }
  }

  lemma TakingKeeps(s: State, t: State)
    requires ControlInv(s) && Taking(s, t)
    ensures ControlInv(t) && SameData(s, t) && Advance(s, t)
  {
    if TakeEvent(s, t) { assert ControlInv(t) && SameData(s, t) && Advance(s, t); }
    else { assert ControlInv(t) && SameData(s, t) && Advance(s, t); }
  }

  lemma QuietKeeps(s: State, t: State)
    requires ControlInv(s) && (Quiet(s, t) || CancelCall(s, t) || Taking(s, t))
    ensures ControlInv(t) && SameData(s, t) && Advance(s, t)
  {
    if Looking(s, t) { LookingKeeps(s, t); }
    else if Stashing(s, t) { StashingKeeps(s, t); }
    else if Unregistering(s, t) { UnregisteringKeeps(s, t); }
    else if Dying(s, t) { DyingKeeps(s, t); }
    else if Died(s, t) { DiedKeeps(s, t); }
    else if Selecting(s, t) { SelectingKeeps(s, t); }
    else if Finishing(s, t) { FinishingKeeps(s, t); }
    else if Closing(s, t) { ClosingKeeps(s, t); }
    else if Calling(s, t) { CallingKeeps(s, t); }
    else if Failing(s, t) { FailingKeeps(s, t); }
    else if Cancelling(s, t) { CancellingKeeps(s, t); }
    else if Signalling(s, t) { SignallingKeeps(s, t); }
    else if Taking(s, t) { TakingKeeps(s, t); }
    else { CallsKeeps(s, t); }
  }

  lemma SameDataKeeps(s: State, t: State)
    requires SummaryInv(s) && FlowInv(s) && SameData(s, t)
    ensures SummaryInv(t) && FlowInv(t)
  {
  }

  lemma CheckLiveKeeps(s: State, t: State)
    requires Inv(s) && CheckLive(s, t)
    ensures Inv(t) && Advance(s, t) && Untouched(s, t)
  {
    SubsequenceAppend(s.accepted, s.routed, s.reader.f);
  }

  lemma OfferKeepsControl(s: State, t: State)
    requires ControlInv(s) && OfferTaken(s, t)
    ensures ControlInv(t) && Advance(s, t) && Untouched(s, t)
  {
  }

  lemma OfferTakenKeeps(s: State, t: State)
    requires Inv(s) && OfferTaken(s, t)
    ensures Inv(t) && Advance(s, t) && Untouched(s, t)
  {
    OfferKeepsControl(s, t);
    assert AcceptedOrOffered(t) == AcceptedOrOffered(s);
    assert t.accepted == t.pulled + t.inbox;
  }

  lemma OfferRefusedKeeps(s: State, t: State)
    requires Inv(s) && OfferRefused(s, t)
    ensures Inv(t) && Advance(s, t) && Untouched(s, t)
  {
    SubsequencePrefix(s.accepted, [s.reader.f], s.routed);
  }

  lemma ReceiveKeeps(s: State, t: State)
    requires Inv(s) && Receive(s, t)
    ensures Inv(t) && Advance(s, t) && Untouched(s, t)
  {
    assert ControlInv(t);
    SubsequenceAppend(SentOrHeld(s), s.pulled, s.inbox[0]);
    assert t.accepted == t.pulled + t.inbox;
    assert SentOrHeld(t) == SentOrHeld(s) + [s.inbox[0]];
    assert AcceptedOrOffered(t) == AcceptedOrOffered(s);
  }

  lemma ForwardKeepsControl(s: State, t: State)
    requires ControlInv(s) && (Send(s, t) || Abandon(s, t))
    ensures ControlInv(t) && Advance(s, t) && Untouched(s, t)
  {
    if Send(s, t) { assert ControlInv(t) && Advance(s, t) && Untouched(s, t); }
    else { assert ControlInv(t) && Advance(s, t) && Untouched(s, t); }
  }

  /** What a send leaves alone: the frames on their way, counted with the one the pump holds. */
  lemma SendKeepsFlow(s: State, t: State)
    requires Send(s, t)
    ensures SentOrHeld(t) == SentOrHeld(s) && AcceptedOrOffered(t) == AcceptedOrOffered(s)
    ensures t.markers - s.markers == LossMarkers(t.sent) - LossMarkers(s.sent)
    ensures t.accepted == s.accepted && t.pulled == s.pulled && t.inbox == s.inbox && t.routed == s.routed
    ensures t.canceled == s.canceled && t.ended == s.ended
  {
    NotesAppend(s.sent, Forwarded(s.pump));
  }

  lemma SendKeeps(s: State, t: State)
    requires Inv(s) && Send(s, t)
    ensures Inv(t) && Advance(s, t)
  {
    ForwardKeepsControl(s, t);
    SendKeepsFlow(s, t);
  }

  lemma AbandonKeeps(s: State, t: State)
    requires Inv(s) && Abandon(s, t)
    ensures Inv(t) && Advance(s, t)
  {
    ForwardKeepsControl(s, t);
    if s.pump.PForward? { SubsequencePrefix(Notes(s.sent), [s.pump.f], s.pulled); }
    assert AcceptedOrOffered(t) == AcceptedOrOffered(s);
  }

  lemma StepKeepsInv(s: State, t: State)
    requires Inv(s) && Step(s, t)
    ensures Inv(t) && Advance(s, t)
  {
    if CheckLive(s, t) { CheckLiveKeeps(s, t); }
    else if OfferTaken(s, t) { OfferTakenKeeps(s, t); }
    else if OfferRefused(s, t) { OfferRefusedKeeps(s, t); }
    else if Receive(s, t) { ReceiveKeeps(s, t); }
    else if Send(s, t) { SendKeeps(s, t); }
    else if Abandon(s, t) { AbandonKeeps(s, t); }
    else {
      QuietKeeps(s, t);
      SameDataKeeps(s, t);
    }
  }

  lemma InternalIsUntouched(s: State, t: State)
    requires Inv(s) && Internal(s, t)
    ensures Untouched(s, t)
  {
    if CheckLive(s, t) { CheckLiveKeeps(s, t); }
    else if OfferTaken(s, t) { OfferTakenKeeps(s, t); }
    else if OfferRefused(s, t) { OfferRefusedKeeps(s, t); }
    else if Receive(s, t) { ReceiveKeeps(s, t); }
    else if Send(s, t) { ForwardKeepsControl(s, t); }
    else if Abandon(s, t) { ForwardKeepsControl(s, t); }
    else if Looking(s, t) { LookingKeeps(s, t); }
    else if Stashing(s, t) { StashingKeeps(s, t); }
    else if Unregistering(s, t) { UnregisteringKeeps(s, t); }
    else if Dying(s, t) { DyingKeeps(s, t); }
    else if Died(s, t) { DiedKeeps(s, t); }
    else if Selecting(s, t) { SelectingKeeps(s, t); }
    else if Finishing(s, t) { FinishingKeeps(s, t); }
    else if Closing(s, t) { ClosingKeeps(s, t); }
    else if Calling(s, t) { CallingKeeps(s, t); }
    else if Failing(s, t) { FailingKeeps(s, t); }
    else if Cancelling(s, t) { CancellingKeeps(s, t); }
    else if Signalling(s, t) { SignallingKeeps(s, t); }
    else { MarkLostIsUntouched(s, t); }
  }

  lemma MarkLostIsUntouched(s: State, t: State)
    requires MarkLost(s, t)
    ensures Untouched(s, t)
  {
  }

  // ---- Main results: every interleaving ----

  lemma DisownKeeps(s: State, t: State)
    requires Inv(s) && Disown(s, t)
    ensures Inv(t) && Untouched(s, t) && SameData(s, t)
  {
    assert SentOrHeld(t) == SentOrHeld(s) && AcceptedOrOffered(t) == AcceptedOrOffered(s);
  }

  /** Left to itself, a turn leaves a.turns only when something has ended it. */
  lemma StepKeepsOwned(s: State, t: State)
    requires Inv(s) && Step(s, t) && !Orphan(s)
    ensures !Orphan(t)
  {
    StepKeepsInv(s, t);
    AdvanceKeepsOwned(s, t);
  }

  lemma AdvanceKeepsOwned(s: State, t: State)
    requires ControlInv(s) && Advance(s, t) && !Orphan(s)
    ensures !Orphan(t)
  {
  }

  lemma {:induction false} InvAt(tr: seq<State>, i: nat)
    requires SharedBehavior(tr) && i < |tr|
    ensures Inv(tr[i])
  {
    if i == 0 {
      InitInv(tr[0]);
    } else {
      InvAt(tr, i - 1);
      assert SharedStep(tr[i - 1], tr[i]);
      if Step(tr[i - 1], tr[i]) { StepKeepsInv(tr[i - 1], tr[i]); } else { DisownKeeps(tr[i - 1], tr[i]); }
    }
  }

  /** No channel is sent on after its close, or closed twice. */
  lemma NeverPanics(tr: seq<State>, i: nat)
    requires SharedBehavior(tr) && i < |tr|
    ensures !tr[i].panicked
  {
    InvAt(tr, i);
  }

  lemma FlowIsInOrder(s: State)
    requires FlowInv(s)
    ensures Subsequence(Notes(s.sent), s.pulled) && Subsequence(s.accepted, s.routed)
  {
    var notes := Notes(s.sent);
    if SentOrHeld(s) != notes { SubsequencePrefix(notes, [s.pump.f], s.pulled); }
    if AcceptedOrOffered(s) != s.accepted { SubsequencePrefix(s.accepted, [s.reader.f], s.routed); }
  }

  /** The consumer is sent frames that were routed to this turn, in order, and at most one loss marker. */
  lemma DeliveredInOrder(tr: seq<State>, i: nat)
    requires SharedBehavior(tr) && i < |tr|
    ensures Subsequence(Notes(tr[i].sent), tr[i].routed)
    ensures LossMarkers(tr[i].sent) <= 1
  {
    InvAt(tr, i);
    var s := tr[i];
    FlowIsInOrder(s);
    SubsequenceSelf(s.accepted);
    SubsequencePrefix(s.pulled, s.inbox, s.accepted);
    SubsequenceTrans(Notes(s.sent), s.pulled, s.accepted);
    SubsequenceTrans(Notes(s.sent), s.accepted, s.routed);
  }

  /** The turn the reader recorded last: the decoded turn/completed, or the child's death. */
  function Verdict(routed: seq<Frame>): Option<Turn> {
    if routed != [] && routed[|routed| - 1].kind.TurnCompleted? then routed[|routed| - 1].turn
    else Some(CODEX_EXITED)
  }

  lemma VerdictIsFinal(s: State)
    requires ControlInv(s) && SummaryInv(s) && s.naturalExit
    ensures s.finalTurn == Verdict(s.routed)
  {
  }

  /** Once the consumer channels of an uncancelled turn are closed, it was sent every frame the inbox took,
      one loss marker exactly if a non-terminal frame was refused, and the verdict however full the inbox was. */
  lemma UncancelledDelivery(tr: seq<State>, i: nat)
    requires SharedBehavior(tr) && i < |tr| && tr[i].eventsClosed && !tr[i].canceled
    ensures Notes(tr[i].sent) == tr[i].accepted
    ensures LossMarkers(tr[i].sent) == if tr[i].dropped > 0 then 1 else 0
    ensures tr[i].reported == Verdict(tr[i].routed) && tr[i].done
  {
    InvAt(tr, i);
    var s := tr[i];
    assert s.naturalExit && s.inbox == [];
    assert s.accepted == s.pulled;
    VerdictIsFinal(s);
  }

  /** A turn is reported only by a pump that left through the closed inbox; otherwise the turn was cancelled. */
  lemma ReportIsVerdict(tr: seq<State>, i: nat)
    requires SharedBehavior(tr) && i < |tr| && tr[i].eventsClosed
    ensures tr[i].reported == if tr[i].naturalExit then Verdict(tr[i].routed) else None
    ensures tr[i].naturalExit || tr[i].canceled
  {
    InvAt(tr, i);
    if tr[i].naturalExit { VerdictIsFinal(tr[i]); }
  }

  ghost predicate ReaderMoves(s: State, t: State) {
    || CheckDone(s, t) || CheckLive(s, t) || OfferTaken(s, t) || OfferRefused(s, t) || MarkLost(s, t)
    || Stashing(s, t) || Unregistering(s, t) || Dying(s, t) || Died(s, t)
  }

  /** Whatever the pump and the consumer do, a reader inside this turn has a next step: no head-of-line blocking. */
  lemma ReaderNeverBlocks(s: State) returns (t: State)
    requires !s.reader.RIdle? && !s.reader.RGone?
    ensures ReaderMoves(s, t)
  {
    match s.reader {
      case RCheck(f) =>
        t := if s.done then s.(reader := RIdle)
        else s.(reader := if f.kind.TurnCompleted? then RStash(f) else RSend(f), routed := s.routed + [f],
                ended := if f.kind.TurnCompleted? then Some(f) else s.ended);
      case RStash(f) => t := s.(reader := RTermSend(f), finalTurn := if f.turn.Some? then f.turn else s.finalTurn);
      case RMarkLost => t := s.(reader := RIdle, eventsLost := true);
      case RSetDone => t := s.(reader := RDelete, done := true);
      case RDelete => t := s.(reader := RCloseInbox, registered := false);
      case RDiedDone => t := s.(reader := RDiedStamp, done := true);
      case RDiedStamp => t := s.(reader := RDiedClose, finalTurn := if s.finalTurn.None? then Some(CODEX_EXITED) else s.finalTurn);
      case RDiedDelete => t := s.(reader := RGone, registered := false);
      case RSend(_) => t := OfferHasStep(s);
      case RTermSend(_) => t := OfferHasStep(s);
      case RCloseInbox => t := CloseHasStep(s);
      case RDiedClose => t := CloseHasStep(s);
    }
  }

  lemma OfferHasStep(s: State) returns (t: State)
    requires Offering(s.reader)
    ensures OfferTaken(s, t) || OfferRefused(s, t)
  {
    var f := s.reader.f;
    t := if |s.inbox| < INBOX_CAP || s.inboxClosed
    then s.(reader := if s.reader.RSend? then RIdle else RSetDone, inbox := s.inbox + [f], accepted := s.accepted + [f],
            panicked := s.panicked || s.inboxClosed)
    else s.(reader := if s.reader.RSend? then RMarkLost else RSetDone,
            dropped := s.dropped + if s.reader.RSend? then 1 else 0);
  }

  lemma CloseHasStep(s: State) returns (t: State)
    requires s.reader.RCloseInbox? || s.reader.RDiedClose?
    ensures CloseInbox(s, t)
  {
    t := s.(reader := if s.reader.RCloseInbox? then RIdle else RDiedDelete, inboxOnce := true, inboxClosed := true,
            panicked := s.panicked || (!s.inboxOnce && s.inboxClosed));
  }
}
