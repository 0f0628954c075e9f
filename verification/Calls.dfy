/** The request side of the app-server client: `call` goroutines, the `pending` map, and the reader that answers
    them. Each pending channel has capacity 1; the reader's send of a response is a blocking send. */
module Calls {
  datatype CallPc = Stored | Waiting | Dropping | Answered | Failed

  /** `Visiting`: Range has handed over a key and its channel; `Clearing`: the key is deleted, the error not sent yet. */
  datatype Reader =
    | Idle | Holding(id: nat)
    | Failing(unvisited: set<nat>) | Visiting(id: nat, unvisited: set<nat>) | Clearing(id: nat, unvisited: set<nat>)
    | Stopping | Exited

  datatype State = State(
    next: nat,
    call: map<nat, CallPc>,     // every call made so far, by request id
    pending: set<nat>,          // keys of the sync.Map
    buffered: map<nat, nat>,    // responses in each call's channel
    reader: Reader,
    done: bool)                 // a.done is closed

  predicate Init(s: State) {
    s == State(1, map[], {}, map[], Idle, false)
  }

  // ---- A call ----

  /** nextID.Add, make(chan, 1) and pending.Store. */
  predicate Begin(s: State, t: State) {
    t == s.(next := s.next + 1, call := s.call[s.next := Stored], pending := s.pending + {s.next},
            buffered := s.buffered[s.next := 0])
  }

  predicate At(s: State, id: nat, pc: CallPc) { id in s.call && s.call[id] == pc }

  predicate Written(s: State, id: nat, t: State) {
    At(s, id, Stored) && t == s.(call := s.call[id := Waiting])
  }

  /** The request cannot be marshalled or written, or the context ends while waiting. */
  predicate GiveUp(s: State, id: nat, t: State) {
    (At(s, id, Stored) || At(s, id, Waiting)) && t == s.(call := s.call[id := Dropping])
  }

  predicate Drop(s: State, id: nat, t: State) {
    At(s, id, Dropping) && t == s.(call := s.call[id := Failed], pending := s.pending - {id})
  }

  predicate SeeDone(s: State, id: nat, t: State) {
    At(s, id, Waiting) && s.done && t == s.(call := s.call[id := Failed])
  }

  predicate TakeResponse(s: State, id: nat, t: State) {
    && At(s, id, Waiting) && id in s.buffered && s.buffered[id] > 0
    && t == s.(call := s.call[id := Answered], buffered := s.buffered[id := s.buffered[id] - 1])
  }

  // ---- The reader ----

  /** handleInbound finds the response's id: pending.LoadAndDelete. */
  predicate LoadAndDelete(s: State, id: nat, t: State) {
    s.reader == Idle && id in s.pending && t == s.(reader := Holding(id), pending := s.pending - {id})
  }

  /** `chresp <- resp`: possible only when the channel has room. */
  predicate SendResponse(s: State, t: State) {
    && s.reader.Holding? && s.reader.id in s.buffered && s.buffered[s.reader.id] < 1
    && t == s.(reader := Idle, buffered := s.buffered[s.reader.id := s.buffered[s.reader.id] + 1])
  }

  predicate Eof(s: State, t: State) {
    s.reader == Idle && t == s.(reader := Failing(s.pending))
  }

  /** pending.Range loads one of the keys it finds. */
  predicate Visit(s: State, id: nat, t: State) {
    && s.reader.Failing? && id in s.pending
    && t == s.(reader := Visiting(id, s.reader.unvisited - {id}))
  }

  /** pending.Delete; a call that gave up may have deleted the key first. */
  predicate Clear(s: State, t: State) {
    && s.reader.Visiting?
    && t == s.(reader := Clearing(s.reader.id, s.reader.unvisited), pending := s.pending - {s.reader.id})
  }

  /** A send that gives up when the channel is full. */
  predicate SendError(s: State, t: State) {
    && s.reader.Clearing? && s.reader.id in s.buffered
    && var id := s.reader.id;
       t == s.(reader := Failing(s.reader.unvisited),
               buffered := if s.buffered[id] < 1 then s.buffered[id := s.buffered[id] + 1] else s.buffered)
  }

  /** Range returns once no key that was present throughout remains. */
  predicate RangeEnds(s: State, t: State) {
    s.reader.Failing? && s.reader.unvisited * s.pending == {} && t == s.(reader := Stopping)
  }

  predicate CloseDone(s: State, t: State) {
    s.reader == Stopping && t == s.(reader := Exited, done := true)
  }

  predicate CallStep(s: State, id: nat, t: State) {
    || Written(s, id, t) || GiveUp(s, id, t) || Drop(s, id, t) || SeeDone(s, id, t) || TakeResponse(s, id, t)
    || LoadAndDelete(s, id, t) || Visit(s, id, t)
  }

  ghost predicate Step(s: State, t: State) {
    || Begin(s, t) || SendResponse(s, t) || Eof(s, t) || Clear(s, t) || SendError(s, t) || RangeEnds(s, t) || CloseDone(s, t)
    || (exists id :: CallStep(s, id, t))
  }

  ghost predicate Run(tr: seq<State>) {
    && |tr| > 0 && Init(tr[0])
    && forall i, j :: 0 <= i < |tr| && 0 <= j < |tr| && j == i + 1 ==> Step(tr[i], tr[j])
  }

  /** The call whose channel the reader is about to send on. */
  predicate InHand(r: Reader, id: nat) { (r.Holding? || r.Visiting? || r.Clearing?) && r.id == id }

  /** What is known of call `id`: it is answered at most once, and never while it is still pending. */
  predicate CallInv(s: State, id: nat)
    requires id in s.call && id in s.buffered
  {
    var open := id in s.pending || InHand(s.reader, id);
    && id < s.next && s.buffered[id] <= 1
    && (id in s.pending && InHand(s.reader, id) ==> s.reader.Visiting?)
    && (open ==> s.buffered[id] == 0 && s.call[id] != Answered)
    && (s.call[id] == Answered ==> s.buffered[id] == 0)
    && ((s.call[id] == Waiting || s.call[id] == Stored) && !open ==> s.buffered[id] > 0 || s.done)
  }

  predicate Inv(s: State) {
    && s.call.Keys == s.buffered.Keys && s.pending <= s.call.Keys
    && (s.reader.Holding? || s.reader.Visiting? || s.reader.Clearing? ==> s.reader.id in s.call)
    && (s.done <==> s.reader == Exited)
    && forall id :: id in s.call ==> CallInv(s, id)
  }

  lemma CallStepKeepsInv(s: State, id: nat, t: State)
    requires Inv(s)
    requires Written(s, id, t) || GiveUp(s, id, t) || Drop(s, id, t) || SeeDone(s, id, t) || TakeResponse(s, id, t)
    ensures Inv(t)
  {
    forall k | k in t.call
      ensures CallInv(t, k)
    {
      assert CallInv(s, k);
    }
  }

  lemma ReaderStepKeepsInv(s: State, id: nat, t: State)
    requires Inv(s)
    requires LoadAndDelete(s, id, t) || Visit(s, id, t) || SendResponse(s, t) || Eof(s, t) || Clear(s, t) || SendError(s, t)
          || RangeEnds(s, t) || CloseDone(s, t)
    ensures Inv(t)
  {
    forall k | k in t.call
      ensures CallInv(t, k)
    {
      assert CallInv(s, k);
    }
  }

  lemma StepKeepsInv(s: State, t: State)
    requires Inv(s) && Step(s, t)
    ensures Inv(t)
  {
    if Begin(s, t) {
      forall k | k in t.call
        ensures CallInv(t, k)
      {
        if k in s.call { assert CallInv(s, k); }
      }
    } else if id :| CallStep(s, id, t) {
      if LoadAndDelete(s, id, t) || Visit(s, id, t) { ReaderStepKeepsInv(s, id, t); } else { CallStepKeepsInv(s, id, t); }
    } else {
      ReaderStepKeepsInv(s, 0, t);
    }
  }

  lemma {:induction false} InvAt(tr: seq<State>, i: nat)
    requires Run(tr) && i < |tr|
    ensures Inv(tr[i])
  {
    if i > 0 {
      InvAt(tr, i - 1);
      StepKeepsInv(tr[i - 1], tr[i]);
    }
  }

  /** The reader never blocks on a response: every channel in `pending`, and the one in its hand, is empty. So neither does
      the send of an error ever find its channel full. */
  lemma ReaderNeverBlocks(tr: seq<State>, i: nat)
    requires Run(tr) && i < |tr|
    ensures forall id :: id in tr[i].pending ==> id in tr[i].buffered && tr[i].buffered[id] == 0
    ensures forall id :: InHand(tr[i].reader, id) ==> id in tr[i].buffered && tr[i].buffered[id] == 0
    ensures tr[i].reader.Holding? ==> exists t :: SendResponse(tr[i], t)
  {
    InvAt(tr, i);
    var s := tr[i];
    assert forall id :: id in s.pending || InHand(s.reader, id) ==> CallInv(s, id);
    if s.reader.Holding? {
      assert CallInv(s, s.reader.id);
      assert SendResponse(s, s.(reader := Idle, buffered := s.buffered[s.reader.id := s.buffered[s.reader.id] + 1]));
    }
  }

  /** No waiting call is forgotten: its id is still pending or in the reader's hand, or its response has arrived,
      or the reader has exited; and once it has exited no call stays blocked. */
  lemma NoCallIsForgotten(tr: seq<State>, i: nat, id: nat)
    requires Run(tr) && i < |tr| && At(tr[i], id, Waiting)
    ensures id in tr[i].pending || InHand(tr[i].reader, id) || tr[i].done || (id in tr[i].buffered && tr[i].buffered[id] > 0)
    ensures tr[i].reader == Exited ==> exists t :: SeeDone(tr[i], id, t)
  {
    InvAt(tr, i);
    var s := tr[i];
    assert CallInv(s, id);
    if s.reader == Exited {
      assert SeeDone(s, id, s.(call := s.call[id := Failed]));
    }
  }
}
