/** Oversized task events: the chunk printer, which halves its chunk size and starts over whenever a frame is too long,
    and the reassembler on the other side of a stream where several events are interleaved. */
module Chunks {
  import opened Sequences

  type Byte = b: int | 0 <= b < 256

  const MAX_MESSAGE_SIZE: nat := 4 * 1024 * 1024
  const MAX_CHUNK_PAYLOAD: nat := 2 * 1024 * 1024

  datatype Option<+T> = None | Some(value: T)

  datatype Event = Event(taskId: string, seqNo: nat, kind: string, payload: seq<Byte>)

  datatype Chunk = Chunk(taskId: string, seqNo: nat, kind: string, chunkId: string, index: int, total: int, payload: seq<Byte>)

  datatype Frame = Whole(event: Event) | Part(chunk: Chunk)

  // ---- Sizes ----

  /** Length of the base64 text of n bytes (section 4 of RFC 4648). */
  function Base64(n: nat): nat { 4 * ((n + 2) / 3) }

  /** `envelope` is the length of a chunk frame around its payload text: names, quotes, digits and the final newline. */
  function Size(c: Chunk, envelope: Chunk -> nat): nat {
    envelope(c.(payload := [])) + Base64(|c.payload|)
  }

  function Ceil(n: nat, size: nat): nat
    requires size > 0
  {
    (n + size - 1) / size
  }

  // ---- Chunk identifiers ----

  function Digit(d: nat): char
    requires d < 10
  {
    ['0', '1', '2', '3', '4', '5', '6', '7', '8', '9'][d]
  }

  function Decimal(n: nat): string {
    if n < 10 then [Digit(n)] else Decimal(n / 10) + [Digit(n % 10)]
  }

  /** fmt.Sprintf("%s:%d", taskID, seq). */
  function ChunkId(e: Event): string { e.taskId + ":" + Decimal(e.seqNo) }

  lemma {:induction false} DecimalHasNoColon(n: nat)
    ensures ':' !in Decimal(n)
  {
    if n >= 10 { DecimalHasNoColon(n / 10); }
  }

  lemma {:induction false} DecimalIsInjective(m: nat, n: nat)
    requires Decimal(m) == Decimal(n)
    ensures m == n
  {
    DecimalIsNotEmpty(m / 10);
    DecimalIsNotEmpty(n / 10);
    if m >= 10 && n >= 10 {
      var d, e := Decimal(m / 10), Decimal(n / 10);
      assert (d + [Digit(m % 10)])[..|d|] == d && (e + [Digit(n % 10)])[..|e|] == e;
      assert Decimal(m)[|d|] == Decimal(n)[|e|];
      DecimalIsInjective(m / 10, n / 10);
    } else {
      assert |Decimal(m)| == |Decimal(n)| && Decimal(m)[0] == Decimal(n)[0];
    }
  }

  lemma DecimalIsNotEmpty(n: nat)
    ensures |Decimal(n)| >= 1
  {
  }

  /** Distinct (task, seq) pairs get distinct chunk ids, whatever the task ids contain. */
  lemma ChunkIdIsInjective(a: Event, b: Event)
    requires ChunkId(a) == ChunkId(b)
    ensures a.taskId == b.taskId && a.seqNo == b.seqNo
  {
    var s := ChunkId(a);
    NoLaterColon(a);
    NoLaterColon(b);
    assert s[|a.taskId|] == ':' && s[|b.taskId|] == ':';
    assert s[..|a.taskId|] == a.taskId && s[..|b.taskId|] == b.taskId;
    assert s[|a.taskId| + 1..] == Decimal(a.seqNo) && s[|b.taskId| + 1..] == Decimal(b.seqNo);
    DecimalIsInjective(a.seqNo, b.seqNo);
  }

  lemma NoLaterColon(e: Event)
    ensures forall i :: |e.taskId| < i < |ChunkId(e)| ==> ChunkId(e)[i] != ':'
  {
    DecimalHasNoColon(e.seqNo);
    forall i | |e.taskId| < i < |ChunkId(e)| ensures ChunkId(e)[i] != ':' {
      assert ChunkId(e)[i] == Decimal(e.seqNo)[i - |e.taskId| - 1];
    }
  }

  // ---- The printer ----

  /** A payload cut into pieces of `size` bytes, the last one possibly shorter. */
  function Pieces(payload: seq<Byte>, size: nat): seq<seq<Byte>>
    requires size > 0
    decreases |payload|
  {
    if |payload| <= size then [payload] else [payload[..size]] + Pieces(payload[size..], size)
  }

  function Joined(pieces: seq<seq<Byte>>): seq<Byte> {
    if pieces == [] then [] else pieces[0] + Joined(pieces[1..])
  }

  lemma CeilStep(n: nat, size: nat)
    requires n > size > 0
    ensures Ceil(n, size) == 1 + Ceil(n - size, size)
  {
    DivUnique(n + size - 1, size, Ceil(n - size, size) + 1);
  }

  lemma TimesAtLeast(a: int, d: nat)
    ensures a >= 1 ==> a * d >= d
    ensures a <= -1 ==> a * d + d <= 0
  {
    if a >= 1 { assert a * d == (a - 1) * d + d; }
    if a <= -1 { assert a * d == (a + 1) * d - d; }
  }

  lemma DivUnique(n: nat, d: nat, q: nat)
    requires d > 0 && q * d <= n < q * d + d
    ensures n / d == q
  {
    TimesAtLeast(q - n / d, d);
    assert (q - n / d) * d == q * d - (n / d) * d;
  }

  /** The pieces are as many as the announced total, none is empty, and together they are the payload. */
  lemma {:induction false} PiecesCover(payload: seq<Byte>, size: nat)
    requires size > 0 && payload != []
    ensures |Pieces(payload, size)| == Ceil(|payload|, size) && Joined(Pieces(payload, size)) == payload
    ensures forall k :: 0 <= k < |Pieces(payload, size)| ==> 0 < |Pieces(payload, size)[k]| <= size
    decreases |payload|
  {
    if |payload| <= size {
      DivUnique(|payload| + size - 1, size, 1);
      assert Pieces(payload, size)[1..] == [];
    } else {
      CeilStep(|payload|, size);
      PiecesCover(payload[size..], size);
      assert Pieces(payload, size)[1..] == Pieces(payload[size..], size);
    }
  }

  function ChunkAt(e: Event, size: nat, k: nat): Chunk
    requires size > 0 && k < |Pieces(e.payload, size)|
  {
    Chunk(e.taskId, e.seqNo, e.kind, ChunkId(e), k, |Pieces(e.payload, size)|, Pieces(e.payload, size)[k])
  }

  function AllChunks(e: Event, size: nat): (cs: seq<Chunk>)
    requires size > 0
  {
    seq(|Pieces(e.payload, size)|, k requires 0 <= k < |Pieces(e.payload, size)| => ChunkAt(e, size, k))
  }

  /** Every frame is within the bound. */
  predicate Fits(cs: seq<Chunk>, envelope: Chunk -> nat) {
    cs == [] || (Size(cs[|cs| - 1], envelope) <= MAX_MESSAGE_SIZE && Fits(cs[..|cs| - 1], envelope))
  }

  lemma {:induction false} FitsAt(cs: seq<Chunk>, envelope: Chunk -> nat, k: nat)
    requires Fits(cs, envelope) && k < |cs|
    ensures Size(cs[k], envelope) <= MAX_MESSAGE_SIZE
  {
    if k < |cs| - 1 { FitsAt(cs[..|cs| - 1], envelope, k); }
  }

  /** The sizes tried: 2 MiB, halved j times. */
  function Halved(j: nat): nat {
    if j == 0 then MAX_CHUNK_PAYLOAD else Halved(j - 1) / 2
  }

  predicate TooLong(e: Event, size: nat, k: nat, envelope: Chunk -> nat) {
    size > 0 && k < |Pieces(e.payload, size)| && Size(ChunkAt(e, size, k), envelope) > MAX_MESSAGE_SIZE
  }

  /** Every size tried so far printed a frame that was too long; `culprits` says which. */
  predicate AllTooBig(e: Event, culprits: seq<nat>, envelope: Chunk -> nat) {
    culprits == [] ||
      var last := |culprits| - 1;
      TooLong(e, Halved(last), culprits[last], envelope) && AllTooBig(e, culprits[..last], envelope)
  }

  lemma AddCulprit(e: Event, culprits: seq<nat>, k: nat, envelope: Chunk -> nat)
    requires AllTooBig(e, culprits, envelope) && TooLong(e, Halved(|culprits|), k, envelope)
    ensures AllTooBig(e, culprits + [k], envelope)
  {
    assert (culprits + [k])[..|culprits|] == culprits;
  }

  /** What is still to be cut at `start`, after k pieces. */
  predicate CutSoFar(payload: seq<Byte>, size: nat, start: nat, k: nat)
    requires size > 0
  {
    var ps := Pieces(payload, size);
    && k <= |ps|
    && if start < |payload| then ps[k..] == Pieces(payload[start..], size) else k == |ps|
  }

  lemma CutNext(payload: seq<Byte>, size: nat, start: nat, k: nat)
    requires size > 0 && start < |payload| && CutSoFar(payload, size, start, k)
    ensures k < |Pieces(payload, size)| && CutSoFar(payload, size, start + size, k + 1)
    ensures Pieces(payload, size)[k] == payload[start..if start + size > |payload| then |payload| else start + size]
  {
    var ps, tail := Pieces(payload, size), payload[start..];
    assert ps[k] == ps[k..][0];
    assert ps[k + 1..] == ps[k..][1..];
    if |tail| > size {
      assert tail[size..] == payload[start + size..];
      assert Pieces(tail, size)[1..] == Pieces(tail[size..], size);
    }
  }

  /** The frames printed so far, with the next piece to be cut at `start`. */
  predicate Printed(e: Event, size: nat, frames: seq<Chunk>, start: nat)
    requires size > 0
  {
    && CutSoFar(e.payload, size, start, |frames|)
    && frames == AllChunks(e, size)[..|frames|]
  }

  function NextChunk(e: Event, size: nat, start: nat, index: int, total: int): Chunk
    requires start < |e.payload|
  {
    var end := if start + size > |e.payload| then |e.payload| else start + size;
    Chunk(e.taskId, e.seqNo, e.kind, ChunkId(e), index, total, e.payload[start..end])
  }

  lemma PrintNext(e: Event, size: nat, frames: seq<Chunk>, start: nat)
    requires size > 0 && start < |e.payload| && Printed(e, size, frames, start)
    ensures |frames| < |AllChunks(e, size)|
    ensures AllChunks(e, size)[|frames|] == NextChunk(e, size, start, |frames|, |Pieces(e.payload, size)|)
    ensures Printed(e, size, frames + [AllChunks(e, size)[|frames|]], start + size)
  {
    CutNext(e.payload, size, start, |frames|);
  }

  lemma PrintedAll(e: Event, size: nat, frames: seq<Chunk>, start: nat)
    requires size > 0 && start >= |e.payload| && Printed(e, size, frames, start)
    ensures frames == AllChunks(e, size)
  {
  }

  lemma FitsAppend(cs: seq<Chunk>, c: Chunk, envelope: Chunk -> nat)
    requires Fits(cs, envelope) && Size(c, envelope) <= MAX_MESSAGE_SIZE
    ensures Fits(cs + [c], envelope)
  {
    assert (cs + [c])[..|cs|] == cs;
  }

  lemma StartOver(e: Event, size: nat)
    requires size > 0 && e.payload != []
    ensures Printed(e, size, [], 0) && Ceil(|e.payload|, size) == |Pieces(e.payload, size)|
  {
    PiecesCover(e.payload, size);
    assert e.payload[0..] == e.payload;
  }

  /** marshalTaskEventChunks: on a frame that is too long the chunk size is halved and everything printed so far is
      discarded. The result is the whole event cut at the first size at which every frame fits: each size tried before
      has its culprit. None is the too-large error. */
  method MarshalTaskEventChunks(e: Event, envelope: Chunk -> nat) returns (r: Option<seq<Chunk>>, ghost culprits: seq<nat>)
    ensures AllTooBig(e, culprits, envelope)
    ensures var size := Halved(|culprits|);
            if r.Some? then size > 0 && r.value == AllChunks(e, size) && Fits(r.value, envelope)
            else e.payload == [] || size == 0
    ensures e.payload == [] ==> r.None?
  {
    culprits := [];
    if e.payload == [] { return None, []; }
    var chunkSize: nat := MAX_CHUNK_PAYLOAD;
    var total := Ceil(|e.payload|, chunkSize);
    var frames: seq<Chunk> := [];
    var i: nat, start: nat := 0, 0;
    StartOver(e, chunkSize);
    while start < |e.payload|
      invariant 0 < chunkSize == Halved(|culprits|) && AllTooBig(e, culprits, envelope)
      invariant i == |frames| && total == |Pieces(e.payload, chunkSize)|
      invariant Printed(e, chunkSize, frames, start) && Fits(frames, envelope)
      decreases chunkSize, |e.payload| - start
    {
      var chunk := NextChunk(e, chunkSize, start, i, total);
      PrintNext(e, chunkSize, frames, start);
      if Size(chunk, envelope) > MAX_MESSAGE_SIZE {
        AddCulprit(e, culprits, i, envelope);
        culprits := culprits + [i];
        if chunkSize <= 1 { return None, culprits; }
        chunkSize := chunkSize / 2;
        total := Ceil(|e.payload|, chunkSize);
        frames, i, start := [], 0, 0;
        StartOver(e, chunkSize);
      } else {
        FitsAppend(frames, chunk, envelope);
        frames, i, start := frames + [chunk], i + 1, start + chunkSize;
      }
    }
    PrintedAll(e, chunkSize, frames, start);
    r := Some(frames);
  }

  /** MarshalNotificationFrames for a task event whose single-frame form is `whole` bytes long: every chunk frame is
      within the bound, and an error means that not even single bytes fit. */
  method MarshalNotificationFrames(e: Event, whole: nat, envelope: Chunk -> nat) returns (r: Option<seq<Frame>>)
    ensures r.Some? ==> Encodes(e, r.value)
    ensures r.Some? ==>
      if whole <= MAX_MESSAGE_SIZE then r.value == [Whole(e)]
      else forall k :: 0 <= k < |r.value| ==> r.value[k].Part? && Size(r.value[k].chunk, envelope) <= MAX_MESSAGE_SIZE
    ensures r.None? ==> whole > MAX_MESSAGE_SIZE && (e.payload == [] || exists k :: TooLong(e, 1, k, envelope))
  {
    if whole <= MAX_MESSAGE_SIZE { return Some([Whole(e)]); }
    var chunks, culprits := MarshalTaskEventChunks(e, envelope);
    if chunks.None? {
      if e.payload != [] { SmallestTried(e, culprits, envelope); }
      return None;
    }
    r := Some(Parts(chunks.value));
    forall k | 0 <= k < |chunks.value| ensures Size(chunks.value[k], envelope) <= MAX_MESSAGE_SIZE { FitsAt(chunks.value, envelope, k); }
  }

  lemma LastHalving(j: nat)
    requires Halved(j) > 0 && Halved(j + 1) == 0
    ensures Halved(j) == 1
  {
  }

  lemma SmallestTried(e: Event, culprits: seq<nat>, envelope: Chunk -> nat)
    requires AllTooBig(e, culprits, envelope) && Halved(|culprits|) == 0
    ensures exists k :: TooLong(e, 1, k, envelope)
  {
    var last := |culprits| - 1;
    assert TooLong(e, Halved(last), culprits[last], envelope);
    LastHalving(last);
  }

  function Parts(cs: seq<Chunk>): seq<Frame> {
    seq(|cs|, k requires 0 <= k < |cs| => Part(cs[k]))
  }

  /** What the printer can put on the wire for an event. */
  ghost predicate Encodes(e: Event, frames: seq<Frame>) {
    frames == [Whole(e)] || (e.payload != [] && exists size: nat :: size > 0 && frames == Parts(AllChunks(e, size)))
  }

  // ---- The reassembler ----

  datatype Assembly = Assembly(taskId: string, seqNo: nat, kind: string, total: int, parts: seq<seq<Byte>>)

  datatype Answer =
    | Pending
    | Delivered(event: Event)
    | MissingId | BadTotal | BadIndex | Gap | Mismatch | Duplicate

  predicate SameEvent(a: Assembly, c: Chunk) {
    a.taskId == c.taskId && a.seqNo == c.seqNo && a.kind == c.kind && a.total == c.total
  }

  /** addChunk: the assemblies afterwards and what it answers. */
  function Add(m: map<string, Assembly>, c: Chunk): (map<string, Assembly>, Answer) {
    if c.chunkId == "" then (m, MissingId)
    else if c.total <= 0 then (m, BadTotal)
    else if c.index < 0 || c.index >= c.total then (m, BadIndex)
    else if c.chunkId !in m && c.index != 0 then (m, Gap)
    else
      var a := if c.chunkId in m then m[c.chunkId] else Assembly(c.taskId, c.seqNo, c.kind, c.total, []);
      if !SameEvent(a, c) then (m, Mismatch)
      else if c.index < |a.parts| then (m, Duplicate)
      else if c.index != |a.parts| then (m, Gap)
      else
        var parts := a.parts + [c.payload];
        if |parts| != a.total then (m[c.chunkId := a.(parts := parts)], Pending)
        else (m - {c.chunkId}, Delivered(Event(a.taskId, a.seqNo, a.kind, Joined(parts))))
  }

  class Reassembler {
    var chunks: map<string, Assembly>

    constructor ()
      ensures chunks == map[]
    {
      chunks := map[];
    }

    method AddChunk(c: Chunk) returns (r: Answer)
      modifies this
      ensures (chunks, r) == Add(old(chunks), c)
    {
      if c.chunkId == "" { return MissingId; }
      if c.total <= 0 { return BadTotal; }
      if c.index < 0 || c.index >= c.total { return BadIndex; }
      if c.chunkId !in chunks {
        if c.index != 0 { return Gap; }
        chunks := chunks[c.chunkId := Assembly(c.taskId, c.seqNo, c.kind, c.total, [])];
      }
      var a := chunks[c.chunkId];
      if a.taskId != c.taskId || a.seqNo != c.seqNo || a.kind != c.kind || a.total != c.total { return Mismatch; }
      if c.index < |a.parts| { return Duplicate; }
      if c.index != |a.parts| { return Gap; }
      a := a.(parts := a.parts + [c.payload]);
      chunks := chunks[c.chunkId := a];
      if |a.parts| != a.total {
        assert chunks == old(chunks)[c.chunkId := a];
        return Pending;
      }
      chunks := chunks - {c.chunkId};
      assert chunks == old(chunks) - {c.chunkId};
      r := Delivered(Event(a.taskId, a.seqNo, a.kind, Joined(a.parts)));
    }
  }

  // ---- A stream of frames ----

  /** The client: assemblies under way, events delivered, and whether a frame was rejected. */
  datatype Client = Client(chunks: map<string, Assembly>, delivered: seq<Event>, failed: bool)

  function Receive(s: Client, f: Frame): Client {
    match f
    case Whole(e) => s.(delivered := s.delivered + [e])
    case Part(c) =>
      var (m, r) := Add(s.chunks, c);
      match r
      case Pending => s.(chunks := m)
      case Delivered(e) => s.(chunks := m, delivered := s.delivered + [e])
      case _ => s.(chunks := m, failed := true)
  }

  function ReceiveAll(frames: seq<Frame>): Client {
    if frames == [] then Client(map[], [], false)
    else Receive(ReceiveAll(frames[..|frames| - 1]), frames[|frames| - 1])
  }

  function Key(f: Frame): string {
    match f
    case Whole(e) => ChunkId(e)
    case Part(c) => c.chunkId
  }

  function Only(frames: seq<Frame>, id: string): seq<Frame> {
    if frames == [] then []
    else Only(frames[..|frames| - 1], id) + (if Key(frames[|frames| - 1]) == id then [frames[|frames| - 1]] else [])
  }

  function OnlyEvents(events: seq<Event>, id: string): seq<Event> {
    if events == [] then []
    else OnlyEvents(events[..|events| - 1], id) + (if ChunkId(events[|events| - 1]) == id then [events[|events| - 1]] else [])
  }

  datatype Stream = Stream(event: Event, frames: seq<Frame>)

  /** Streams of distinct (task, seq), and an arrival order that keeps the order within each of them. */
  ghost predicate Interleaving(arrivals: seq<Frame>, streams: map<string, Stream>) {
    && (forall id :: id in streams ==> ChunkId(streams[id].event) == id && Encodes(streams[id].event, streams[id].frames))
    && (forall k :: 0 <= k < |arrivals| ==> Key(arrivals[k]) in streams)
    && (forall id :: id in streams ==> Only(arrivals, id) == streams[id].frames)
  }

  function Payloads(frames: seq<Frame>): seq<seq<Byte>> {
    seq(|frames|, k requires 0 <= k < |frames| => if frames[k].Part? then frames[k].chunk.payload else [])
  }

  /** A stream is one whole frame, or numbered parts with the event's own metadata whose payloads join to its payload. */
  predicate Shaped(st: Stream) {
    && |st.frames| > 0 && ChunkId(st.event) != ""
    && (st.frames == [Whole(st.event)]
        || (Joined(Payloads(st.frames)) == st.event.payload && forall k :: 0 <= k < |st.frames| ==> NumberedPart(st, k)))
  }

  predicate NumberedPart(st: Stream, k: nat)
    requires k < |st.frames|
  {
    var e := st.event;
    st.frames[k] == Part(Chunk(e.taskId, e.seqNo, e.kind, ChunkId(e), k, |st.frames|, Payloads(st.frames)[k]))
  }

  lemma EncodedIsShaped(st: Stream)
    requires Encodes(st.event, st.frames)
    ensures Shaped(st)
  {
    var e, frames := st.event, st.frames;
    if frames != [Whole(e)] {
      var size: nat :| size > 0 && frames == Parts(AllChunks(e, size));
      PiecesCover(e.payload, size);
      assert Payloads(frames) == Pieces(e.payload, size);
    }
  }

  /** The assembly of a stream after p of its frames. */
  function Assembling(st: Stream, p: nat): Assembly
    requires p <= |st.frames|
  {
    Assembly(st.event.taskId, st.event.seqNo, st.event.kind, |st.frames|, Payloads(st.frames)[..p])
  }

  /** Where a stream stands after p of its frames. */
  predicate Progress(s: Client, st: Stream, p: nat) {
    var id, n := ChunkId(st.event), |st.frames|;
    && p <= n
    && OnlyEvents(s.delivered, id) == (if p == n then [st.event] else [])
    && if 0 < p < n then
         id in s.chunks && s.chunks[id] == Assembling(st, p)
       else id !in s.chunks
  }

  /** The reassembler accepts the next part of a stream that is on track. */
  lemma NextPart(m: map<string, Assembly>, st: Stream, p: nat)
    requires Shaped(st) && p < |st.frames| && st.frames != [Whole(st.event)]
    requires if p == 0 then ChunkId(st.event) !in m else ChunkId(st.event) in m && m[ChunkId(st.event)] == Assembling(st, p)
    ensures st.frames[p].Part? && st.frames[p].chunk.chunkId == ChunkId(st.event)
    ensures Add(m, st.frames[p].chunk)
         == if p + 1 == |st.frames| then (m - {ChunkId(st.event)}, Delivered(st.event))
            else (m[ChunkId(st.event) := Assembling(st, p + 1)], Pending)
  {
    assert NumberedPart(st, p);
    var parts := Payloads(st.frames);
    assert parts[..p] + [parts[p]] == parts[..p + 1];
    assert parts[..0] == [] && parts[..|parts|] == parts;
  }

  lemma NextFrame(s: Client, st: Stream, p: nat)
    requires Shaped(st) && p < |st.frames| && Progress(s, st, p)
    ensures var t := Receive(s, st.frames[p]);
            && Progress(t, st, p + 1) && MovedOnly(s, t, st, ChunkId(st.event))
  {
    OnlyEventsAppend(s.delivered, st.event, ChunkId(st.event));
    if st.frames != [Whole(st.event)] { NextPart(s.chunks, st, p); }
  }

  lemma OnlyEventsAppend(events: seq<Event>, e: Event, id: string)
    ensures OnlyEvents(events + [e], id) == OnlyEvents(events, id) + (if ChunkId(e) == id then [e] else [])
  {
    assert (events + [e])[..|events|] == events;
  }

  lemma {:induction false} OnlyOfPrefix(frames: seq<Frame>, n: nat, id: string)
    requires n <= |frames|
    ensures Only(frames[..n], id) <= Only(frames, id)
  {
    if n < |frames| {
      OnlyOfPrefix(frames[..|frames| - 1], n, id);
      assert frames[..|frames| - 1][..n] == frames[..n];
    } else {
      assert frames[..n] == frames;
    }
  }

  /** Stream `id` has delivered or is assembling exactly what has arrived of it. */
  predicate StreamOnTrack(s: Client, taken: seq<Frame>, streams: map<string, Stream>, id: string) {
    if id in streams then Progress(s, streams[id], |Only(taken, id)|) else id !in s.chunks
  }

  ghost predicate OnTrack(s: Client, taken: seq<Frame>, streams: map<string, Stream>) {
    && !s.failed
    && (forall id :: StreamOnTrack(s, taken, streams, id))
    && (forall k :: 0 <= k < |s.delivered| ==> ChunkId(s.delivered[k]) in streams)
  }

  lemma OnlyAppend(frames: seq<Frame>, f: Frame, id: string)
    ensures Only(frames + [f], id) == Only(frames, id) + (if Key(f) == id then [f] else [])
  {
    assert (frames + [f])[..|frames|] == frames;
  }

  predicate StreamFits(arrivals: seq<Frame>, streams: map<string, Stream>, id: string) {
    id in streams ==>
      ChunkId(streams[id].event) == id && Shaped(streams[id]) && Only(arrivals, id) == streams[id].frames
  }

  predicate Expected(arrivals: seq<Frame>, streams: map<string, Stream>, k: nat) {
    k < |arrivals| ==> Key(arrivals[k]) in streams
  }

  /** Interleaving, with the streams known by their shape. */
  ghost predicate Orderly(arrivals: seq<Frame>, streams: map<string, Stream>) {
    (forall id :: StreamFits(arrivals, streams, id)) && (forall k: nat :: Expected(arrivals, streams, k))
  }

  lemma NextInOrder(frames: seq<Frame>, n: nat)
    requires n < |frames|
    ensures var id := Key(frames[n]); var p := |Only(frames[..n], id)|;
            p < |Only(frames, id)| && Only(frames, id)[p] == frames[n]
  {
    var id := Key(frames[n]);
    assert frames[..n + 1] == frames[..n] + [frames[n]];
    OnlyAppend(frames[..n], frames[n], id);
    OnlyOfPrefix(frames, n + 1, id);
  }

  /** The next frame to arrive is the next of its stream. */
  lemma NextOfStream(arrivals: seq<Frame>, streams: map<string, Stream>, n: nat)
    requires Orderly(arrivals, streams) && n < |arrivals|
    ensures var id := Key(arrivals[n]);
            && id in streams && Shaped(streams[id])
            && |Only(arrivals[..n], id)| < |streams[id].frames|
            && streams[id].frames[|Only(arrivals[..n], id)|] == arrivals[n]
  {
    assert Expected(arrivals, streams, n) && StreamFits(arrivals, streams, Key(arrivals[n]));
    NextInOrder(arrivals, n);
  }

  /** A step that moved only stream `id`. */
  predicate MovedOnly(s: Client, t: Client, st: Stream, id: string) {
    && t.failed == s.failed
    && t.chunks.Keys - {id} == s.chunks.Keys - {id}
    && (forall x :: x in t.chunks && x in s.chunks && x != id ==> t.chunks[x] == s.chunks[x])
    && (t.delivered == s.delivered || t.delivered == s.delivered + [st.event])
  }

  lemma OthersOnTrack(s: Client, t: Client, taken: seq<Frame>, f: Frame, streams: map<string, Stream>, st: Stream, x: string)
    requires MovedOnly(s, t, st, Key(f)) && ChunkId(st.event) == Key(f) && x != Key(f)
    requires StreamOnTrack(s, taken, streams, x) && OwnKey(streams, x)
    ensures StreamOnTrack(t, taken + [f], streams, x)
  {
    OnlyAppend(taken, f, x);
    OnlyEventsAppend(s.delivered, st.event, x);
    assert x in t.chunks <==> x in s.chunks by {
      assert x in t.chunks.Keys - {Key(f)} <==> x in s.chunks.Keys - {Key(f)};
    }
  }

  predicate OwnKey(streams: map<string, Stream>, id: string) {
    id in streams ==> ChunkId(streams[id].event) == id
  }

  lemma ArrivalOnTrack(s: Client, t: Client, taken: seq<Frame>, f: Frame, streams: map<string, Stream>)
    requires OnTrack(s, taken, streams) && Key(f) in streams && forall x :: OwnKey(streams, x)
    requires MovedOnly(s, t, streams[Key(f)], Key(f)) && Progress(t, streams[Key(f)], |Only(taken, Key(f))| + 1)
    ensures OnTrack(t, taken + [f], streams)
  {
    var id := Key(f);
    OnlyAppend(taken, f, id);
    assert OwnKey(streams, id);
    forall x ensures StreamOnTrack(t, taken + [f], streams, x) {
      if x != id {
        assert StreamOnTrack(s, taken, streams, x) && OwnKey(streams, x);
        OthersOnTrack(s, t, taken, f, streams, streams[id], x);
      }
    }
  }

  lemma ReceiveAllStep(frames: seq<Frame>, f: Frame)
    ensures ReceiveAll(frames + [f]) == Receive(ReceiveAll(frames), f)
  {
    assert (frames + [f])[..|frames|] == frames;
  }

  lemma OwnKeys(arrivals: seq<Frame>, streams: map<string, Stream>)
    requires Orderly(arrivals, streams)
    ensures forall x :: OwnKey(streams, x)
  {
    forall x ensures OwnKey(streams, x) { assert StreamFits(arrivals, streams, x); }
  }

  lemma StepOnTrack(arrivals: seq<Frame>, streams: map<string, Stream>, n: nat, s: Client)
    requires Orderly(arrivals, streams) && n < |arrivals| && OnTrack(s, arrivals[..n], streams)
    ensures OnTrack(Receive(s, arrivals[n]), arrivals[..n] + [arrivals[n]], streams)
  {
    NextOfStream(arrivals, streams, n);
    OwnKeys(arrivals, streams);
    FrameOnTrack(s, arrivals[..n], arrivals[n], streams);
  }

  lemma {:induction false} PrefixOnTrack(arrivals: seq<Frame>, streams: map<string, Stream>, n: nat)
    requires Orderly(arrivals, streams) && n <= |arrivals|
    ensures OnTrack(ReceiveAll(arrivals[..n]), arrivals[..n], streams)
  {
    if n == 0 {
      forall id | id in streams ensures Shaped(streams[id]) { assert StreamFits(arrivals, streams, id); }
      NothingYet(streams);
    } else {
      PrefixOnTrack(arrivals, streams, n - 1);
      var s := ReceiveAll(arrivals[..n - 1]);
      StepOnTrack(arrivals, streams, n - 1, s);
      assert arrivals[..n] == arrivals[..n - 1] + [arrivals[n - 1]];
      ReceiveAllStep(arrivals[..n - 1], arrivals[n - 1]);
    }
  }

  lemma FrameOnTrack(s: Client, taken: seq<Frame>, f: Frame, streams: map<string, Stream>)
    requires OnTrack(s, taken, streams) && Key(f) in streams && forall x :: OwnKey(streams, x)
    requires var st := streams[Key(f)];
             Shaped(st) && |Only(taken, Key(f))| < |st.frames| && st.frames[|Only(taken, Key(f))|] == f
    ensures OnTrack(Receive(s, f), taken + [f], streams)
  {
    var st, p := streams[Key(f)], |Only(taken, Key(f))|;
    assert StreamOnTrack(s, taken, streams, Key(f)) && OwnKey(streams, Key(f));
    NextFrame(s, st, p);
    ArrivalOnTrack(s, Receive(s, f), taken, f, streams);
  }

  lemma NothingYet(streams: map<string, Stream>)
    requires forall id: string :: id in streams ==> Shaped(streams[id])
    ensures OnTrack(ReceiveAll([]), [], streams)
  {
  }

  /** Round trip: whatever order-preserving interleaving the frames arrive in, each event is delivered exactly once with
      its exact payload, nothing else is delivered, no frame is rejected and no assembly is left over. */
  lemma RoundTrip(arrivals: seq<Frame>, streams: map<string, Stream>)
    requires Interleaving(arrivals, streams)
    ensures var s := ReceiveAll(arrivals);
            && !s.failed && s.chunks == map[]
            && (forall id :: id in streams ==> OnlyEvents(s.delivered, id) == [streams[id].event])
            && (forall k :: 0 <= k < |s.delivered| ==> ChunkId(s.delivered[k]) in streams)
  {
    forall id ensures StreamFits(arrivals, streams, id) { if id in streams { EncodedIsShaped(streams[id]); } }
    PrefixOnTrack(arrivals, streams, |arrivals|);
    assert arrivals[..|arrivals|] == arrivals;
    var s := ReceiveAll(arrivals);
    forall id ensures id !in s.chunks && (id in streams ==> OnlyEvents(s.delivered, id) == [streams[id].event]) {
      assert StreamOnTrack(s, arrivals, streams, id);
    }
    assert s.chunks == map[];
  }

  // ---- Arbitrary chunks ----

  /** The chunks behind an assembly: same id and metadata, indices 0, 1, 2, ... without a gap. */
  predicate Assembled(src: seq<Chunk>, id: string, a: Assembly) {
    && |src| == |a.parts|
    && forall k :: 0 <= k < |src| ==>
         && src[k].chunkId == id && src[k].index == k && src[k].payload == a.parts[k] && SameEvent(a, src[k])
  }

  function AddAll(cs: seq<Chunk>): map<string, Assembly> {
    if cs == [] then map[] else Add(AddAll(cs[..|cs| - 1]), cs[|cs| - 1]).0
  }

  /** The assembly a chunk extends: the pending one, or a new one. */
  function Base(m: map<string, Assembly>, c: Chunk): Assembly {
    if c.chunkId in m then m[c.chunkId] else Assembly(c.taskId, c.seqNo, c.kind, c.total, [])
  }

  function Grown(m: map<string, Assembly>, c: Chunk): Assembly {
    Base(m, c).(parts := Base(m, c).parts + [c.payload])
  }

  /** An entry after a chunk is the entry before it, or has grown by that chunk. */
  lemma AddGrows(m: map<string, Assembly>, c: Chunk, id: string)
    requires id in Add(m, c).0
    ensures || (id in m && Add(m, c).0[id] == m[id])
            || (c.chunkId == id && Add(m, c).0[id] == Grown(m, c) && SameEvent(Base(m, c), c) && c.index == |Base(m, c).parts|)
  {
  }

  lemma AssembledGrows(src: seq<Chunk>, m: map<string, Assembly>, c: Chunk)
    requires Assembled(src, c.chunkId, Base(m, c)) && SameEvent(Base(m, c), c) && c.index == |Base(m, c).parts|
    ensures Assembled(src + [c], c.chunkId, Grown(m, c))
  {
  }

  lemma AddAllStep(before: seq<Chunk>, c: Chunk)
    ensures AddAll(before + [c]) == Add(AddAll(before), c).0
  {
    assert (before + [c])[..|before|] == before;
  }

  lemma {:induction false} PendingIsGapFree(cs: seq<Chunk>, id: string) returns (src: seq<Chunk>)
    requires id in AddAll(cs)
    ensures Subsequence(src, cs) && Assembled(src, id, AddAll(cs)[id])
    decreases |cs|
  {
    var before, c := cs[..|cs| - 1], cs[|cs| - 1];
    assert cs == before + [c];
    AddAllStep(before, c);
    src := GapFreeAfter(before, c, id);
  }

  lemma {:induction false} GapFreeAfter(before: seq<Chunk>, c: Chunk, id: string) returns (src: seq<Chunk>)
    requires id in Add(AddAll(before), c).0
    ensures Subsequence(src, before + [c]) && Assembled(src, id, Add(AddAll(before), c).0[id])
    decreases |before| + 1, 0
  {
    var m := AddAll(before);
    AddGrows(m, c, id);
    src := [];
    if id in m { src := PendingIsGapFree(before, id); }
    SubsequenceAppend(src, before, c);
    if !(id in m && Add(m, c).0[id] == m[id]) {
      AssembledGrows(src, m, c);
      src := src + [c];
    }
  }

  /** Whatever chunks arrive, a delivered event is the gap-free concatenation of chunks that did arrive, in order, all of
      one chunk id and with one set of metadata. */
  lemma DeliveredIsGapFree(cs: seq<Chunk>, c: Chunk, e: Event) returns (src: seq<Chunk>)
    requires Add(AddAll(cs), c).1 == Delivered(e)
    ensures Subsequence(src, cs + [c]) && |src| == c.total
    ensures forall k :: 0 <= k < |src| ==>
              && src[k].chunkId == c.chunkId && src[k].index == k && src[k].total == c.total
              && src[k].taskId == e.taskId && src[k].seqNo == e.seqNo && src[k].kind == e.kind
    ensures e.payload == Joined(seq(|src|, k requires 0 <= k < |src| => src[k].payload))
  {
    DeliversGrown(AddAll(cs), c, e);
    src := SourcesOf(cs, c);
    AssembledIsGapFree(src, c.chunkId, Grown(AddAll(cs), c));
  }

  lemma SourcesOf(cs: seq<Chunk>, c: Chunk) returns (src: seq<Chunk>)
    requires SameEvent(Base(AddAll(cs), c), c) && c.index == |Base(AddAll(cs), c).parts|
    ensures Subsequence(src, cs + [c]) && Assembled(src, c.chunkId, Grown(AddAll(cs), c))
  {
    src := [];
    if c.chunkId in AddAll(cs) { src := PendingIsGapFree(cs, c.chunkId); }
    SubsequenceAppend(src, cs, c);
    AssembledGrows(src, AddAll(cs), c);
    src := src + [c];
  }

  lemma AssembledIsGapFree(src: seq<Chunk>, id: string, a: Assembly)
    requires Assembled(src, id, a)
    ensures forall k :: 0 <= k < |src| ==>
              && src[k].chunkId == id && src[k].index == k && src[k].total == a.total
              && src[k].taskId == a.taskId && src[k].seqNo == a.seqNo && src[k].kind == a.kind
    ensures a.parts == seq(|src|, k requires 0 <= k < |src| => src[k].payload)
  {
  }

  lemma DeliversGrown(m: map<string, Assembly>, c: Chunk, e: Event)
    requires Add(m, c).1 == Delivered(e)
    ensures SameEvent(Base(m, c), c) && c.index == |Base(m, c).parts| && |Grown(m, c).parts| == c.total
    ensures e == Event(c.taskId, c.seqNo, c.kind, Joined(Grown(m, c).parts))
  {
  }
}
