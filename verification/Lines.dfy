/** Newline-delimited framing: ReadLine over a buffered reader whose slices end at the newline, at a full buffer or at
    the end of the input. */
module Lines {
  type Byte = b: int | 0 <= b < 256

  const LF: Byte := 10
  const CR: Byte := 13
  const MAX_MESSAGE_SIZE: nat := 4 * 1024 * 1024

  datatype Line = Line(body: seq<Byte>) | TooLarge | Eof

  datatype SliceError = NoError | BufferFull | EndOfInput

  predicate NoNewline(s: seq<Byte>) {
    forall i :: 0 <= i < |s| ==> s[i] != LF
  }

  /** Position of the first newline, or the length of the input. */
  function NewlineAt(s: seq<Byte>): (n: nat)
    ensures n <= |s| && (n < |s| ==> s[n] == LF)
    ensures forall i :: 0 <= i < n ==> s[i] != LF
  {
    if s == [] || s[0] == LF then 0 else 1 + NewlineAt(s[1..])
  }

  function WithoutCr(s: seq<Byte>): seq<Byte> {
    if s != [] && s[|s| - 1] == CR then s[..|s| - 1] else s
  }

  /** The next line of an input, with no buffer in sight. */
  function NextLine(input: seq<Byte>): Line {
    var n := NewlineAt(input);
    if input == [] then Eof
    else if n < |input| then (if n + 1 > MAX_MESSAGE_SIZE then TooLarge else Line(WithoutCr(input[..n])))
    else if |input| > MAX_MESSAGE_SIZE then TooLarge
    else Line(input)
  }

  function AfterLine(input: seq<Byte>): seq<Byte> {
    var n := NewlineAt(input);
    if n < |input| then input[n + 1..] else []
  }

  class Reader {
    var rest: seq<Byte>
    const size: nat

    constructor (input: seq<Byte>, size: nat)
      requires size > 0
      ensures rest == input && this.size == size
    {
      rest, this.size := input, size;
    }

    /** bufio.Reader.ReadSlice: through the newline if the buffer can hold it, else a full buffer, else what is left. */
    method ReadSlice() returns (chunk: seq<Byte>, err: SliceError)
      requires size > 0
      modifies this
      ensures old(rest) == chunk + rest && (err != NoError ==> NoNewline(chunk))
      ensures var n := NewlineAt(old(rest));
              if n < |old(rest)| && n < size then err == NoError && |chunk| == n + 1
              else if |old(rest)| >= size then err == BufferFull && |chunk| == size
              else err == EndOfInput && |chunk| == |old(rest)|
    {
      var n := 0;
      while n < size && n < |rest| && rest[n] != LF
        invariant n <= size && n <= |rest| && forall i :: 0 <= i < n ==> rest[i] != LF
      {
        n := n + 1;
      }
      if n < size && n < |rest| {
        chunk, rest, err := rest[..n + 1], rest[n + 1..], NoError;
      } else {
        chunk, rest, err := rest[..n], rest[n..], if n == size then BufferFull else EndOfInput;
      }
    }

    /** ReadLine, whatever the buffer size. After a line that is too large the position is not specified. */
    method ReadLine() returns (line: Line)
      requires size > 0
      modifies this
      ensures line == NextLine(old(rest))
      ensures line != TooLarge ==> rest == AfterLine(old(rest))
    {
      var buf := [];
      ghost var input := rest;
      while true
        invariant input == buf + rest
        invariant NoNewline(buf) && |buf| <= MAX_MESSAGE_SIZE
        decreases |rest|
      {
        SplitNewline(buf, rest);
        ghost var ahead := rest;
        var chunk, err := ReadSlice();
        assert input == buf + ahead == buf + chunk + rest;
        if |buf| + |chunk| > MAX_MESSAGE_SIZE {
          LongLine(input, buf + chunk, rest);
          return TooLarge;
        }
        buf := buf + chunk;
        match err
        case BufferFull =>
        case EndOfInput => return if |buf| > 0 then Line(buf) else Eof;
        case NoError =>
          LineEnds(input, buf, rest);
          return Line(WithoutCr(buf[..|buf| - 1]));
      }
    }
  }

  lemma LongLine(input: seq<Byte>, taken: seq<Byte>, rest: seq<Byte>)
    requires input == taken + rest && |taken| <= NewlineAt(input) + 1 && |taken| > MAX_MESSAGE_SIZE
    ensures NextLine(input) == TooLarge
  {
  }

  lemma LineEnds(input: seq<Byte>, taken: seq<Byte>, rest: seq<Byte>)
    requires input == taken + rest && |taken| == NewlineAt(input) + 1 && |taken| <= MAX_MESSAGE_SIZE
    ensures NextLine(input) == Line(WithoutCr(taken[..|taken| - 1])) && AfterLine(input) == rest
  {
    assert taken[..|taken| - 1] == input[..NewlineAt(input)];
  }

  lemma SplitNewline(buf: seq<Byte>, rest: seq<Byte>)
    requires NoNewline(buf)
    ensures NewlineAt(buf + rest) == |buf| + NewlineAt(rest)
  {
    var n := NewlineAt(rest);
    assert n < |rest| ==> (buf + rest)[|buf| + n] == rest[n];
    assert forall i :: |buf| <= i < |buf| + n ==> (buf + rest)[i] == rest[i - |buf|];
  }

  // ---- Round trips ----

  predicate Framable(body: seq<Byte>) {
    NoNewline(body) && |body| < MAX_MESSAGE_SIZE
  }

  /** A newline-free body framed with LF reads back unchanged exactly when it does not end in CR. */
  lemma FrameReadsBackIff(body: seq<Byte>, rest: seq<Byte>)
    requires Framable(body)
    ensures NextLine(body + [LF] + rest) == Line(body) <==> (body == [] || body[|body| - 1] != CR)
    ensures AfterLine(body + [LF] + rest) == rest
  {
    var input := body + [LF] + rest;
    assert input == body + ([LF] + rest);
    SplitNewline(body, [LF] + rest);
    assert NewlineAt([LF] + rest) == 0;
    assert input[..|body|] == body && input[|body| + 1..] == rest;
  }

  function Frames(bodies: seq<seq<Byte>>): seq<Byte> {
    if bodies == [] then [] else bodies[0] + [LF] + Frames(bodies[1..])
  }

  /** Every line of an input up to its end; nothing after a line that is too large. */
  function AllLines(input: seq<Byte>): seq<Line>
    decreases |input|
  {
    if input == [] then [] else
      var line := NextLine(input);
      if line.TooLarge? then [TooLarge] else [line] + AllLines(AfterLine(input))
  }

  /** A stream of frames reads back as its bodies, in order and with nothing left over. */
  lemma {:induction false} StreamReadsBack(bodies: seq<seq<Byte>>)
    requires forall k :: 0 <= k < |bodies| ==> Framable(bodies[k]) && (bodies[k] == [] || bodies[k][|bodies[k]| - 1] != CR)
    ensures |AllLines(Frames(bodies))| == |bodies|
    ensures forall k :: 0 <= k < |bodies| ==> AllLines(Frames(bodies))[k] == Line(bodies[k])
  {
    if bodies != [] {
      var input := Frames(bodies);
      FrameReadsBackIff(bodies[0], Frames(bodies[1..]));
      StreamReadsBack(bodies[1..]);
      assert AllLines(input) == [Line(bodies[0])] + AllLines(Frames(bodies[1..]));
    }
  }
}
