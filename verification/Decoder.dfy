/** The control-frame decoder: newline-delimited messages over a byte stream whose chunk
    boundaries mean nothing. The JSON parser of one line is a parameter.
  */
module Decoder {
  import opened Schema

  type Byte = b: nat | b < 256

  const NEWLINE: Byte := 10
  const MAX_CONTROL_BODY: nat := 16384

  datatype ProtocolError = TooLarge | InvalidEncoding

  datatype Pushed<E> = Events(events: seq<E>) | Rejected(error: ProtocolError)

  type Parser<!E> = seq<Byte> -> Option<E>

  // ------------------------------------------------------------------
  // What the bytes mean
  // ------------------------------------------------------------------

  /** The lines of a byte string up to the first bad one, and what follows them. */
  datatype Drained<E> = Drained(events: seq<E>, failed: bool, rest: seq<Byte>)

  function FirstNewline(bytes: seq<Byte>): (n: nat)
    ensures n <= |bytes| && NEWLINE !in bytes[..n] && (n < |bytes| ==> bytes[n] == NEWLINE)
  {
    if bytes == [] || bytes[0] == NEWLINE then 0
    else
      var n := 1 + FirstNewline(bytes[1..]);
      assert bytes[..n] == [bytes[0]] + bytes[1..][..n - 1];
      n
  }

  function Drain<E>(parse: Parser<E>, bytes: seq<Byte>): Drained<E>
    decreases |bytes|
  {
    var n := FirstNewline(bytes);
    if n == |bytes| then Drained([], false, bytes)
    else
      match parse(bytes[..n])
      case None => Drained([], true, bytes[n + 1..])
      case Some(event) =>
        var later := Drain(parse, bytes[n + 1..]);
        later.(events := [event] + later.events)
  }

  // ------------------------------------------------------------------
  // The decoder
  // ------------------------------------------------------------------

  function PushResult<E>(parse: Parser<E>, pending: seq<Byte>, chunk: seq<Byte>): Pushed<E> {
    if |pending| + |chunk| > MAX_CONTROL_BODY then Rejected(TooLarge)
    else if Drain(parse, pending + chunk).failed then Rejected(InvalidEncoding)
    else Events(Drain(parse, pending + chunk).events)
  }

  function PushPending<E>(parse: Parser<E>, pending: seq<Byte>, chunk: seq<Byte>): seq<Byte> {
    if |pending| + |chunk| > MAX_CONTROL_BODY then pending else Drain(parse, pending + chunk).rest
  }

  class ControlDecoder<E> {
    const parse: Parser<E>
    var pending: seq<Byte>

    constructor (parse: Parser<E>)
      ensures this.parse == parse && pending == []
    {
      this.parse, this.pending := parse, [];
    }

    /** An oversized chunk is refused whole; a bad line is consumed with the lines before it. */
    method Push(chunk: seq<Byte>) returns (r: Pushed<E>)
      modifies this
      ensures r == PushResult(parse, old(pending), chunk)
      ensures pending == PushPending(parse, old(pending), chunk)
      ensures r.Events? ==> NEWLINE !in pending
    {
      hide Drain;
      if |chunk| > MAX_CONTROL_BODY || |pending| + |chunk| > MAX_CONTROL_BODY {
        return Rejected(TooLarge);
      }
      pending := pending + chunk;
      ghost var bytes := pending;
      var events: seq<E> := [];
      var end := FirstNewline(pending);
      while end < |pending|
        invariant end == FirstNewline(pending)
        invariant Drain(parse, bytes) == Drain(parse, pending).(events := events + Drain(parse, pending).events)
        decreases |pending|
      {
        DrainStep(parse, pending);
        var line := pending[..end];
        pending := pending[end + 1..];
        var event := parse(line);
        if event.None? {
          return Rejected(InvalidEncoding);
        }
        ghost var later := Drain(parse, pending);
        assert events + ([event.value] + later.events) == events + [event.value] + later.events;
        events := events + [event.value];
        end := FirstNewline(pending);
      }
      DrainStep(parse, pending);
      assert pending[..end] == pending;
      assert events + [] == events;
      return Events(events);
    }
  }

  // ------------------------------------------------------------------
  // Chunking does not matter
  // ------------------------------------------------------------------

  lemma {:induction false} NewlineOfJoin(a: seq<Byte>, b: seq<Byte>)
    requires FirstNewline(a) < |a|
    ensures FirstNewline(a + b) == FirstNewline(a)
  {
    if a[0] != NEWLINE {
      NewlineOfJoin(a[1..], b);
      assert (a + b)[1..] == a[1..] + b;
    }
  }

  lemma {:induction false} NoNewline(bytes: seq<Byte>)
    requires NEWLINE !in bytes
    ensures FirstNewline(bytes) == |bytes|
  {
    if bytes != [] {
      NoNewline(bytes[1..]);
    }
  }

  /** Draining one line. */
  lemma DrainStep<E>(parse: Parser<E>, bytes: seq<Byte>)
    ensures var n := FirstNewline(bytes);
      if n == |bytes| then Drain(parse, bytes) == Drained([], false, bytes)
      else if parse(bytes[..n]).None? then Drain(parse, bytes) == Drained([], true, bytes[n + 1..])
      else
        var later := Drain(parse, bytes[n + 1..]);
        Drain(parse, bytes) == Drained([parse(bytes[..n]).value] + later.events, later.failed, later.rest)
  {
  }

  /** Draining a longer string continues where draining its prefix left off. */
  lemma {:induction false} DrainJoin<E>(parse: Parser<E>, a: seq<Byte>, b: seq<Byte>)
    ensures var da, dab := Drain(parse, a), Drain(parse, a + b);
      if da.failed then dab.failed && dab.events == da.events
      else
        var later := Drain(parse, da.rest + b);
        dab == later.(events := da.events + later.events)
    decreases |a|
  {
    hide Drain;
    DrainStep(parse, a);
    var n := FirstNewline(a);
    if n == |a| {
      var later := Drain(parse, a + b);
      assert [] + later.events == later.events;
    } else {
      NewlineOfJoin(a, b);
      DrainStep(parse, a + b);
      assert (a + b)[..n] == a[..n] && (a + b)[n + 1..] == a[n + 1..] + b;
      hide FirstNewline;
      if parse(a[..n]).Some? {
        var event, tail := parse(a[..n]).value, Drain(parse, a[n + 1..]);
        DrainJoin(parse, a[n + 1..], b);
        if !tail.failed {
          var later := Drain(parse, tail.rest + b);
          assert [event] + (tail.events + later.events) == ([event] + tail.events) + later.events;
        }
      }
    }
  }

  lemma {:induction false} DrainedRest<E>(parse: Parser<E>, bytes: seq<Byte>)
    ensures !Drain(parse, bytes).failed ==> NEWLINE !in Drain(parse, bytes).rest
    ensures |Drain(parse, bytes).rest| <= |bytes|
    decreases |bytes|
  {
    var n := FirstNewline(bytes);
    if n == |bytes| {
      assert bytes[..n] == bytes;
    } else {
      DrainedRest(parse, bytes[n + 1..]);
    }
  }

  /** What a caller that stops at the first error has received. */
  datatype Received<E> = Received(events: seq<E>, error: Option<ProtocolError>, pending: seq<Byte>)

  function PushAll<E>(parse: Parser<E>, pending: seq<Byte>, chunks: seq<seq<Byte>>): Received<E>
    decreases |chunks|
  {
    if chunks == [] then Received([], None, pending)
    else
      match PushResult(parse, pending, chunks[0])
      case Rejected(error) => Received([], Some(error), PushPending(parse, pending, chunks[0]))
      case Events(events) =>
        var later := PushAll(parse, PushPending(parse, pending, chunks[0]), chunks[1..]);
        later.(events := events + later.events)
  }

  function Join(chunks: seq<seq<Byte>>): seq<Byte> {
    if chunks == [] then [] else chunks[0] + Join(chunks[1..])
  }

  /** Pushing chunks one by one is draining their concatenation, unless the size limit
      intervenes; a failing stream delivers a prefix of the events before its bad line. */
  lemma {:induction false} PushAllDrains<E>(parse: Parser<E>, pending: seq<Byte>, chunks: seq<seq<Byte>>)
    requires NEWLINE !in pending
    ensures var got, all := PushAll(parse, pending, chunks), Drain(parse, pending + Join(chunks));
      && got.events <= all.events
      && (got.error.None? ==> all == Drained(got.events, false, got.pending))
      && (got.error == Some(InvalidEncoding) ==> all.failed)
    decreases |chunks|
  {
    if chunks == [] {
      assert pending + Join(chunks) == pending;
      NoNewline(pending);
    } else {
      var chunk, rest := chunks[0], chunks[1..];
      assert pending + Join(chunks) == (pending + chunk) + Join(rest);
      DrainJoin(parse, pending + chunk, Join(rest));
      DrainedRest(parse, pending + chunk);
      var first := Drain(parse, pending + chunk);
      if PushResult(parse, pending, chunk).Events? {
        PushAllDrains(parse, first.rest, rest);
      }
    }
  }

  /** Two chunkings of the same bytes that avoid the size limit agree: one fails exactly
      when the other does, and otherwise both give the same events and remainder. */
  lemma ChunkingIndependent<E>(parse: Parser<E>, chunks: seq<seq<Byte>>, chunks': seq<seq<Byte>>)
    requires Join(chunks) == Join(chunks')
    requires PushAll(parse, [], chunks).error != Some(TooLarge) && PushAll(parse, [], chunks').error != Some(TooLarge)
    ensures PushAll(parse, [], chunks).error == PushAll(parse, [], chunks').error
    ensures PushAll(parse, [], chunks).error.None? ==>
      PushAll(parse, [], chunks) == PushAll(parse, [], chunks') && NEWLINE !in PushAll(parse, [], chunks).pending
  {
    hide PushAll, Drain, Join;
    PushAllDrains(parse, [], chunks);
    PushAllDrains(parse, [], chunks');
    DrainedRest(parse, [] + Join(chunks));
    var all, got, got' := Drain(parse, [] + Join(chunks)), PushAll(parse, [], chunks), PushAll(parse, [], chunks');
    assert got.error.None? || got.error.value.InvalidEncoding?;
    assert got'.error.None? || got'.error.value.InvalidEncoding?;
    assert got.error.None? ==> got == Received(all.events, None, all.rest);
    assert got'.error.None? ==> got' == Received(all.events, None, all.rest);
  }

  // ------------------------------------------------------------------
  // What was sent is what is received
  // ------------------------------------------------------------------

  /** How messages are sent: each on a line of its own. */
  function Lines(lines: seq<seq<Byte>>): seq<Byte> {
    if lines == [] then [] else lines[0] + [NEWLINE] + Lines(lines[1..])
  }

  predicate Sendable<E>(parse: Parser<E>, lines: seq<seq<Byte>>) {
    forall i | 0 <= i < |lines| :: NEWLINE !in lines[i] && parse(lines[i]).Some?
  }

  function Parsed<E>(parse: Parser<E>, lines: seq<seq<Byte>>): seq<E>
    requires Sendable(parse, lines)
  {
    seq(|lines|, i requires 0 <= i < |lines| => parse(lines[i]).value)
  }

  lemma {:induction false} NewlineAfter(line: seq<Byte>, rest: seq<Byte>)
    requires NEWLINE !in line
    ensures FirstNewline(line + [NEWLINE] + rest) == |line|
  {
    var bytes := line + [NEWLINE] + rest;
    if line != [] {
      NewlineAfter(line[1..], rest);
      assert bytes[1..] == line[1..] + [NEWLINE] + rest;
    }
  }

  /** Draining sent lines gives their messages in order and leaves what follows. */
  lemma {:induction false} DrainsLines<E>(parse: Parser<E>, lines: seq<seq<Byte>>, rest: seq<Byte>)
    requires Sendable(parse, lines)
    ensures var later := Drain(parse, rest);
      Drain(parse, Lines(lines) + rest) == later.(events := Parsed(parse, lines) + later.events)
    decreases |lines|
  {
    hide Drain, FirstNewline;
    var later := Drain(parse, rest);
    if lines == [] {
      assert Lines(lines) + rest == rest && Parsed(parse, lines) + later.events == later.events;
    } else {
      var line, more := lines[0], lines[1..];
      var bytes := line + [NEWLINE] + (Lines(more) + rest);
      assert Lines(lines) + rest == bytes;
      NewlineAfter(line, Lines(more) + rest);
      DrainStep(parse, bytes);
      assert bytes[..|line|] == line && bytes[|line| + 1..] == Lines(more) + rest;
      DrainsLines(parse, more, rest);
      assert [parse(line).value] + (Parsed(parse, more) + later.events) == Parsed(parse, lines) + later.events;
    }
  }

  lemma ErrorCases(error: Option<ProtocolError>)
    ensures error == None || error == Some(TooLarge) || error == Some(InvalidEncoding)
  {
    if error.Some? {
      assert error.value.TooLarge? || error.value.InvalidEncoding?;
    }
  }

  /** However the bytes are cut, and unless the size limit intervenes, the receiver gets exactly
      the messages sent and keeps the beginning of the next one. */
  lemma ReceivesWhatWasSent<E>(parse: Parser<E>, lines: seq<seq<Byte>>, tail: seq<Byte>, chunks: seq<seq<Byte>>)
    requires Sendable(parse, lines) && NEWLINE !in tail && Join(chunks) == Lines(lines) + tail
    requires PushAll(parse, [], chunks).error != Some(TooLarge)
    ensures PushAll(parse, [], chunks) == Received(Parsed(parse, lines), None, tail)
  {
    hide PushAll, Drain, Join, Lines, Parsed;
    PushAllDrains(parse, [], chunks);
    assert [] + Join(chunks) == Lines(lines) + tail;
    DrainsLines(parse, lines, tail);
    NoNewline(tail);
    DrainStep(parse, tail);
    assert Parsed(parse, lines) + [] == Parsed(parse, lines);
    ErrorCases(PushAll(parse, [], chunks).error);
  }

  /** A line that does not parse ends the stream, after at most the messages before it. */
  lemma BadLineEndsStream<E>(parse: Parser<E>, lines: seq<seq<Byte>>, bad: seq<Byte>, more: seq<Byte>,
      chunks: seq<seq<Byte>>)
    requires Sendable(parse, lines) && NEWLINE !in bad && parse(bad).None?
    requires Join(chunks) == Lines(lines) + (bad + [NEWLINE] + more)
    requires PushAll(parse, [], chunks).error != Some(TooLarge)
    ensures PushAll(parse, [], chunks).error == Some(InvalidEncoding)
    ensures PushAll(parse, [], chunks).events <= Parsed(parse, lines)
  {
    hide PushAll, Drain, Join, Lines, Parsed;
    var rest := bad + [NEWLINE] + more;
    PushAllDrains(parse, [], chunks);
    assert [] + Join(chunks) == Lines(lines) + rest;
    DrainsLines(parse, lines, rest);
    NewlineAfter(bad, more);
    DrainStep(parse, rest);
    assert rest[..|bad|] == bad;
    assert Parsed(parse, lines) + [] == Parsed(parse, lines);
    ErrorCases(PushAll(parse, [], chunks).error);
  }

  // ------------------------------------------------------------------
  // When the size limit cannot be reached
  // ------------------------------------------------------------------

  /** Streams of at most 16 KiB never meet the limit, however they are cut. */
  lemma {:induction false} ShortStreamsFit<E>(parse: Parser<E>, pending: seq<Byte>, chunks: seq<seq<Byte>>)
    requires |pending| + |Join(chunks)| <= 16384
    ensures PushAll(parse, pending, chunks).error != Some(TooLarge)
    decreases |chunks|
  {
    if chunks != [] {
      DrainedRest(parse, pending + chunks[0]);
      if PushResult(parse, pending, chunks[0]).Events? {
        ShortStreamsFit(parse, PushPending(parse, pending, chunks[0]), chunks[1..]);
      }
    }
  }

  /** Every line of the stream, with its newline, has at most `l` bytes; so has the
      unfinished last one, with the newline it still lacks. */
  ghost predicate LinesFit(bytes: seq<Byte>, l: nat) {
    forall i, j | 0 <= i <= j <= |bytes| && NEWLINE !in bytes[i..j] :: j - i < l
  }

  lemma SuffixFits(bytes: seq<Byte>, l: nat, n: nat)
    requires LinesFit(bytes, l) && n <= |bytes|
    ensures LinesFit(bytes[n..], l)
  {
    forall i, j | 0 <= i <= j <= |bytes[n..]| && NEWLINE !in bytes[n..][i..j] ensures j - i < l {
      assert bytes[n..][i..j] == bytes[n + i..n + j];
    }
  }

  /** What is left after draining is a suffix. */
  lemma {:induction false} RestIsSuffix<E>(parse: Parser<E>, bytes: seq<Byte>) returns (n: nat)
    ensures n <= |bytes| && Drain(parse, bytes).rest == bytes[n..]
    decreases |bytes|
  {
    var m := FirstNewline(bytes);
    if m == |bytes| {
      n := 0;
    } else if parse(bytes[..m]).None? {
      n := m + 1;
    } else {
      var k := RestIsSuffix(parse, bytes[m + 1..]);
      n := m + 1 + k;
      assert bytes[m + 1..][k..] == bytes[n..];
    }
  }

  /** Lines of at most `l` bytes in chunks of at most `c` never meet the limit when
      `l + c` is at most one more than it. */
  lemma {:induction false} FittingLinesFit<E>(parse: Parser<E>, pending: seq<Byte>, chunks: seq<seq<Byte>>, l: nat,
      c: nat)
    requires NEWLINE !in pending && LinesFit(pending + Join(chunks), l) && l + c <= 16385
    requires forall i | 0 <= i < |chunks| :: |chunks[i]| <= c
    ensures PushAll(parse, pending, chunks).error != Some(TooLarge)
    decreases |chunks|
  {
    if chunks != [] {
      var all := pending + Join(chunks);
      assert all[0..|pending|] == pending;
      var first := pending + chunks[0];
      DrainedRest(parse, first);
      var n := RestIsSuffix(parse, first);
      assert all[n..] == first[n..] + Join(chunks[1..]) by {
        assert all == first + Join(chunks[1..]);
      }
      SuffixFits(all, l, n);
      if PushResult(parse, pending, chunks[0]).Events? {
        FittingLinesFit(parse, PushPending(parse, pending, chunks[0]), chunks[1..], l, c);
      }
    }
  }

  function Filled(n: nat): seq<Byte> {
    seq(n, i => 120)
  }

  function Singles(n: nat): seq<seq<Byte>> {
    seq(n, i => [120])
  }

  /** One more is too much: a line of `l` bytes sent with chunks of at most `c` can be refused. */
  lemma LimitIsTight<E>(parse: Parser<E>, l: nat, c: nat) returns (chunks: seq<seq<Byte>>)
    requires 1 <= l && 1 <= c && l + c == 16386
    ensures forall i | 0 <= i < |chunks| :: |chunks[i]| <= c
    ensures LinesFit(Join(chunks), l)
    ensures PushAll(parse, [], chunks).error == Some(TooLarge)
  {
    var last := seq(c, i => NEWLINE);
    chunks := Singles(l - 1) + [last];
    FillThenPush(parse, 0, l - 1, last);
    assert Filled(0) == [];
    JoinSingles(l - 1, last);
    var all := Join(chunks);
    assert all == Filled(l - 1) + last;
    forall i, j | 0 <= i < j <= |all| && l <= j ensures NEWLINE in all[i..j] {
      assert all[i..j][j - 1 - i] == NEWLINE;
    }
  }

  lemma {:induction false} JoinSingles(n: nat, last: seq<Byte>)
    ensures Join(Singles(n) + [last]) == Filled(n) + last
  {
    if n == 0 {
      assert Singles(0) + [last] == [last] && [last][1..] == [];
    } else {
      assert (Singles(n) + [last])[1..] == Singles(n - 1) + [last];
      JoinSingles(n - 1, last);
      assert Filled(n) == [120] + Filled(n - 1);
    }
  }

  lemma {:induction false} FillThenPush<E>(parse: Parser<E>, have: nat, more: nat, last: seq<Byte>)
    requires have + more + |last| == MAX_CONTROL_BODY + 1 && |last| > 0
    ensures PushAll(parse, Filled(have), Singles(more) + [last]).error == Some(TooLarge)
    decreases more
  {
    var chunks := Singles(more) + [last];
    if more > 0 {
      assert chunks[0] == [120] && chunks[1..] == Singles(more - 1) + [last];
      assert Filled(have) + [120] == Filled(have + 1);
      var n := FirstNewline(Filled(have + 1));
      FillThenPush(parse, have + 1, more - 1, last);
    }
  }
}
