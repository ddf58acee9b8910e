/** The data plane: the ClientHello prefix, the chunked writer and the two-way copy. What
    the sockets deliver, and how much the HTTP/2 window grants, are parameters.
  */
module Bridge {
  import opened Schema
  import opened Decoder

  const FRAME_LIMIT: nat := 16384
  const MAX_CLIENT_HELLO: nat := 65536

  datatype Frame = Frame(data: seq<Byte>, end: bool)

  /** What the TLS parser says of the bytes so far. */
  datatype Hello = NeedMore | Malformed | Nameless | Named(host: string)

  /** What one turn of the copy loop may see; an empty read is the browser's end. */
  datatype Event = BrowserRead(bytes: seq<Byte>) | TunnelData(bytes: seq<Byte>) | TunnelEnd | Broken

  function Data(frames: seq<Frame>): seq<Byte> {
    if frames == [] then [] else Data(frames[..|frames| - 1]) + frames[|frames| - 1].data
  }

  lemma DataGrows(frames: seq<Frame>, f: Frame)
    ensures Data(frames + [f]) == Data(frames) + f.data
  {
    assert (frames + [f])[..|frames|] == frames;
  }

  /** Non-empty frames of at most 16 KiB, then at most one empty one that ends the stream. */
  ghost predicate WellFramed(frames: seq<Frame>, ended: bool) {
    && (ended ==> frames != [] && frames[|frames| - 1] == Frame([], true))
    && forall i | 0 <= i < |frames| - (if ended then 1 else 0) :: !frames[i].end && 1 <= |frames[i].data| <= FRAME_LIMIT
  }

  /** One direction of the copy, as a function of the events so far. */
  datatype Side = Side(bytes: seq<Byte>, done: bool)

  function AfterBrowser(s: Side, e: Event): Side {
    if s.done || !e.BrowserRead? then s else if e.bytes == [] then s.(done := true) else s.(bytes := s.bytes + e.bytes)
  }

  function AfterTunnel(s: Side, e: Event): Side {
    if s.done then s else if e.TunnelEnd? then s.(done := true)
      else if e.TunnelData? then s.(bytes := s.bytes + e.bytes) else s
  }

  function BrowserSide(events: seq<Event>): Side {
    if events == [] then Side([], false) else AfterBrowser(BrowserSide(events[..|events| - 1]), events[|events| - 1])
  }

  function TunnelSide(events: seq<Event>): Side {
    if events == [] then Side([], false) else AfterTunnel(TunnelSide(events[..|events| - 1]), events[|events| - 1])
  }

  lemma SidesNext(events: seq<Event>, k: nat)
    requires k < |events|
    ensures BrowserSide(events[..k + 1]) == AfterBrowser(BrowserSide(events[..k]), events[k])
    ensures TunnelSide(events[..k + 1]) == AfterTunnel(TunnelSide(events[..k]), events[k])
  {
    assert events[..k + 1][..k] == events[..k];
  }

  /** What the browser has sent: all it wrote before its first empty read. */
  lemma {:induction false} BrowserSideExact(events: seq<Event>, e: Event)
    ensures BrowserSide(events).done <==> BrowserRead([]) in events
    ensures if BrowserRead([]) in events then BrowserSide(events + [e]) == BrowserSide(events)
      else BrowserSide(events + [e]).bytes == BrowserSide(events).bytes + if e.BrowserRead? then e.bytes else []
  {
    assert (events + [e])[..|events|] == events;
    if events != [] {
      var front, last := events[..|events| - 1], events[|events| - 1];
      assert events == front + [last];
      BrowserSideExact(front, last);
    }
  }

  /** What Broker has sent: all its data before the first end. */
  lemma {:induction false} TunnelSideExact(events: seq<Event>, e: Event)
    ensures TunnelSide(events).done <==> TunnelEnd in events
    ensures if TunnelEnd in events then TunnelSide(events + [e]) == TunnelSide(events)
      else TunnelSide(events + [e]).bytes == TunnelSide(events).bytes + if e.TunnelData? then e.bytes else []
  {
    assert (events + [e])[..|events|] == events;
    if events != [] {
      var front, last := events[..|events| - 1], events[|events| - 1];
      assert events == front + [last];
      TunnelSideExact(front, last);
    }
  }

  lemma EndFrames(frames: seq<Frame>)
    requires WellFramed(frames, false)
    ensures WellFramed(frames + [Frame([], true)], true) && Data(frames + [Frame([], true)]) == Data(frames)
  {
    DataGrows(frames, Frame([], true));
    assert Data(frames) + [] == Data(frames);
  }

  lemma {:induction false} JoinGrows(chunks: seq<seq<Byte>>, chunk: seq<Byte>)
    ensures Join(chunks + [chunk]) == Join(chunks) + chunk
  {
    if chunks == [] {
      assert chunks + [chunk] == [chunk] && [chunk][1..] == [];
    } else {
      assert (chunks + [chunk])[1..] == chunks[1..] + [chunk];
      JoinGrows(chunks[1..], chunk);
    }
  }

  /** Reads until the parser has a whole ClientHello, and answers exactly for one that names an
      assigned hostname. The prefix is every byte read, at most 64 KiB, and no earlier cut of
      it was enough. */
  method ReadSni(received: seq<seq<Byte>>, parse: seq<Byte> -> Hello)
    returns (r: Option<string>, prefix: seq<Byte>, n: nat)
    ensures n <= |received| && prefix == Join(received[..n]) && |prefix| <= MAX_CLIENT_HELLO
    ensures forall m | 1 <= m < n :: parse(Join(received[..m])) == NeedMore
    ensures r.Some? <==> 1 <= n && parse(prefix).Named? && ValidHostname(parse(prefix).host)
    ensures r.Some? ==> parse(prefix) == Named(r.value)
    ensures r.None? && n < |received| && (n == 0 || parse(prefix) == NeedMore) ==>
      received[n] == [] || |prefix| + |received[n]| > MAX_CLIENT_HELLO
  {
    hide ValidHostname;
    prefix, n := [], 0;
    while n < |received|
      invariant n <= |received| && prefix == Join(received[..n]) && |prefix| <= MAX_CLIENT_HELLO
      invariant forall m | 1 <= m <= n :: parse(Join(received[..m])) == NeedMore
    {
      var read := received[n];
      if read == [] || |prefix| + |read| > MAX_CLIENT_HELLO {
        return None, prefix, n;
      }
      JoinGrows(received[..n], read);
      assert received[..n + 1] == received[..n] + [read];
      prefix, n := prefix + read, n + 1;
      match parse(prefix) {
      case Named(host) => return if ValidHostname(host) then Some(host) else None, prefix, n;
      case Malformed => return None, prefix, n;
      case Nameless => return None, prefix, n;
      case NeedMore =>
      }
    }
    return None, prefix, n;
  }

  class Relay {
    var outbound: seq<Frame>
    var toBrowser: seq<Byte>
    var browserShut: bool

    constructor ()
      ensures outbound == [] && toBrowser == [] && !browserShut
    {
      outbound, toBrowser, browserShut := [], [], false;
    }

    /** Sends `bytes` in frames the window allows; `grants` are its successive non-zero
        capacities, and the stream is closed when they run out. */
    method SendData(bytes: seq<Byte>, grants: seq<nat>) returns (ok: bool, ghost unsent: seq<Byte>)
      requires WellFramed(outbound, false) && forall i | 0 <= i < |grants| :: grants[i] > 0
      modifies this`outbound
      ensures WellFramed(outbound, false) && old(outbound) <= outbound
      ensures Data(old(outbound)) + bytes == Data(outbound) + unsent && (ok <==> unsent == [])
      ensures |grants| >= |bytes| ==> ok
    {
      var rest, i := bytes, 0;
      while rest != [] && i < |grants|
        invariant i <= |grants| && WellFramed(outbound, false) && old(outbound) <= outbound
        invariant Data(old(outbound)) + bytes == Data(outbound) + rest
        invariant |rest| + i <= |bytes|
      {
        var count := if grants[i] < |rest| then grants[i] else |rest|;
        count := if count < FRAME_LIMIT then count else FRAME_LIMIT;
        DataGrows(outbound, Frame(rest[..count], false));
        assert rest == rest[..count] + rest[count..];
        assert Data(outbound) + rest == (Data(outbound) + rest[..count]) + rest[count..];
        outbound, rest, i := outbound + [Frame(rest[..count], false)], rest[count..], i + 1;
      }
      return rest == [], rest;
    }

    /** Copies both ways until both sides have ended. Broker gets the prefix and then exactly
        what the browser sent, in order, and the end of stream once; the browser gets
        exactly what Broker sent. `n` is how many events were used. */
    method Copy(prefix: seq<Byte>, events: seq<Event>, grants: seq<seq<nat>>)
      returns (ok: bool, ghost n: nat, ghost unsent: seq<Byte>)
      requires outbound == [] && toBrowser == [] && !browserShut && |grants| == |events| + 1
      requires forall k, i | 0 <= k < |grants| && 0 <= i < |grants[k]| :: grants[k][i] > 0
      modifies this
      ensures n <= |events|
      ensures WellFramed(outbound, BrowserSide(events[..n]).done)
      ensures prefix + BrowserSide(events[..n]).bytes == Data(outbound) + unsent && (ok ==> unsent == [])
      ensures toBrowser == TunnelSide(events[..n]).bytes && browserShut == TunnelSide(events[..n]).done
      ensures ok ==> BrowserSide(events[..n]).done && TunnelSide(events[..n]).done
      // It stops for no other reason than that both have ended, a write failed, the connection
      // broke or nothing more happened.
      ensures forall m | 0 <= m < n :: !(BrowserSide(events[..m]).done && TunnelSide(events[..m]).done)
      ensures ok || unsent != [] || n == |events| || events[n] == Broken
      ensures !ok && unsent == [] && n == |events| ==>
        !(BrowserSide(events[..n]).done && TunnelSide(events[..n]).done)
    {
      hide Data, BrowserSide, TunnelSide, WellFramed;
      Nothing(events);
      var sent: bool;
      sent, unsent := SendData(prefix, grants[0]);
      if !sent {
        return false, 0, unsent;
      }
      assert Data(outbound) == Data(outbound) + unsent == [] + prefix == prefix + [];
      var browserDone, tunnelDone, k := false, false, 0;
      while !(browserDone && tunnelDone) && k < |events|
        invariant k <= |events|
        invariant BrowserSide(events[..k]).done == browserDone && TunnelSide(events[..k]) == Side(toBrowser, tunnelDone)
        invariant browserShut == tunnelDone && WellFramed(outbound, browserDone)
        invariant Data(outbound) == prefix + BrowserSide(events[..k]).bytes
        invariant forall m | 0 <= m < k :: !(BrowserSide(events[..m]).done && TunnelSide(events[..m]).done)
      {
        SidesNext(events, k);
        match events[k] {
        case Broken => return false, k, [];
        case BrowserRead(bytes) =>
          if !browserDone {
            if bytes == [] {
              browserDone := true;
              EndFrames(outbound);
              outbound := outbound + [Frame([], true)];
            } else {
              sent, unsent := SendData(bytes, grants[k + 1]);
              assert (prefix + BrowserSide(events[..k]).bytes) + bytes ==
                prefix + (BrowserSide(events[..k]).bytes + bytes);
              if !sent {
                return false, k + 1, unsent;
              }
              assert Data(outbound) + unsent == Data(outbound);
            }
          }
        case TunnelData(bytes) =>
          if !tunnelDone {
            toBrowser := toBrowser + bytes;
          }
        case TunnelEnd =>
          tunnelDone, browserShut := true, true;
        }
        k := k + 1;
      }
      return browserDone && tunnelDone, k, [];
    }
  }

  lemma Nothing(events: seq<Event>)
    ensures Data([]) == [] && WellFramed([], false) && BrowserSide(events[..0]) == Side([], false)
    ensures TunnelSide(events[..0]) == Side([], false)
  {
  }
}
