/** Frame assembly: bytes arrive in arbitrary pieces, complete frames are cut off the
    front of a buffer and dispatched, the rest waits for more. */
module Wire {
  import opened Types

  type Byte = b: int | 0 <= b < 256

  /** The wire format and the dispatcher, both arbitrary: the length a header announces
      (None when it is malformed), the request in a payload (None when it does not
      decode), and whether dispatching the last of the requests so far succeeds. */
  datatype Protocol<!T> = Protocol(
    headerLen: nat, length: seq<Byte> -> Option<nat>, decode: seq<Byte> -> Option<T>, accepts: seq<T> -> bool)

  /** A connection: the bytes not yet assembled, the requests dispatched, and whether
      it goes on. */
  datatype Conn<T> = Conn(buf: seq<Byte>, dispatched: seq<T>, alive: bool)

  /** What one non-blocking read returns; a read of no bytes is Closed. */
  datatype Reading = Data(bytes: seq<Byte>) | WouldBlock | Closed | Broken

  /** The first frame of a buffer and what is behind it. */
  datatype Cut = Incomplete | Malformed | Complete(payload: seq<Byte>, rest: seq<Byte>)

  function CutFrame<T>(p: Protocol<T>, buf: seq<Byte>): (cut: Cut)
    ensures cut.Complete? ==> |cut.rest| + p.headerLen <= |buf|
  {
    var h := p.headerLen;
    if |buf| < h then Incomplete
    else
      match p.length(buf[..h])
      case None => Malformed
      case Some(len) => if |buf| < h + len then Incomplete else Complete(buf[h..h + len], buf[h + len..])
  }

  /** The batch parser: every complete frame of the buffer, up to the first error. */
  function Parse<T>(p: Protocol<T>, c: Conn<T>): Conn<T>
    requires p.headerLen > 0
    decreases |c.buf|
  {
    if !c.alive then c
    else
      match CutFrame(p, c.buf)
      case Incomplete => c
      case Malformed => c.(alive := false)
      case Complete(payload, rest) =>
        match p.decode(payload)
        case None => Conn(rest, c.dispatched, false)
        case Some(request) =>
          var dispatched := c.dispatched + [request];
          Parse(p, Conn(rest, dispatched, p.accepts(dispatched)))
  }

  function Extend<T>(c: Conn<T>, bytes: seq<Byte>): Conn<T> {
    c.(buf := c.buf + bytes)
  }

  /** One wake-up of the connection task that ends in WouldBlock. */
  function Feed<T>(p: Protocol<T>, c: Conn<T>, bytes: seq<Byte>): Conn<T>
    requires p.headerLen > 0
  {
    if c.alive then Parse(p, Extend(c, bytes)) else c
  }

  // ---- The loops

  /** The bytes read until the socket has nothing more to say, and how that ended. */
  function Drained(input: seq<Reading>): (seq<Byte>, Reading) {
    if input == [] then ([], WouldBlock)
    else if input[0].Data? then
      var (bytes, end) := Drained(input[1..]);
      (input[0].bytes + bytes, end)
    else ([], input[0])
  }

  class Connection<T> {
    var buf: seq<Byte>
    var dispatched: seq<T>
    var alive: bool

    constructor ()
      ensures View() == Conn([], [], true)
    {
      buf, dispatched, alive := [], [], true;
    }

    ghost function View(): Conn<T>
      reads this
    {
      Conn(buf, dispatched, alive)
    }

    /** Drain the socket, then dispatch every complete frame. A peer that closed ends
        the connection before anything read in the same drain is looked at. */
    method ProcessWireBytes(p: Protocol<T>, input: seq<Reading>)
      requires p.headerLen > 0 && alive
      modifies this
      ensures View() == Wake(p, old(View()), input)
    {
      var end := Drain(input);
      if !end.WouldBlock? {
        alive := false;
        return;
      }
      DispatchFrames(p);
    }

    method Drain(input: seq<Reading>) returns (end: Reading)
      modifies this
      ensures View() == Extend(old(View()), Drained(input).0) && end == Drained(input).1
    {
      var i := 0;
      end := WouldBlock;
      while i < |input|
        invariant 0 <= i <= |input| && end == WouldBlock
        invariant buf + Drained(input[i..]).0 == old(buf) + Drained(input).0
        invariant Drained(input[i..]).1 == Drained(input).1
        invariant dispatched == old(dispatched) && alive == old(alive)
      {
        assert input[i..][1..] == input[i + 1..];
        match input[i] {
          case Data(bytes) =>
            buf := buf + bytes;
          case _ =>
            end := input[i];
            return;
        }
        i := i + 1;
      }
    }

    method DispatchFrames(p: Protocol<T>)
      requires p.headerLen > 0 && alive
      modifies this
      ensures View() == Parse(p, old(View()))
    {
      var h := p.headerLen;
      while |buf| >= h && alive
        invariant Parse(p, View()) == Parse(p, old(View()))
        decreases |buf|
      {
        var announced := p.length(buf[..h]);
        if announced.None? {
          alive := false;
          return;
        }
        var end := h + announced.value;
        if |buf| < end {
          return;
        }
        var payload := buf[h..end];
        buf := buf[end..];
        var request := p.decode(payload);
        if request.None? {
          alive := false;
          return;
        }
        dispatched := dispatched + [request.value];
        alive := p.accepts(dispatched);
      }
    }
  }

  // ---- Pieces do not matter

  /** More bytes behind a buffer do not change its first frame. */
  lemma CutMore<T>(p: Protocol<T>, buf: seq<Byte>, more: seq<Byte>)
    ensures match CutFrame(p, buf)
      case Incomplete => true
      case Malformed => CutFrame(p, buf + more) == Malformed
      case Complete(payload, rest) => CutFrame(p, buf + more) == Complete(payload, rest + more)
  {
    var h := p.headerLen;
    if |buf| >= h {
      assert (buf + more)[..h] == buf[..h];
      var announced := p.length(buf[..h]);
      if announced.Some? && |buf| >= h + announced.value {
        var end := h + announced.value;
        assert (buf + more)[h..end] == buf[h..end];
        assert (buf + more)[end..] == buf[end..] + more;
      }
    }
  }

  /** More bytes after a parse: the parse goes on where it stopped, or has failed and
      looks at none of them. */
  lemma {:induction false} ParseMore<T>(p: Protocol<T>, c: Conn<T>, more: seq<Byte>)
    requires p.headerLen > 0 && c.alive
    ensures var c' := Parse(p, c);
      Parse(p, Extend(c, more)) == if c'.alive then Parse(p, Extend(c', more)) else Extend(c', more)
    decreases |c.buf|
  {
    CutMore(p, c.buf, more);
    var cut := CutFrame(p, c.buf);
    if cut.Complete? && p.decode(cut.payload).Some? {
      var dispatched := c.dispatched + [p.decode(cut.payload).value];
      if p.accepts(dispatched) {
        ParseMore(p, Conn(cut.rest, dispatched, true), more);
      }
    }
  }

  function Concat(drains: seq<seq<Byte>>): seq<Byte> {
    if drains == [] then [] else Concat(drains[..|drains| - 1]) + drains[|drains| - 1]
  }

  /** A connection that is fed one piece after the other. */
  function FeedAll<T>(p: Protocol<T>, drains: seq<seq<Byte>>): Conn<T>
    requires p.headerLen > 0
  {
    if drains == [] then Conn([], [], true)
    else Feed(p, FeedAll(p, drains[..|drains| - 1]), drains[|drains| - 1])
  }

  function Batch<T>(p: Protocol<T>, stream: seq<Byte>): Conn<T>
    requires p.headerLen > 0
  {
    Parse(p, Conn(stream, [], true))
  }

  /** However a byte stream is cut into drains, the requests dispatched, whether the
      connection goes on, and (as long as it does) the bytes left over are those of
      one batch parse; after an error only bytes that were never looked at differ. */
  lemma {:induction false} PiecesDoNotMatter<T>(p: Protocol<T>, drains: seq<seq<Byte>>)
    requires p.headerLen > 0
    ensures var fed, batch := FeedAll(p, drains), Batch(p, Concat(drains));
      && fed.dispatched == batch.dispatched && fed.alive == batch.alive
      && (fed.alive ==> fed.buf == batch.buf)
      && fed.buf <= batch.buf
  {
    if drains != [] {
      var n := |drains| - 1;
      var before := Conn(Concat(drains[..n]), [], true);
      PiecesDoNotMatter(p, drains[..n]);
      ParseMore(p, before, drains[n]);
    }
  }

  // ---- What a sender means

  /** The bytes of a frame that carries a request. */
  ghost predicate Carries<T>(p: Protocol<T>, frame: seq<Byte>, request: T) {
    && |frame| >= p.headerLen
    && p.length(frame[..p.headerLen]) == Some(|frame| - p.headerLen)
    && p.decode(frame[p.headerLen..]) == Some(request)
  }

  ghost predicate CarriesAll<T>(p: Protocol<T>, frames: seq<seq<Byte>>, requests: seq<T>) {
    |frames| == |requests| && forall i | 0 <= i < |frames| :: Carries(p, frames[i], requests[i])
  }

  lemma ParseFrame<T>(p: Protocol<T>, frame: seq<Byte>, request: T, rest: seq<Byte>, dispatched: seq<T>)
    requires p.headerLen > 0 && Carries(p, frame, request) && p.accepts(dispatched + [request])
    ensures Parse(p, Conn(frame + rest, dispatched, true)) == Parse(p, Conn(rest, dispatched + [request], true))
  {
    var h, buf := p.headerLen, frame + rest;
    assert buf[..h] == frame[..h];
    assert buf[h..|frame|] == frame[h..];
    assert buf[|frame|..] == rest;
    assert CutFrame(p, buf) == Complete(frame[h..], rest);
  }

  /** The dispatcher takes the requests one after the other. */
  ghost predicate AcceptsAll<T>(p: Protocol<T>, requests: seq<T>) {
    forall n | 0 < n <= |requests| :: p.accepts(requests[..n])
  }

  lemma WithoutLast<T>(p: Protocol<T>, frames: seq<seq<Byte>>, requests: seq<T>)
    requires CarriesAll(p, frames, requests) && AcceptsAll(p, requests) && frames != []
    ensures var n := |frames| - 1;
      && CarriesAll(p, frames[..n], requests[..n]) && AcceptsAll(p, requests[..n])
      && Carries(p, frames[n], requests[n]) && requests[..n] + [requests[n]] == requests && p.accepts(requests)
  {
    var n := |frames| - 1;
    forall k | 0 < k <= n ensures p.accepts(requests[..n][..k]) {
      assert requests[..n][..k] == requests[..k];
    }
    assert requests[..|requests|] == requests;
  }

  lemma Associates(a: seq<Byte>, b: seq<Byte>, c: seq<Byte>)
    ensures (a + b) + c == a + (b + c)
  {
  }

  lemma ConcatLast(frames: seq<seq<Byte>>, rest: seq<Byte>)
    requires frames != []
    ensures Concat(frames) + rest == Concat(frames[..|frames| - 1]) + (frames[|frames| - 1] + rest)
  {
    Associates(Concat(frames[..|frames| - 1]), frames[|frames| - 1], rest);
  }

  /** One frame more: from the requests before it to the requests with it. */
  lemma ParseOneMore<T>(p: Protocol<T>, frames: seq<seq<Byte>>, requests: seq<T>, rest: seq<Byte>)
    requires p.headerLen > 0 && CarriesAll(p, frames, requests) && AcceptsAll(p, requests) && frames != []
    ensures var n := |frames| - 1;
      Parse(p, Conn(frames[n] + rest, requests[..n], true)) == Parse(p, Conn(rest, requests, true))
  {
    var n := |frames| - 1;
    WithoutLast(p, frames, requests);
    ParseFrame(p, frames[n], requests[n], rest, requests[..n]);
  }

  lemma {:induction false} ParseFrames<T>(p: Protocol<T>, frames: seq<seq<Byte>>, requests: seq<T>, rest: seq<Byte>)
    requires p.headerLen > 0 && CarriesAll(p, frames, requests) && AcceptsAll(p, requests)
    ensures Batch(p, Concat(frames) + rest) == Parse(p, Conn(rest, requests, true))
  {
    if frames == [] {
      assert Concat(frames) + rest == rest;
    } else {
      var n := |frames| - 1;
      WithoutLast(p, frames, requests);
      ParseFrames(p, frames[..n], requests[..n], frames[n] + rest);
      ConcatLast(frames, rest);
      ParseOneMore(p, frames, requests, rest);
    }
  }

  /** The beginning of a frame, or nothing. */
  predicate IsBeginning<T>(p: Protocol<T>, tail: seq<Byte>) {
    |tail| < p.headerLen ||
    (p.length(tail[..p.headerLen]).Some? && |tail| < p.headerLen + p.length(tail[..p.headerLen]).value)
  }

  /** A client that sends frames, and has sent the beginning of another one, is
      understood: its requests are dispatched in order, each once, however the bytes
      arrive, and the beginning stays buffered. */
  lemma SentIsFed<T>(
    p: Protocol<T>, frames: seq<seq<Byte>>, requests: seq<T>, tail: seq<Byte>, drains: seq<seq<Byte>>)
    requires p.headerLen > 0 && CarriesAll(p, frames, requests) && IsBeginning(p, tail)
    requires AcceptsAll(p, requests) && Concat(drains) == Concat(frames) + tail
    ensures FeedAll(p, drains) == Conn(tail, requests, true)
  {
    ParseFrames(p, frames, requests, tail);
    PiecesDoNotMatter(p, drains);
  }

  // ---- What ends a connection

  /** The header announces no length, or the payload is complete and does not decode. */
  ghost predicate IsBad<T>(p: Protocol<T>, bad: seq<Byte>) {
    && |bad| >= p.headerLen
    && (|| p.length(bad[..p.headerLen]).None?
        || (var len := p.length(bad[..p.headerLen]).value;
            |bad| >= p.headerLen + len && p.decode(bad[p.headerLen..p.headerLen + len]).None?))
  }

  lemma ParseBad<T>(p: Protocol<T>, bad: seq<Byte>, dispatched: seq<T>)
    requires p.headerLen > 0 && IsBad(p, bad)
    ensures var c := Parse(p, Conn(bad, dispatched, true)); c.dispatched == dispatched && !c.alive
  {
  }

  /** Frames followed by bytes that are no frame: the requests before are dispatched, and
      then the connection ends, whatever else arrives and however. */
  lemma BadFrameEnds<T>(
    p: Protocol<T>, frames: seq<seq<Byte>>, requests: seq<T>, bad: seq<Byte>, drains: seq<seq<Byte>>)
    requires p.headerLen > 0 && CarriesAll(p, frames, requests) && AcceptsAll(p, requests) && IsBad(p, bad)
    requires Concat(drains) == Concat(frames) + bad
    ensures FeedAll(p, drains).dispatched == requests && !FeedAll(p, drains).alive
  {
    ParseFrames(p, frames, requests, bad);
    ParseBad(p, bad, requests);
    PiecesDoNotMatter(p, drains);
  }

  lemma ParseRefused<T>(p: Protocol<T>, frame: seq<Byte>, request: T, rest: seq<Byte>, dispatched: seq<T>)
    requires p.headerLen > 0 && Carries(p, frame, request) && !p.accepts(dispatched + [request])
    ensures Parse(p, Conn(frame + rest, dispatched, true)) == Conn(rest, dispatched + [request], false)
  {
    var h, buf := p.headerLen, frame + rest;
    assert buf[..h] == frame[..h];
    assert buf[h..|frame|] == frame[h..];
    assert buf[|frame|..] == rest;
    assert CutFrame(p, buf) == Complete(frame[h..], rest);
  }

  /** A request whose dispatch fails is the last one, whatever is behind it. */
  lemma RefusedRequestEnds<T>(
    p: Protocol<T>, frames: seq<seq<Byte>>, requests: seq<T>, frame: seq<Byte>, request: T, rest: seq<Byte>,
    drains: seq<seq<Byte>>)
    requires p.headerLen > 0 && CarriesAll(p, frames, requests) && AcceptsAll(p, requests)
    requires Carries(p, frame, request) && !p.accepts(requests + [request])
    requires Concat(drains) == Concat(frames) + (frame + rest)
    ensures FeedAll(p, drains).dispatched == requests + [request] && !FeedAll(p, drains).alive
  {
    ParseFrames(p, frames, requests, frame + rest);
    ParseRefused(p, frame, request, rest, requests);
    PiecesDoNotMatter(p, drains);
  }

  // ---- Readings

  /** Chunks read one after the other, and the reading that ends the drain. */
  function Readings(chunks: seq<seq<Byte>>, end: Reading): seq<Reading> {
    seq(|chunks|, i requires 0 <= i < |chunks| => Data(chunks[i])) + [end]
  }

  lemma {:induction false} ConcatFirst(chunks: seq<seq<Byte>>)
    requires chunks != []
    ensures Concat(chunks) == chunks[0] + Concat(chunks[1..])
  {
    var n := |chunks| - 1;
    if n == 0 {
      assert chunks[..0] == [] && chunks[1..] == [];
      assert Concat([]) + chunks[0] == chunks[0] + Concat([]);
    } else {
      ConcatFirst(chunks[..n]);
      assert chunks[1..][..n - 1] == chunks[..n][1..] && chunks[1..][n - 1] == chunks[n];
      Associates(chunks[0], Concat(chunks[..n][1..]), chunks[n]);
    }
  }

  /** A drain reads the chunks in the order in which they come, up to the first reading
      that is no data, and looks at nothing behind it. */
  lemma {:induction false} DrainsInOrder(chunks: seq<seq<Byte>>, end: Reading, more: seq<Reading>)
    requires !end.Data?
    ensures Drained(Readings(chunks, end) + more) == (Concat(chunks), end)
  {
    var input := Readings(chunks, end) + more;
    if chunks == [] {
      assert input[0] == end;
    } else {
      assert input[0] == Data(chunks[0]);
      assert input[1..] == Readings(chunks[1..], end) + more;
      DrainsInOrder(chunks[1..], end, more);
      ConcatFirst(chunks);
    }
  }

  /** One wake-up, as the connection task lives through it. */
  function Wake<T>(p: Protocol<T>, c: Conn<T>, input: seq<Reading>): Conn<T>
    requires p.headerLen > 0
  {
    var (bytes, end) := Drained(input);
    if end.WouldBlock? || !c.alive then Feed(p, c, bytes) else Extend(c, bytes).(alive := false)
  }

  function WakeAll<T>(p: Protocol<T>, inputs: seq<seq<Reading>>): Conn<T>
    requires p.headerLen > 0
  {
    if inputs == [] then Conn([], [], true)
    else Wake(p, WakeAll(p, inputs[..|inputs| - 1]), inputs[|inputs| - 1])
  }

  /** Wake-ups that each read some chunks until the socket would block. */
  function Wakeups(wakes: seq<seq<seq<Byte>>>): seq<seq<Reading>> {
    seq(|wakes|, i requires 0 <= i < |wakes| => Readings(wakes[i], WouldBlock))
  }

  function Drains(wakes: seq<seq<seq<Byte>>>): seq<seq<Byte>> {
    seq(|wakes|, i requires 0 <= i < |wakes| => Concat(wakes[i]))
  }

  lemma {:induction false} WakesAreFed<T>(p: Protocol<T>, wakes: seq<seq<seq<Byte>>>)
    requires p.headerLen > 0
    ensures WakeAll(p, Wakeups(wakes)) == FeedAll(p, Drains(wakes))
  {
    if wakes != [] {
      var n := |wakes| - 1;
      WakesAreFed(p, wakes[..n]);
      assert Wakeups(wakes)[..n] == Wakeups(wakes[..n]) && Drains(wakes)[..n] == Drains(wakes[..n]);
      DrainsInOrder(wakes[n], WouldBlock, []);
      assert Readings(wakes[n], WouldBlock) + [] == Readings(wakes[n], WouldBlock);
    }
  }

  /** A client that sends frames, and has sent the beginning of another one, is
      understood however many wake-ups it takes and however many reads each of them: its
      requests are dispatched in order, each once, and the beginning stays buffered. */
  lemma SentIsDispatched<T>(
    p: Protocol<T>, frames: seq<seq<Byte>>, requests: seq<T>, tail: seq<Byte>, wakes: seq<seq<seq<Byte>>>)
    requires p.headerLen > 0 && CarriesAll(p, frames, requests) && IsBeginning(p, tail)
    requires AcceptsAll(p, requests) && Concat(Drains(wakes)) == Concat(frames) + tail
    ensures WakeAll(p, Wakeups(wakes)) == Conn(tail, requests, true)
  {
    WakesAreFed(p, wakes);
    SentIsFed(p, frames, requests, tail, Drains(wakes));
  }

  /** A wake-up in which the peer closes or the read fails ends the connection: nothing
      read in it is dispatched, complete frames among it or not. */
  lemma ClosingDropsTheDrain<T>(p: Protocol<T>, c: Conn<T>, chunks: seq<seq<Byte>>, end: Reading, more: seq<Reading>)
    requires p.headerLen > 0 && c.alive && (end.Closed? || end.Broken?)
    ensures Wake(p, c, Readings(chunks, end) + more) == Conn(c.buf + Concat(chunks), c.dispatched, false)
  {
    DrainsInOrder(chunks, end, more);
  }
}
