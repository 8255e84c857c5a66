/** The server side of the event stream: a `bufio.Scanner` with a fixed buffer that is told how to split
    events, and the goroutine that reads events until the stream ends. */
module EventReader {
  import opened Options
  import opened Sequences
  import opened Json
  import opened Events

  /** What the `split` closure answers: read more, or drop `advance` bytes and hand out `token`. */
  datatype Split = NeedMore | Token(advance: nat, token: string)

  function SplitEvents(data: string, atEof: bool): (s: Split)
    ensures s.Token? ==> 0 < s.advance <= |data|
  {
    if atEof && data == "" then NeedMore
    else match Index(data, BLANK)
      case Some(i) => Token(i + 2, data[..i])
      case None => if atEof then Token(|data|, data) else NeedMore
  }

  /** What a connection can report after its last byte. */
  type StreamEnd = e: ReadError | e == Eof || e == Canceled || e == Broken witness Eof

  // ------------------------------------------------------- what the reader makes of a stream

  /** The result of one `readEvent` on the bytes `p` still to come, with a buffer of `cap` bytes and a
      connection that reports `final` after its last byte, and the bytes left after it. `edge` says
      whether that report arrived together with the last bytes; it matters only for unterminated
      bytes that fill the buffer exactly. */
  function NextEvent(p: string, cap: nat, final: StreamEnd, edge: bool): (n: (Received, string))
    ensures n.0.Got? ==> |n.1| < |p|
  {
    match Index(p, BLANK)
    case Some(i) =>
      if i + 2 > cap then (Received.Failed(TooLong), p) else (Unmarshal(p[..i]), p[i + 2..])
    case None =>
      if p == "" then (Received.Failed(final), "")
      else if |p| > cap || (|p| == cap && !edge) then (Received.Failed(TooLong), p)
      else (Unmarshal(p), "")
  }

  /** All the requests read from `p`, and the error that ends the reading. */
  function Deliver(p: string, cap: nat, final: StreamEnd, edge: bool): (seq<Request>, ReadError)
    decreases |p|
  {
    var n := NextEvent(p, cap, final, edge);
    match n.0
    case Failed(e) => ([], e)
    case Got(r) =>
      var rest := Deliver(n.1, cap, final, edge);
      ([r] + rest.0, rest.1)
  }

  // ------------------------------------------------------- the connection

  /** The response body: the bytes that will still arrive, and what is reported once they have. */
  class Source {
    var unread: string
    const final: StreamEnd

    constructor (bytes: string, final: StreamEnd)
      ensures unread == bytes && this.final == final
    {
      unread := bytes;
      this.final := final;
    }

    /** Hands out the next bytes in chunks of any size; the end may be reported with the last chunk or after it. */
    method Read(room: nat) returns (chunk: string, err: Option<ReadError>)
      requires room > 0
      modifies this
      ensures chunk + unread == old(unread) && |chunk| <= room
      ensures err.Some? ==> unread == "" && err.value == final
      ensures err.None? ==> chunk != ""
    {
      if unread == "" {
        return "", Some(final);
      }
      var n: nat :| 1 <= n <= room && n <= |unread|;
      chunk := unread[..n];
      unread := unread[n..];
      var together: bool := *;
      err := if unread == "" && together then Some(final) else None;
    }
  }

  // ------------------------------------------------------- bufio.Scanner

  lemma IndexInPrefix(data: string, more: string)
    ensures Index(data, BLANK).Some? ==> Index(data + more, BLANK) == Index(data, BLANK)
    ensures Index(data, BLANK).None? && Index(data + more, BLANK).Some? ==> Index(data + more, BLANK).value + 2 > |data|
  {
    var s := data + more;
    assert |BLANK| == 2;
    forall j: nat | j + 2 <= |data|
      ensures OccursAt(s, BLANK, j) <==> OccursAt(data, BLANK, j)
    {
      assert s[j..j + 2] == data[j..j + 2];
    }
  }

  /** `Scan` takes `token` off the front of `p` and leaves `rest`; `atEof` when the end of the stream is known. */
  ghost predicate ScanTakes(p: string, cap: nat, atEof: bool, token: string, rest: string) {
    match Index(p, BLANK)
    case Some(i) => i + 2 <= cap && token == p[..i] && rest == p[i + 2..]
    case None => atEof && 0 < |p| <= cap && token == p && rest == ""
  }

  /** `Scan` on `p` gives up and reports `e`. */
  ghost predicate ScanStops(p: string, cap: nat, final: StreamEnd, e: ReadError) {
    match Index(p, BLANK)
    case Some(i) => i + 2 > cap && e == TooLong
    case None => if p == "" then e == final else |p| >= cap && e == TooLong
  }

  lemma TokenTaken(data: string, more: string, cap: nat, atEof: bool, advance: nat, token: string)
    requires SplitEvents(data, atEof) == Token(advance, token)
    requires |data| <= cap && (atEof ==> more == "")
    ensures ScanTakes(data + more, cap, atEof, token, data[advance..] + more)
  {
    IndexInPrefix(data, more);
    assert Index(data, BLANK).Some? ==> Index(data, BLANK).value + 2 <= |data|;
    hide Index, OccursAt;
    if Index(data, BLANK).None? {
      assert data + more == data && data[..|token|] == token;
      assert data[advance..] + more == "";
    } else {
      assert (data + more)[..|token|] == token;
      assert (data + more)[advance..] == data[advance..] + more;
    }
  }

  lemma FullBuffer(data: string, more: string, final: StreamEnd)
    requires data != "" && Index(data, BLANK).None?
    ensures ScanStops(data + more, |data|, final, TooLong)
  {
    IndexInPrefix(data, more);
  }

  class Scanner {
    const source: Source
    const buf: array<char>
    var start: nat
    var end: nat
    var err: Option<ReadError>
    var token: string

    ghost predicate Valid()
      reads this, source
    {
      && start <= end <= buf.Length && buf.Length > 0
      && (err.Some? ==> err.value == TooLong || (source.unread == "" && err.value == source.final))
    }

    /** The bytes the scanner can still turn into tokens. */
    ghost function Pending(): string
      requires Valid()
      reads this, source, buf
    {
      buf[start..end] + (if err.Some? then "" else source.unread)
    }

    constructor (source: Source, size: nat)
      requires size > 0
      ensures Valid() && fresh(buf) && this.source == source
      ensures buf.Length == size && err == None && Pending() == source.unread
    {
      this.source := source;
      buf := new char[size];
      start, end, err, token := 0, 0, None, "";
    }

    /** Moves the unread bytes to the front of the buffer. */
    method Shift()
      requires Valid()
      modifies this`start, this`end, buf
      ensures Valid() && Pending() == old(Pending())
      ensures start == 0 && end == old(end - start)
    {
      ghost var data := buf[start..end];
      forall i | 0 <= i < end - start {
        buf[i] := buf[start + i];
      }
      start, end := 0, end - start;
      assert buf[start..end] == data;
    }

    /** Appends one read to the buffer. */
    method Fill()
      requires Valid() && err.None? && end < buf.Length
      modifies this`end, this`err, buf, source
      ensures Valid() && Pending() == old(Pending()) && end >= old(end)
      ensures err.Some? ==> source.unread == "" && err.value == source.final
      ensures |source.unread| <= |old(source.unread)|
      ensures err.None? ==> |source.unread| < |old(source.unread)|
    {
      ghost var data := buf[start..end];
      var chunk, e := source.Read(buf.Length - end);
      forall i | 0 <= i < |chunk| {
        buf[end + i] := chunk[i];
      }
      end := end + |chunk|;
      err := e;
      assert buf[start..end] == data + chunk;
    }

    /** Takes one token out of the buffer, if the split function finds one there. */
    method TakeToken() returns (found: bool)
      requires Valid()
      modifies this`start, this`token
      ensures Valid()
      ensures var data, more := old(buf[start..end]), if err.Some? then "" else source.unread;
              if found then ScanTakes(data + more, buf.Length, err.Some?, token, Pending())
              else start == old(start) && Index(data, BLANK).None? && (err.Some? ==> data == "")
    {
      ghost var data, more := buf[start..end], if err.Some? then "" else source.unread;
      match SplitEvents(buf[start..end], err.Some?)
      case Token(advance, tok) =>
        TokenTaken(data, more, buf.Length, err.Some?, advance, tok);
        start, token := start + advance, tok;
        assert buf[start..end] == data[advance..];
        found := true;
      case NeedMore =>
        found := false;
    }

    /** One call of `Scan`: an event is handed out exactly when it and its blank line fit in the buffer. */
    method Scan() returns (ok: bool)
      requires Valid() && err != Some(TooLong)
      modifies this, buf, source
      ensures Valid()
      ensures if ok then err != Some(TooLong) && ScanTakes(old(Pending()), buf.Length, err.Some?, token, Pending())
              else err.Some? && ScanStops(old(Pending()), buf.Length, source.final, err.value)
    {
      ghost var p := Pending();
      while true
        invariant Valid() && Pending() == p && err != Some(TooLong)
        decreases |source.unread|, if err.None? then 1 else 0
      {
        if end > start || err.Some? {
          ok := TakeToken();
          if ok {
            return;
          }
        }
        if err.Some? {
          start, end := 0, 0;
          return false;
        }
        assert Index(buf[start..end], BLANK).None?;
        if start > 0 && (end == buf.Length || start > buf.Length / 2) {
          Shift();
        }
        if end == buf.Length {
          FullBuffer(buf[start..end], source.unread, source.final);
          err := Some(TooLong);
          return false;
        }
        Fill();
      }
    }
  }

  // ------------------------------------------------------- eventStreamReader and its goroutine

  class EventStreamReader {
    const scanner: Scanner

    constructor (source: Source, maxBufferSize: nat)
      requires maxBufferSize > 0
      ensures fresh(scanner) && fresh(scanner.buf) && scanner.source == source
      ensures scanner.Valid() && scanner.err == None && scanner.buf.Length == maxBufferSize
      ensures scanner.Pending() == source.unread
    {
      scanner := new Scanner(source, maxBufferSize);
    }

    method ReadEvent() returns (r: Received)
      requires scanner.Valid() && scanner.err != Some(TooLong)
      modifies scanner, scanner.buf, scanner.source
      ensures scanner.Valid() && (r.Got? ==> scanner.err != Some(TooLong))
      ensures ReadsNext(old(scanner.Pending()), scanner.buf.Length, scanner.source.final, r, scanner.Pending())
      ensures r.Got? ==> |scanner.Pending()| < |old(scanner.Pending())|
    {
      ghost var p := scanner.Pending();
      var ok := scanner.Scan();
      ghost var n := NextEvent(p, scanner.buf.Length, scanner.source.final, ok);
      if ok {
        r := Unmarshal(scanner.token);
      } else {
        r := Received.Failed(scanner.err.value);
      }
      assert r == n.0;
    }
  }

  /** What the goroutine sends, in order; when it has sent everything it closes the error channel, then the
      request channel. */
  datatype Send = ToError(error: ReadError) | ToHandling(received: Received)

  function Requests(rs: seq<Request>): seq<Send> {
    seq(|rs|, i requires 0 <= i < |rs| => ToHandling(Got(rs[i])))
  }

  /** The sends that end a run: the reason for closing first goes to the error channel if it came from our end. */
  function Farewell(e: ReadError): seq<Send> {
    (if e == Canceled then [ToError(Canceled)] else []) + [ToHandling(Received.Failed(e))]
  }

  /** The context is found cancelled at pass `cancelAt` of the goroutine's loop, if that pass is reached: one pass
      reads one request. */
  predicate CutShort(rs: seq<Request>, cancelAt: Option<nat>) {
    cancelAt.Some? && cancelAt.value <= |rs|
  }

  /** The sends of a goroutine whose reads yield `rs` and then `e`: all of them, or those before the pass at which
      the context is found cancelled, and word of that. */
  function Sent(rs: seq<Request>, e: ReadError, cancelAt: Option<nat>): seq<Send> {
    if CutShort(rs, cancelAt) then Requests(rs[..cancelAt.value]) + [ToError(Canceled)]
    else Requests(rs) + Farewell(e)
  }

  ghost predicate Script(p: string, cap: nat, final: StreamEnd, cancelAt: Option<nat>, sends: seq<Send>) {
    exists edge :: sends == Sent(Deliver(p, cap, final, edge).0, Deliver(p, cap, final, edge).1, cancelAt)
  }

  /** `got` and then the rest of the stream is what the whole stream yields. */
  ghost predicate Sofar(p: string, cap: nat, final: StreamEnd, edge: bool, got: seq<Request>, rest: string) {
    && Deliver(p, cap, final, edge).0 == got + Deliver(rest, cap, final, edge).0
    && Deliver(p, cap, final, edge).1 == Deliver(rest, cap, final, edge).1
  }

  lemma DeliverGot(p: string, cap: nat, final: StreamEnd, edge: bool)
    requires NextEvent(p, cap, final, edge).0.Got?
    ensures var n := NextEvent(p, cap, final, edge);
            && Deliver(p, cap, final, edge).0 == [n.0.request] + Deliver(n.1, cap, final, edge).0
            && Deliver(p, cap, final, edge).1 == Deliver(n.1, cap, final, edge).1
  {
  }

  lemma SofarStep(p: string, cap: nat, final: StreamEnd, edge: bool, got: seq<Request>, rest: string)
    requires Sofar(p, cap, final, edge, got, rest)
    ensures var n := NextEvent(rest, cap, final, edge);
            if n.0.Got? then Sofar(p, cap, final, edge, got + [n.0.request], n.1)
            else Deliver(p, cap, final, edge) == (got, n.0.error)
  {
    var n := NextEvent(rest, cap, final, edge);
    if n.0.Got? {
      DeliverGot(rest, cap, final, edge);
      Regroup(got, [n.0.request], Deliver(n.1, cap, final, edge).0);
    } else {
      assert Deliver(rest, cap, final, edge) == ([], n.0.error);
      assert got + [] == got;
    }
  }

  /** One `readEvent` on `p` answered `r` and left `rest`, for some way of reporting the end. */
  ghost predicate ReadsNext(p: string, cap: nat, final: StreamEnd, r: Received, rest: string) {
    exists edge :: r == NextEvent(p, cap, final, edge).0 && (r.Got? ==> rest == NextEvent(p, cap, final, edge).1)
  }

  /** `got` was read and `rest` is left; only the last bytes of a stream can depend on how its end is reported. */
  ghost predicate Reading(p: string, cap: nat, final: StreamEnd, got: seq<Request>, rest: string) {
    exists edge :: Sofar(p, cap, final, edge, got, rest) && (rest == "" || Sofar(p, cap, final, !edge, got, rest))
  }

  lemma ReadingStep(p: string, cap: nat, final: StreamEnd, got: seq<Request>, rest: string, r: Received, after: string)
    requires Reading(p, cap, final, got, rest) && ReadsNext(rest, cap, final, r, after)
    ensures r.Got? ==> Reading(p, cap, final, got + [r.request], after)
    ensures r.Failed? ==> exists edge :: Deliver(p, cap, final, edge) == (got, r.error)
  {
    hide NextEvent, Deliver, Sofar;
    var e :| r == NextEvent(rest, cap, final, e).0 && (r.Got? ==> after == NextEvent(rest, cap, final, e).1);
    var edge :| Sofar(p, cap, final, edge, got, rest) && (rest == "" || Sofar(p, cap, final, !edge, got, rest));
    var same := if rest == "" then edge else e;
    EdgeMattersLast(rest, cap, final, e);
    SofarStep(p, cap, final, same, got, rest);
    if after != "" && r.Got? {
      SofarStep(p, cap, final, !same, got, rest);
    }
  }

  /** How the end is reported matters only when nothing is left. */
  lemma EdgeMattersLast(p: string, cap: nat, final: StreamEnd, edge: bool)
    ensures NextEvent(p, cap, final, edge).0.Got? && NextEvent(p, cap, final, edge).1 != "" ==>
              NextEvent(p, cap, final, !edge) == NextEvent(p, cap, final, edge)
    ensures p == "" ==> NextEvent(p, cap, final, !edge) == NextEvent(p, cap, final, edge)
  {
    hide Unmarshal;
    IndexFits(p);
  }

  lemma IndexFits(p: string)
    ensures p == "" ==> Index(p, BLANK).None?
  {
  }

  lemma ScriptEnds(p: string, cap: nat, final: StreamEnd, edge: bool, got: seq<Request>, e: ReadError,
      cancelAt: Option<nat>)
    requires Deliver(p, cap, final, edge) == (got, e) && !CutShort(got, cancelAt)
    ensures Script(p, cap, final, cancelAt, Requests(got) + Farewell(e))
  {
    hide Deliver, NextEvent, Requests;
    assert Deliver(p, cap, final, edge).0 == got;
  }

  lemma ScriptCanceled(p: string, cap: nat, final: StreamEnd, got: seq<Request>, rest: string)
    requires Reading(p, cap, final, got, rest)
    ensures Script(p, cap, final, Some(|got|), Requests(got) + [ToError(Canceled)])
  {
    hide Deliver, NextEvent, Requests;
    var edge :| Sofar(p, cap, final, edge, got, rest);
    var rs := Deliver(p, cap, final, edge).0;
    assert rs[..|got|] == got && CutShort(rs, Some(|got|));
  }

  lemma ReadingStart(p: string, cap: nat, final: StreamEnd)
    ensures Reading(p, cap, final, [], p)
  {
    assert forall edge :: [] + Deliver(p, cap, final, edge).0 == Deliver(p, cap, final, edge).0;
    assert Sofar(p, cap, final, true, [], p) && Sofar(p, cap, final, false, [], p);
  }

  lemma RequestsAppend(rs: seq<Request>, r: Request)
    ensures Requests(rs + [r]) == Requests(rs) + [ToHandling(Got(r))]
  {
  }

  lemma FarewellSends(sent: seq<Send>, e: ReadError)
    ensures sent + (if e == Canceled then [ToError(Canceled)] else []) + [ToHandling(Received.Failed(e))]
        == sent + Farewell(e)
  {
  }

  /** The goroutine started by `listenInternal`; pass `cancelAt` of its loop finds the context cancelled. */
  method ReaderGoroutine(reader: EventStreamReader, cancelAt: Option<nat>) returns (sends: seq<Send>)
    requires reader.scanner.Valid() && reader.scanner.err == None
    modifies reader.scanner, reader.scanner.buf, reader.scanner.source
    ensures Script(old(reader.scanner.Pending()), reader.scanner.buf.Length, reader.scanner.source.final, cancelAt,
              sends)
  {
    hide Deliver, NextEvent, Reading, ReadsNext, Script, Farewell;
    var scanner := reader.scanner;
    ghost var p, cap, final := scanner.Pending(), scanner.buf.Length, scanner.source.final;
    ghost var got: seq<Request> := [];
    sends := [];
    ReadingStart(p, cap, final);
    while true
      invariant scanner.Valid() && scanner.err != Some(TooLong)
      invariant sends == Requests(got) && (cancelAt.Some? ==> |got| <= cancelAt.value)
      invariant Reading(p, cap, final, got, scanner.Pending())
      decreases |scanner.Pending()|
    {
      if cancelAt == Some(|sends|) {
        ScriptCanceled(p, cap, final, got, scanner.Pending());
        return sends + [ToError(Canceled)];
      }
      ghost var before := scanner.Pending();
      var event := reader.ReadEvent();
      ReadingStep(p, cap, final, got, before, event, scanner.Pending());
      if event.Failed? {
        ghost var edge :| Deliver(p, cap, final, edge) == (got, event.error);
        ScriptEnds(p, cap, final, edge, got, event.error, cancelAt);
        FarewellSends(sends, event.error);
        sends := sends + (if event.error == Canceled then [ToError(Canceled)] else []);
        return sends + [ToHandling(event)];
      }
      RequestsAppend(got, event.request);
      sends := sends + [ToHandling(event)];
      got := got + [event.request];
    }
  }
}
