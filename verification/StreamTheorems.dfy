/** What a server receives of the events written to it: everything that fits, in order, under every
    chunking of the stream and wherever the stream is cut. */
module StreamTheorems {
  import opened Options
  import opened Json
  import opened JsonTheorems
  import opened Events
  import opened EventTheorems
  import opened EventReader

  /** The size of the reader's buffer. */
  const MAX_BUFFER_SIZE: nat := 65536

  /** The bytes of a stream of events. */
  function Stream(rs: seq<Request>): string {
    if rs == [] then "" else Marshal(rs[0]) + Stream(rs[1..])
  }

  function Clean(rs: seq<Request>): (cs: seq<Request>)
    ensures |cs| == |rs|
    ensures forall i :: 0 <= i < |rs| ==> cs[i] == rs[i].Clean()
  {
    seq(|rs|, i requires 0 <= i < |rs| => rs[i].Clean())
  }

  predicate Fits(r: Request, cap: nat) {
    |Marshal(r)| <= cap
  }

  /** How many of `rs` come before the first whose event does not fit. */
  function Fitting(rs: seq<Request>, cap: nat): (n: nat)
    ensures n <= |rs|
  {
    if rs == [] || !Fits(rs[0], cap) then 0 else 1 + Fitting(rs[1..], cap)
  }

  lemma {:induction false} FittingFirst(rs: seq<Request>, cap: nat)
    ensures forall i :: 0 <= i < Fitting(rs, cap) ==> Fits(rs[i], cap)
    ensures Fitting(rs, cap) < |rs| ==> !Fits(rs[Fitting(rs, cap)], cap)
  {
    hide Fits;
    if rs != [] && Fits(rs[0], cap) {
      FittingFirst(rs[1..], cap);
      forall i | 0 <= i < Fitting(rs, cap)
        ensures Fits(rs[i], cap)
      {
        if i > 0 {
          assert rs[i] == rs[1..][i - 1];
        }
      }
    }
  }

  lemma StreamConcat(rs: seq<Request>, ts: seq<Request>)
    ensures Stream(rs + ts) == Stream(rs) + Stream(ts)
  {
    hide Marshal, Unmarshal;
    if rs == [] {
      assert rs + ts == ts;
    } else {
      assert (rs + ts)[1..] == rs[1..] + ts && (rs + ts)[0] == rs[0];
      StreamConcat(rs[1..], ts);
    }
  }

  // ------------------------------------------------------- whole events

  lemma MarshalShape(r: Request)
    ensures Marshal(r) == Lines(r) + BLANK && |BLANK| == 2
  {
  }

  lemma NextWhole(r: Request, t: string, cap: nat, final: StreamEnd, edge: bool)
    ensures NextEvent(Marshal(r) + t, cap, final, edge)
         == if Fits(r, cap) then (Got(r.Clean()), t) else (Received.Failed(TooLong), Marshal(r) + t)
  {
    hide Marshal, Lines, Unmarshal, Request.Clean, Index;
    FirstBlank(r, t);
    UnmarshalWhole(r, "");
    MarshalShape(r);
    var s, n := Marshal(r) + t, |Lines(r)|;
    assert s[..n] == Lines(r) == Lines(r) + "";
    assert s[n + 2..] == t;
  }

  lemma DeliverFirst(r: Request, t: string, cap: nat, final: StreamEnd, edge: bool)
    requires Fits(r, cap)
    ensures Deliver(Marshal(r) + t, cap, final, edge).0 == [r.Clean()] + Deliver(t, cap, final, edge).0
    ensures Deliver(Marshal(r) + t, cap, final, edge).1 == Deliver(t, cap, final, edge).1
  {
    hide Marshal, Deliver, NextEvent, Request.Clean;
    NextWhole(r, t, cap, final, edge);
    DeliverGot(Marshal(r) + t, cap, final, edge);
  }

  lemma {:induction false} DeliverWhole(rs: seq<Request>, t: string, cap: nat, final: StreamEnd, edge: bool)
    requires forall i :: 0 <= i < |rs| ==> Fits(rs[i], cap)
    ensures Deliver(Stream(rs) + t, cap, final, edge).0 == Clean(rs) + Deliver(t, cap, final, edge).0
    ensures Deliver(Stream(rs) + t, cap, final, edge).1 == Deliver(t, cap, final, edge).1
  {
    hide Marshal, Deliver, NextEvent, Request.Clean;
    if rs == [] {
      assert Stream(rs) + t == t;
    } else {
      var rest := Stream(rs[1..]) + t;
      assert Stream(rs) + t == Marshal(rs[0]) + rest;
      DeliverFirst(rs[0], rest, cap, final, edge);
      DeliverWhole(rs[1..], t, cap, final, edge);
      assert Clean(rs) == [rs[0].Clean()] + Clean(rs[1..]);
    }
  }

  lemma DeliverTooBig(r: Request, t: string, cap: nat, final: StreamEnd, edge: bool)
    requires !Fits(r, cap)
    ensures Deliver(Marshal(r) + t, cap, final, edge) == ([], TooLong)
  {
    hide Marshal, Unmarshal;
    NextWhole(r, t, cap, final, edge);
  }

  lemma DeliverNothing(cap: nat, final: StreamEnd, edge: bool)
    ensures Deliver("", cap, final, edge) == ([], final)
  {
    assert Index("", BLANK).None?;
  }

  /** A completely written stream: every request before the first oversized event is delivered, in
      order; then the reading ends with the connection, or with an error at that event. */
  lemma StreamRoundTrip(rs: seq<Request>, cap: nat, final: StreamEnd, edge: bool)
    ensures Deliver(Stream(rs), cap, final, edge)
         == (Clean(rs[..Fitting(rs, cap)]), if Fitting(rs, cap) == |rs| then final else TooLong)
  {
    hide Fits, Marshal, Deliver, NextEvent;
    var n := Fitting(rs, cap);
    FittingFirst(rs, cap);
    var t := Stream(rs[n..]);
    assert rs == rs[..n] + rs[n..];
    StreamConcat(rs[..n], rs[n..]);
    DeliverWhole(rs[..n], t, cap, final, edge);
    if n == |rs| {
      DeliverNothing(cap, final, edge);
      assert Clean(rs[..n]) + [] == Clean(rs[..n]);
    } else {
      DeliverTooBig(rs[n], Stream(rs[n..][1..]), cap, final, edge);
      assert t == Marshal(rs[n]) + Stream(rs[n..][1..]);
      assert Clean(rs[..n]) + [] == Clean(rs[..n]);
    }
  }

  /** The goroutine's own run on a completely written stream that ends properly: exactly the requests, then end
      of file, unless it is cancelled, and then as many as it read before. */
  lemma GoroutineRoundTrip(rs: seq<Request>, cancelAt: Option<nat>, sends: seq<Send>)
    requires forall i :: 0 <= i < |rs| ==> rs[i].IsValid() && Fits(rs[i], MAX_BUFFER_SIZE)
    requires Script(Stream(rs), MAX_BUFFER_SIZE, Eof, cancelAt, sends)
    ensures sends == if cancelAt.Some? && cancelAt.value <= |rs| then
                       Requests(rs[..cancelAt.value]) + [ToError(Canceled)]
                     else Requests(rs) + [ToHandling(Received.Failed(Eof))]
  {
    hide Fits, Marshal, Deliver, NextEvent, Stream, Request.IsValid, Request.Clean;
    var edge :| sends == Sent(Deliver(Stream(rs), MAX_BUFFER_SIZE, Eof, edge).0,
        Deliver(Stream(rs), MAX_BUFFER_SIZE, Eof, edge).1, cancelAt);
    StreamRoundTrip(rs, MAX_BUFFER_SIZE, Eof, edge);
    FittingFirst(rs, MAX_BUFFER_SIZE);
    assert Fitting(rs, MAX_BUFFER_SIZE) == |rs| && rs[..|rs|] == rs;
    forall i | 0 <= i < |rs|
      ensures rs[i].Clean() == rs[i]
    {
      RoundTrip(rs[i]);
    }
    assert Clean(rs) == rs;
    assert Farewell(Eof) == [ToHandling(Received.Failed(Eof))];
  }

  // ------------------------------------------------------- cut streams

  /** How many of `rs` have all their lines, if not all of the final blank line, in the first `k` bytes of their
      stream. */
  function Complete(rs: seq<Request>, k: nat): (n: nat)
    ensures n <= |rs|
  {
    if rs == [] || k < |Lines(rs[0])| then 0
    else if k < |Marshal(rs[0])| then 1
    else 1 + Complete(rs[1..], k - |Marshal(rs[0])|)
  }

  /** A cut event: delivered when only blank-line bytes are missing, and an error otherwise. */
  lemma DeliverCut(r: Request, k: nat, cap: nat, final: StreamEnd, edge: bool)
    requires 0 < k < |Marshal(r)|
    ensures k < |Lines(r)| ==> Deliver(Marshal(r)[..k], cap, final, edge).0 == []
    ensures k >= |Lines(r)| ==> Deliver(Marshal(r)[..k], cap, final, edge) in {([r.Clean()], final), ([], TooLong)}
    ensures k >= |Lines(r)| && Fits(r, cap) ==> Deliver(Marshal(r)[..k], cap, final, edge) == ([r.Clean()], final)
  {
    hide Print, Unmarshal;
    var p := Marshal(r)[..k];
    NoBlankInCut(r, k);
    FirstBlank(r, "");
    DeliverNothing(cap, final, edge);
    if k < |Lines(r)| {
      assert p == Lines(r)[..k];
      UnmarshalCut(r, k);
    } else {
      var tail := BLANK[..k - |Lines(r)|];
      assert p == Lines(r) + tail;
      assert tail == "" || tail == "\n";
      UnmarshalWhole(r, tail);
      if NextEvent(p, cap, final, edge).0.Got? {
        DeliverGot(p, cap, final, edge);
        assert [r.Clean()] + [] == [r.Clean()];
      }
    }
  }

  /** A cut behind the first event, given what the rest of the stream yields. */
  lemma CutBehindFirst(rs: seq<Request>, k: nat, m: nat, cap: nat, final: StreamEnd, edge: bool)
    requires rs != [] && Fits(rs[0], cap) && |Marshal(rs[0])| <= k <= |Stream(rs)| && m < |rs|
    requires Deliver(Stream(rs[1..])[..k - |Marshal(rs[0])|], cap, final, edge).0 == Clean(rs[1..][..m])
    ensures Deliver(Stream(rs)[..k], cap, final, edge).0 == Clean(rs[..m + 1])
  {
    hide Fits, Marshal, Deliver, Request.Clean;
    var rest := Stream(rs[1..])[..k - |Marshal(rs[0])|];
    assert Stream(rs)[..k] == Marshal(rs[0]) + rest;
    DeliverFirst(rs[0], rest, cap, final, edge);
    assert rs[..m + 1] == [rs[0]] + rs[1..][..m];
    assert Clean(rs[..m + 1]) == [rs[0].Clean()] + Clean(rs[1..][..m]);
  }

  lemma LinesInMarshal(r: Request)
    ensures 0 < |Lines(r)| && |Marshal(r)| == |Lines(r)| + 2
  {
    FirstBlank(r, "");
    LinesShape(r);
  }

  /** Cutting a stream of fitting events at any byte: exactly the requests whose lines survived are
      delivered, unaltered and in order. */
  lemma {:induction false} CutStream(rs: seq<Request>, k: nat, cap: nat, final: StreamEnd, edge: bool)
    requires k <= |Stream(rs)|
    requires forall i :: 0 <= i < |rs| ==> Fits(rs[i], cap)
    ensures Deliver(Stream(rs)[..k], cap, final, edge).0 == Clean(rs[..Complete(rs, k)])
  {
    hide Fits, Marshal, Lines, Deliver, Request.Clean;
    if rs != [] {
      LinesInMarshal(rs[0]);
    }
    if rs == [] || k == 0 {
      assert Stream(rs)[..k] == "";
      DeliverNothing(cap, final, edge);
    } else if k < |Marshal(rs[0])| {
      assert Stream(rs)[..k] == Marshal(rs[0])[..k];
      DeliverCut(rs[0], k, cap, final, edge);
      assert Clean(rs[..1]) == [rs[0].Clean()];
    } else {
      var n := |Marshal(rs[0])|;
      CutStream(rs[1..], k - n, cap, final, edge);
      CutBehindFirst(rs, k, Complete(rs[1..], k - n), cap, final, edge);
    }
  }

  /** A cut inside the first event yields that event's request or nothing. */
  lemma CutInFirst(rs: seq<Request>, k: nat, cap: nat, final: StreamEnd, edge: bool)
    requires rs != [] && 0 < k < |Marshal(rs[0])|
    ensures k <= |Stream(rs)| && Deliver(Stream(rs)[..k], cap, final, edge).0 <= Clean(rs)
  {
    hide Marshal, Lines, Deliver, Request.Clean;
    assert Stream(rs)[..k] == Marshal(rs[0])[..k];
    DeliverCut(rs[0], k, cap, final, edge);
    assert k < |Lines(rs[0])| || Deliver(Stream(rs)[..k], cap, final, edge).0 in {[], [rs[0].Clean()]};
  }

  /** A cut behind an oversized first event yields nothing. */
  lemma CutBehindTooBig(rs: seq<Request>, k: nat, cap: nat, final: StreamEnd, edge: bool)
    requires rs != [] && !Fits(rs[0], cap) && |Marshal(rs[0])| <= k <= |Stream(rs)|
    ensures Deliver(Stream(rs)[..k], cap, final, edge).0 == []
  {
    hide Fits, Marshal, Deliver;
    var rest := Stream(rs[1..])[..k - |Marshal(rs[0])|];
    assert Stream(rs)[..k] == Marshal(rs[0]) + rest;
    DeliverTooBig(rs[0], rest, cap, final, edge);
  }

  /** A cut behind a fitting first event, given a prefix for the rest of the stream. */
  lemma CutBehindFits(rs: seq<Request>, k: nat, cap: nat, final: StreamEnd, edge: bool)
    requires rs != [] && Fits(rs[0], cap) && |Marshal(rs[0])| <= k <= |Stream(rs)|
    requires Deliver(Stream(rs[1..])[..k - |Marshal(rs[0])|], cap, final, edge).0 <= Clean(rs[1..])
    ensures Deliver(Stream(rs)[..k], cap, final, edge).0 <= Clean(rs)
  {
    hide Fits, Marshal, Deliver, Request.Clean;
    var rest := Stream(rs[1..])[..k - |Marshal(rs[0])|];
    assert Stream(rs)[..k] == Marshal(rs[0]) + rest;
    DeliverFirst(rs[0], rest, cap, final, edge);
    assert Clean(rs) == [rs[0].Clean()] + Clean(rs[1..]);
  }

  /** Cutting any stream of events at any byte: what is delivered is a prefix of the original requests. */
  lemma {:induction false} CutStreamPrefix(rs: seq<Request>, k: nat, cap: nat, final: StreamEnd, edge: bool)
    requires k <= |Stream(rs)|
    ensures Deliver(Stream(rs)[..k], cap, final, edge).0 <= Clean(rs)
  {
    hide Fits, Marshal, Deliver, Clean;
    if rs == [] || k == 0 {
      assert Stream(rs)[..k] == "";
      DeliverNothing(cap, final, edge);
    } else if k < |Marshal(rs[0])| {
      CutInFirst(rs, k, cap, final, edge);
    } else if Fits(rs[0], cap) {
      CutStreamPrefix(rs[1..], k - |Marshal(rs[0])|, cap, final, edge);
      CutBehindFits(rs, k, cap, final, edge);
    } else {
      CutBehindTooBig(rs, k, cap, final, edge);
    }
  }

  // ------------------------------------------------------- the size threshold

  /** A request of at most 10911 bytes always fits, whatever its bytes are. */
  lemma SmallRequestFits(r: Request)
    requires |r.data| + |r.clientId| + |r.serverId| <= 10911
    ensures Fits(r, MAX_BUFFER_SIZE)
  {
    EventLength(r);
  }

  lemma {:induction false} EscapeControls(s: string)
    requires forall i :: 0 <= i < |s| ==> s[i] == '\U{1}'
    ensures |Escape(s)| == 6 * |s|
  {
    if s != "" {
      EscapeControls(s[1..]);
      assert s[..1] == "\U{1}";
    }
  }

  /** That bound is tight: there is a request of 10912 bytes that does not fit and is never delivered. */
  lemma BoundIsTight(cap: nat, final: StreamEnd, edge: bool)
    ensures var r := Request(seq(10912, _ => '\U{1}'), "", "");
            |r.data| + |r.clientId| + |r.serverId| == 10912 && !Fits(r, MAX_BUFFER_SIZE)
            && Deliver(Stream([r]), MAX_BUFFER_SIZE, final, edge) == ([], TooLong)
  {
    var r := Request(seq(10912, _ => '\U{1}'), "", "");
    EscapeControls(r.data);
    EventLength(r);
    StreamRoundTrip([r], MAX_BUFFER_SIZE, final, edge);
  }
}
