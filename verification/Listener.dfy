/** The listening server's two channels: the goroutine that fills and closes them, and the `Accept` and
    `Close` calls that drain them. Any number of calls may be in progress; every schedule is a sequence of steps. */
module Listener {
  import opened Options
  import opened Json
  import opened Events
  import opened EventReader
  import Runs

  const HANDLING_CAPACITY: nat := 100
  const ERROR_CAPACITY: nat := 1

  /** A buffered channel. */
  datatype Chan<T> = Chan(buffer: seq<T>, closed: bool) {
    predicate CanSend(capacity: nat) {
      |buffer| < capacity
    }

    predicate CanReceive() {
      buffer != [] || closed
    }

    /** The received value, or `None` for the zero value of a closed channel. */
    function Received(): Option<T>
      requires CanReceive()
    {
      if buffer != [] then Some(buffer[0]) else None
    }

    function AfterReceive(): Chan<T> {
      if buffer != [] then this.(buffer := buffer[1..]) else this
    }

    function Send(x: T): Chan<T> {
      this.(buffer := buffer + [x])
    }
  }

  /** What one `Accept` call does with what it received: call the client back, or return an error. */
  datatype AcceptResult = CallBack(request: Request) | StreamError(error: ReadError) | NetClosed

  datatype CloseResult = ClosedNil | AlreadyClosed | CloseError(error: ReadError)

  function AcceptResultOf(r: Option<Received>): AcceptResult {
    match r
    case None => NetClosed
    case Some(Got(request)) => CallBack(request)
    case Some(Failed(e)) => StreamError(e)
  }

  function CloseResultOf(r: Option<ReadError>): CloseResult {
    match r
    case None => AlreadyClosed
    case Some(e) => if e == Canceled then ClosedNil else CloseError(e)
  }

  /** `script` holds the goroutine's sends and `sent` counts those done; `accepts` and `closes` record what
      calls returned, in the order of their receives; `closing` counts `Close` calls that have cancelled
      the context and not yet received. */
  datatype State = State(
    canceled: bool,
    script: seq<Send>,
    sent: nat,
    handling: Chan<Received>,
    errs: Chan<ReadError>,
    closing: nat,
    accepts: seq<AcceptResult>,
    closes: seq<CloseResult>)

  function Init(script: seq<Send>): State {
    State(false, script, 0, Chan([], false), Chan([], false), 0, [], [])
  }

  datatype Step =
    | SendNext       // the goroutine performs its next send
    | CloseErrors    // deferred close(errCH), which runs first
    | CloseHandling  // deferred close(handlingCH)
    | Accept         // some Accept call receives
    | Cancel         // some Close call cancels the context
    | TakeVerdict    // some Close call receives

  predicate Enabled(s: State, step: Step) {
    match step
    case SendNext =>
      && s.sent < |s.script|
      && (match s.script[s.sent]
          case ToHandling(_) => s.handling.CanSend(HANDLING_CAPACITY)
          case ToError(_) => s.canceled && s.errs.CanSend(ERROR_CAPACITY))
    case CloseErrors => s.sent == |s.script| && !s.errs.closed
    case CloseHandling => s.errs.closed && !s.handling.closed
    case Accept => s.handling.CanReceive()
    case Cancel => true
    case TakeVerdict => s.closing > 0 && s.errs.CanReceive()
  }

  function Apply(s: State, step: Step): State
    requires Enabled(s, step)
  {
    match step
    case SendNext =>
      (match s.script[s.sent]
       case ToHandling(r) => s.(sent := s.sent + 1, handling := s.handling.Send(r))
       case ToError(e) => s.(sent := s.sent + 1, errs := s.errs.Send(e)))
    case CloseErrors => s.(errs := s.errs.(closed := true))
    case CloseHandling => s.(handling := s.handling.(closed := true))
    case Accept =>
      s.(handling := s.handling.AfterReceive(), accepts := s.accepts + [AcceptResultOf(s.handling.Received())])
    case Cancel => s.(canceled := true, closing := s.closing + 1)
    case TakeVerdict =>
      s.(closing := s.closing - 1, errs := s.errs.AfterReceive(),
         closes := s.closes + [CloseResultOf(s.errs.Received())])
  }

  /** A step that is not enabled when its turn comes is passed over. */
  function Next(s: State, step: Step): State {
    if Enabled(s, step) then Apply(s, step) else s
  }

  /** The state after a schedule. */
  function Run(s: State, steps: seq<Step>): State {
    Runs.Run(Next, s, steps)
  }

  // ------------------------------------------------------- what the channels carry

  function HandledBy(send: Send): seq<Received> {
    match send
    case ToHandling(r) => [r]
    case ToError(_) => []
  }

  function ErrorsBy(send: Send): seq<ReadError> {
    match send
    case ToHandling(_) => []
    case ToError(e) => [e]
  }

  /** What goes over the request channel. */
  function Handled(sends: seq<Send>): seq<Received> {
    if sends == [] then [] else Handled(sends[..|sends| - 1]) + HandledBy(sends[|sends| - 1])
  }

  /** What goes over the error channel. */
  function Errors(sends: seq<Send>): seq<ReadError> {
    if sends == [] then [] else Errors(sends[..|sends| - 1]) + ErrorsBy(sends[|sends| - 1])
  }

  lemma OneMore(sends: seq<Send>, n: nat)
    requires n < |sends|
    ensures Handled(sends[..n + 1]) == Handled(sends[..n]) + HandledBy(sends[n])
    ensures Errors(sends[..n + 1]) == Errors(sends[..n]) + ErrorsBy(sends[n])
  {
    assert sends[..n + 1][..n] == sends[..n];
  }

  /** A channel that carried `carried` and was received from `taken` times: the rest is buffered, and only a
      closed channel is received from more often than it carried values. */
  ghost predicate Drained<T>(ch: Chan<T>, carried: seq<T>, taken: nat) {
    if taken <= |carried| then ch.buffer == carried[taken..] else ch.buffer == [] && ch.closed
  }

  function At<T>(carried: seq<T>, i: nat): Option<T> {
    if i < |carried| then Some(carried[i]) else None
  }

  ghost predicate Results(s: State, handled: seq<Received>, errors: seq<ReadError>) {
    && (forall i :: 0 <= i < |s.accepts| ==> s.accepts[i] == AcceptResultOf(At(handled, i)))
    && (forall i :: 0 <= i < |s.closes| ==> s.closes[i] == CloseResultOf(At(errors, i)))
  }

  /** The channels are closed only after the last send, the error channel first. */
  ghost predicate CloseOrder(s: State) {
    && (s.handling.closed ==> s.errs.closed)
    && (s.errs.closed ==> s.sent == |s.script|)
  }

  /** The invariant in terms of what the channels have carried so far. */
  ghost predicate Carried(s: State, handled: seq<Received>, errors: seq<ReadError>) {
    && s.sent <= |s.script|
    && CloseOrder(s)
    && |s.handling.buffer| <= HANDLING_CAPACITY && |s.errs.buffer| <= ERROR_CAPACITY
    && Drained(s.handling, handled, |s.accepts|)
    && Drained(s.errs, errors, |s.closes|)
    && Results(s, handled, errors)
    && (errors != [] ==> s.canceled)
  }

  ghost predicate Inv(s: State) {
    s.sent <= |s.script| && Carried(s, Handled(s.script[..s.sent]), Errors(s.script[..s.sent]))
  }

  lemma SendDrains<T>(ch: Chan<T>, carried: seq<T>, taken: nat, xs: seq<T>)
    requires Drained(ch, carried, taken) && !ch.closed && |xs| <= 1
    ensures taken <= |carried|
    ensures Drained(if xs == [] then ch else ch.Send(xs[0]), carried + xs, taken)
    ensures forall i :: 0 <= i < taken ==> At(carried + xs, i) == At(carried, i)
  {
    if |xs| == 1 {
      assert (carried + xs)[taken..] == carried[taken..] + [xs[0]];
    } else {
      assert carried + xs == carried;
    }
  }

  lemma HandOverCarries(s: State, handled: seq<Received>, errors: seq<ReadError>, r: Received)
    requires Carried(s, handled, errors) && Enabled(s, SendNext) && s.script[s.sent] == ToHandling(r)
    ensures Carried(Apply(s, SendNext), handled + [r], errors)
  {
    SendDrains(s.handling, handled, |s.accepts|, [r]);
  }

  lemma ReasonCarries(s: State, handled: seq<Received>, errors: seq<ReadError>, e: ReadError)
    requires Carried(s, handled, errors) && Enabled(s, SendNext) && s.script[s.sent] == ToError(e)
    ensures Carried(Apply(s, SendNext), handled, errors + [e])
  {
    SendDrains(s.errs, errors, |s.closes|, [e]);
  }

  lemma SendKeepsInv(s: State)
    requires Inv(s) && Enabled(s, SendNext)
    ensures Inv(Apply(s, SendNext))
  {
    hide Handled, Errors, Carried;
    OneMore(s.script, s.sent);
    var handled, errors := Handled(s.script[..s.sent]), Errors(s.script[..s.sent]);
    assert handled + [] == handled && errors + [] == errors;
    match s.script[s.sent]
    case ToHandling(r) => HandOverCarries(s, handled, errors, r);
    case ToError(e) => ReasonCarries(s, handled, errors, e);
  }

  lemma StepKeepsInv(s: State, step: Step)
    requires Inv(s) && Enabled(s, step)
    ensures Inv(Apply(s, step))
  {
    hide Handled, Errors;
    if step == SendNext {
      SendKeepsInv(s);
    }
  }

  lemma {:induction false} RunKeepsInv(s: State, steps: seq<Step>)
    requires Inv(s)
    ensures Inv(Run(s, steps)) && Run(s, steps).script == s.script
    decreases |steps|
  {
    if steps != [] {
      if Enabled(s, steps[0]) {
        StepKeepsInv(s, steps[0]);
        RunKeepsInv(Apply(s, steps[0]), steps[1..]);
      } else {
        RunKeepsInv(s, steps[1..]);
      }
    }
  }

  // ------------------------------------------------------- over whole runs

  lemma {:induction false} SentPrefix(sends: seq<Send>, n: nat)
    requires n <= |sends|
    ensures Handled(sends[..n]) <= Handled(sends) && Errors(sends[..n]) <= Errors(sends)
    decreases |sends| - n
  {
    if n == |sends| {
      assert sends[..n] == sends;
    } else {
      hide Handled, Errors;
      OneMore(sends, n);
      SentPrefix(sends, n + 1);
    }
  }

  lemma InitInv(script: seq<Send>)
    ensures Inv(Init(script))
  {
    assert script[..0] == [];
  }

  /** However calls, sends and closes interleave, the i-th `Accept` to receive gets the i-th value the
      goroutine sends, and `net.ErrClosed` for ever once those are used up; `Close` calls likewise get the
      goroutine's reasons, and "already closed" after them. */
  lemma CallsInOrder(script: seq<Send>, steps: seq<Step>)
    ensures var s := Run(Init(script), steps);
            && (forall i :: 0 <= i < |s.accepts| ==> s.accepts[i] == AcceptResultOf(At(Handled(script), i)))
            && (forall i :: 0 <= i < |s.closes| ==> s.closes[i] == CloseResultOf(At(Errors(script), i)))
  {
    hide Handled, Errors, Run;
    InitInv(script);
    RunKeepsInv(Init(script), steps);
    var s := Run(Init(script), steps);
    SentPrefix(script, s.sent);
    assert s.sent == |script| ==> script[..s.sent] == script;
    SameAnswers(s.handling, Handled(script[..s.sent]), Handled(script), |s.accepts|);
    SameAnswers(s.errs, Errors(script[..s.sent]), Errors(script), |s.closes|);
  }

  /** What was received so far is what the whole script has to offer. */
  lemma SameAnswers<T>(ch: Chan<T>, sofar: seq<T>, all: seq<T>, taken: nat)
    requires Drained(ch, sofar, taken) && sofar <= all && (ch.closed ==> sofar == all)
    ensures forall i :: 0 <= i < taken ==> At(sofar, i) == At(all, i)
  {
  }

  lemma {:induction false} RequestsCarried(rs: seq<Request>)
    ensures Handled(Requests(rs)) == seq(|rs|, i requires 0 <= i < |rs| => Got(rs[i])) && Errors(Requests(rs)) == []
  {
    if rs != [] {
      var n := |rs| - 1;
      RequestsCarried(rs[..n]);
      RequestsAppend(rs[..n], rs[n]);
      assert rs == rs[..n] + [rs[n]];
      assert Requests(rs)[..n] == Requests(rs[..n]);
    }
  }

  lemma TwoMore(sends: seq<Send>, x: Send, y: Send)
    ensures Handled(sends + [x]) == Handled(sends) + HandledBy(x) && Errors(sends + [x]) == Errors(sends) + ErrorsBy(x)
    ensures Handled(sends + [x, y]) == Handled(sends) + HandledBy(x) + HandledBy(y)
    ensures Errors(sends + [x, y]) == Errors(sends) + ErrorsBy(x) + ErrorsBy(y)
  {
    hide Handled, Errors;
    var all := sends + [x, y];
    OneMore(all, |sends|);
    OneMore(all, |sends| + 1);
    assert all[..|sends|] == sends && all[..|sends| + 1] == sends + [x] && all[..|sends| + 2] == all;
  }

  /** The goroutine sends the requests it read in order, then at most one error; over the error channel
      goes at most one reason, and only that the context was cancelled. */
  lemma ScriptCarries(rs: seq<Request>, e: ReadError, cancelAt: Option<nat>, script: seq<Send>)
    requires script == Sent(rs, e, cancelAt)
    ensures var m := if CutShort(rs, cancelAt) then cancelAt.value else |rs|;
            && |Handled(script)| == (if CutShort(rs, cancelAt) then m else m + 1)
            && (forall i :: 0 <= i < m ==> Handled(script)[i] == Got(rs[i]))
            && (|Handled(script)| == m + 1 ==> Handled(script)[m] == Received.Failed(e) && m == |rs|)
    ensures Errors(script)
         == if exists i :: 0 <= i < |script| && script[i] == ToError(Canceled) then [Canceled] else []
  {
    hide Handled, Errors;
    if !CutShort(rs, cancelAt) {
      RequestsCarried(rs);
      if e == Canceled {
        TwoMore(Requests(rs), ToError(Canceled), ToHandling(Received.Failed(e)));
        assert script == Requests(rs) + [ToError(Canceled), ToHandling(Received.Failed(e))];
        assert script[|rs|] == ToError(Canceled);
      } else {
        TwoMore(Requests(rs), ToHandling(Received.Failed(e)), ToHandling(Received.Failed(e)));
        assert script == Requests(rs) + [ToHandling(Received.Failed(e))];
      }
    } else {
      RequestsCarried(rs[..cancelAt.value]);
      TwoMore(Requests(rs[..cancelAt.value]), ToError(Canceled), ToError(Canceled));
      assert script[cancelAt.value] == ToError(Canceled);
    }
  }

  /** What `Accept` calls get, whatever the schedule: the requests read, in stream order, then the error
      that ended the reading if the goroutine got to send it, then `net.ErrClosed` for ever. */
  lemma AcceptSequence(rs: seq<Request>, e: ReadError, cancelAt: Option<nat>, script: seq<Send>, steps: seq<Step>,
      i: nat)
    requires script == Sent(rs, e, cancelAt)
    requires i < |Run(Init(script), steps).accepts|
    ensures var result, whole := Run(Init(script), steps).accepts[i], !CutShort(rs, cancelAt);
            var m := if whole then |rs| else cancelAt.value;
            if i < m then result == CallBack(rs[i])
            else if i == m && whole then result == StreamError(e)
            else result == NetClosed
  {
    hide Handled, Errors, Run, Sent;
    CallsInOrder(script, steps);
    ScriptCarries(rs, e, cancelAt, script);
  }

  /** At most one `Close` ever returns nil: the first, and only if the goroutine saw the cancellation. */
  lemma OneCloseSucceeds(rs: seq<Request>, e: ReadError, cancelAt: Option<nat>, script: seq<Send>, steps: seq<Step>)
    requires script == Sent(rs, e, cancelAt)
    ensures var s := Run(Init(script), steps);
            forall i :: 0 <= i < |s.closes| ==>
              s.closes[i] == if i == 0 && (exists j :: 0 <= j < |script| && script[j] == ToError(Canceled)) then
                  ClosedNil else AlreadyClosed
  {
    hide Handled, Errors, Run, Sent;
    CallsInOrder(script, steps);
    ScriptCarries(rs, e, cancelAt, script);
  }

  /** What the caller of a first `Close` can foresee. Once an `Accept` has returned `net.ErrClosed`, it returns
      nil exactly if no `Accept` returned a stream error other than a cancellation. */
  lemma FirstCloseForeseen(rs: seq<Request>, e: ReadError, cancelAt: Option<nat>, script: seq<Send>, steps: seq<Step>)
    requires script == Sent(rs, e, cancelAt)
    requires var s := Run(Init(script), steps); NetClosed in s.accepts && s.closes != []
    ensures var s := Run(Init(script), steps);
            s.closes[0] == ClosedNil <==>
              forall i :: 0 <= i < |s.accepts| && s.accepts[i].StreamError? ==> s.accepts[i].error == Canceled
  {
    hide Handled, Errors, Run, Sent;
    var s := Run(Init(script), steps);
    CallsInOrder(script, steps);
    ScriptCarries(rs, e, cancelAt, script);
    OneCloseSucceeds(rs, e, cancelAt, script, steps);
    CancelSent(rs, e, cancelAt, script);
    var i: nat :| i < |s.accepts| && s.accepts[i] == NetClosed;
    var m := |Handled(script)|;
    assert i >= m;
    forall j | 0 <= j < |s.accepts| && s.accepts[j].StreamError?
      ensures !CutShort(rs, cancelAt) && s.accepts[j].error == e
    {
      assert j < m;
    }
    if !CutShort(rs, cancelAt) {
      assert s.accepts[|rs|] == StreamError(e);
    }
  }

  /** The goroutine reports a cancellation unless the stream ended in some other way first. */
  lemma CancelSent(rs: seq<Request>, e: ReadError, cancelAt: Option<nat>, script: seq<Send>)
    requires script == Sent(rs, e, cancelAt)
    ensures (exists j :: 0 <= j < |script| && script[j] == ToError(Canceled))
        <==> (!CutShort(rs, cancelAt) ==> e == Canceled)
  {
    if !CutShort(rs, cancelAt) {
      if e == Canceled {
        assert script[|rs|] == ToError(Canceled);
      }
    } else {
      assert script[cancelAt.value] == ToError(Canceled);
    }
  }

  /** A first `Close` does fail: the stream ended by itself and the goroutine was gone before the call. */
  lemma FirstCloseCanFail(e: ReadError) returns (script: seq<Send>, steps: seq<Step>)
    requires e != Canceled
    ensures script == Sent([], e, None) && Run(Init(script), steps).closes == [AlreadyClosed]
  {
    script := [ToHandling(Received.Failed(e))];
    assert script == Requests([]) + Farewell(e);
    var s0 := Init(script);
    var s1, a := Apply(s0, SendNext), [SendNext];
    Runs.RunAppend(Next, s0, [], SendNext);
    assert [] + [SendNext] == a;
    var s2, b := Apply(s1, CloseErrors), a + [CloseErrors];
    Runs.RunAppend(Next, s0, a, CloseErrors);
    var s3, c := Apply(s2, Cancel), b + [Cancel];
    Runs.RunAppend(Next, s0, b, Cancel);
    Runs.RunAppend(Next, s0, c, TakeVerdict);
    steps := c + [TakeVerdict];
  }

  // ------------------------------------------------------- progress

  /** The goroutine's remaining work, counting what is still buffered for `Accept`. */
  function Remaining(s: State): nat
    requires s.sent <= |s.script|
  {
    2 * (|s.script| - s.sent) + |s.handling.buffer|
    + (if s.errs.closed then 0 else 1) + (if s.handling.closed then 0 else 1)
  }

  predicate Working(s: State, step: Step) {
    step == SendNext || step == CloseErrors || step == CloseHandling || (step == Accept && s.handling.buffer != [])
  }

  /** Sending the reason for closing never blocks. */
  lemma ReasonNeverBlocks(s: State, rs: seq<Request>, e: ReadError, cancelAt: Option<nat>)
    requires Inv(s) && s.script == Sent(rs, e, cancelAt)
    requires s.sent < |s.script| && s.script[s.sent].ToError? && s.canceled
    ensures Enabled(s, SendNext)
  {
    hide Handled, Errors;
    ScriptCarries(rs, e, cancelAt, s.script);
    OneMore(s.script, s.sent);
    SentPrefix(s.script, s.sent + 1);
  }

  /** After a `Close` call cancelled the context, as long as `Accept` keeps draining, the goroutine is
      never stuck before both channels are closed, and every step brings it closer; then every waiting
      `Close` gets its verdict. */
  lemma ClosingProgress(s: State, rs: seq<Request>, e: ReadError, cancelAt: Option<nat>)
    requires Inv(s) && s.script == Sent(rs, e, cancelAt) && s.canceled
    ensures !s.handling.closed ==> exists step :: Working(s, step) && Enabled(s, step)
    ensures forall step :: Working(s, step) && Enabled(s, step) ==> Remaining(Apply(s, step)) < Remaining(s)
    ensures s.errs.closed && s.closing > 0 ==> Enabled(s, TakeVerdict)
  {
    hide Handled, Errors, Sent;
    if s.sent < |s.script| {
      if s.script[s.sent].ToError? {
        ReasonNeverBlocks(s, rs, e, cancelAt);
        assert Working(s, SendNext);
      } else if s.handling.CanSend(HANDLING_CAPACITY) {
        assert Working(s, SendNext) && Enabled(s, SendNext);
      } else {
        assert Working(s, Accept) && Enabled(s, Accept);
      }
    } else if !s.errs.closed {
      assert Working(s, CloseErrors) && Enabled(s, CloseErrors);
    } else if !s.handling.closed {
      assert Working(s, CloseHandling) && Enabled(s, CloseHandling);
    }
  }

  /** No step of the goroutine is possible. */
  predicate Stuck(s: State) {
    !Enabled(s, SendNext) && !Enabled(s, CloseErrors) && !Enabled(s, CloseHandling)
  }

  /** After a cancellation the goroutine is stuck, short of having closed both channels, exactly when it has
      something to hand over and the request channel is full. */
  lemma StuckIffFull(s: State, rs: seq<Request>, e: ReadError, cancelAt: Option<nat>)
    requires Inv(s) && s.script == Sent(rs, e, cancelAt) && s.canceled && !s.handling.closed
    ensures Stuck(s) <==>
              s.sent < |s.script| && s.script[s.sent].ToHandling? && |s.handling.buffer| == 100
  {
    hide Handled, Errors, Sent;
    if s.sent < |s.script| && s.script[s.sent].ToError? {
      ReasonNeverBlocks(s, rs, e, cancelAt);
    }
  }

  /** The request channel is never closed while more values than it holds are left for `Accept` to take. */
  lemma CloseNeedsAccepts(s: State)
    requires Inv(s) && s.handling.closed
    ensures |Handled(s.script)| <= |s.accepts| + HANDLING_CAPACITY
  {
    hide Handled, Errors;
    assert s.script[..s.sent] == s.script;
  }

  /** In the caller's terms: a cancelled goroutine comes to rest with both channels closed exactly if `Accept`
      was called for all but a channel's worth of what there was to accept. */
  lemma RestsClosedIffAccepted(s: State, rs: seq<Request>, e: ReadError, cancelAt: Option<nat>)
    requires Inv(s) && s.script == Sent(rs, e, cancelAt) && s.canceled && Stuck(s)
    ensures s.handling.closed <==> |Handled(s.script)| <= |s.accepts| + 100
  {
    if s.handling.closed {
      CloseNeedsAccepts(s);
    } else {
      StuckIffFull(s, rs, e, cancelAt);
      hide Handled, Errors, Sent;
      OneMore(s.script, s.sent);
      SentPrefix(s.script, s.sent + 1);
    }
  }

  lemma {:induction false} Filling(script: seq<Send>, k: nat)
    requires k <= |script| && k <= HANDLING_CAPACITY && forall i :: 0 <= i < k ==> script[i].ToHandling?
    ensures |Handled(script[..k])| == k && Errors(script[..k]) == []
    ensures Run(Init(script), seq(k, _ => SendNext))
         == Init(script).(sent := k, handling := Chan(Handled(script[..k]), false))
  {
    if k == 0 {
      assert script[..0] == [] && seq(k, _ => SendNext) == [];
    } else {
      Filling(script, k - 1);
      hide Handled, Errors, Runs.Run;
      OneMore(script, k - 1);
      Runs.RunAppend(Next, Init(script), seq(k - 1, _ => SendNext), SendNext);
      assert seq(k, _ => SendNext) == seq(k - 1, _ => SendNext) + [SendNext];
    }
  }

  /** More than a channel's worth to accept: the first channel's worth of sends are hand-overs, and the next
      is one too, except that word of a cancellation may come before it. */
  lemma ManyHandled(rs: seq<Request>, e: ReadError, cancelAt: Option<nat>, script: seq<Send>)
    requires script == Sent(rs, e, cancelAt) && |Handled(script)| > HANDLING_CAPACITY
    ensures |script| > HANDLING_CAPACITY && forall i :: 0 <= i < HANDLING_CAPACITY ==> script[i].ToHandling?
    ensures var k := HANDLING_CAPACITY;
            script[k].ToHandling? || (script[k] == ToError(Canceled) && k + 1 < |script| && script[k + 1].ToHandling?)
  {
    hide Handled, Errors;
    ScriptCarries(rs, e, cancelAt, script);
  }

  /** Full channel, then a cancellation: the goroutine gets no further than its next hand-over. */
  lemma FullThenCancelled(script: seq<Send>, k: nat, s: State)
    requires k == HANDLING_CAPACITY && k < |script| && |Handled(script[..k])| == k
    requires script[k].ToHandling? || (script[k] == ToError(Canceled) && k + 1 < |script| && script[k + 1].ToHandling?)
    requires s == Init(script).(sent := k, handling := Chan(Handled(script[..k]), false), canceled := true,
        closing := 1)
    ensures var t := if Enabled(s, SendNext) then Apply(s, SendNext) else s;
            t.canceled && Stuck(t) && !t.handling.closed
  {
    hide Handled, Errors;
  }

  lemma StaysOpen(script: seq<Send>, steps: seq<Step>)
    requires |Handled(script)| > HANDLING_CAPACITY && Run(Init(script), steps).accepts == []
    ensures !Run(Init(script), steps).handling.closed
  {
    hide Handled, Errors, Run;
    InitInv(script);
    RunKeepsInv(Init(script), steps);
    var s := Run(Init(script), steps);
    if s.handling.closed {
      CloseNeedsAccepts(s);
    }
  }

  /** So with more than a channel's worth to accept and nobody accepting, cancelling does not close the
      channels: the goroutine can get stuck, and whatever happens the request channel is not closed. */
  lemma UnacceptedBlocks(rs: seq<Request>, e: ReadError, cancelAt: Option<nat>, script: seq<Send>)
    returns (steps: seq<Step>)
    requires script == Sent(rs, e, cancelAt) && |Handled(script)| > 100
    ensures Step.Accept !in steps
    ensures var s := Run(Init(script), steps); s.canceled && Stuck(s) && !s.handling.closed
    ensures forall others :: Run(Init(script), others).accepts == [] ==> !Run(Init(script), others).handling.closed
  {
    hide Handled, Errors, Runs.Run, Sent, Stuck;
    var k := HANDLING_CAPACITY;
    ManyHandled(rs, e, cancelAt, script);
    Filling(script, k);
    var fill := seq(k, _ => SendNext);
    Runs.RunAppend(Next, Init(script), fill, Cancel);
    FullThenCancelled(script, k, Run(Init(script), fill + [Cancel]));
    Runs.RunAppend(Next, Init(script), fill + [Cancel], SendNext);
    steps := fill + [Cancel] + [SendNext];
    forall others | Run(Init(script), others).accepts == []
      ensures !Run(Init(script), others).handling.closed
    {
      StaysOpen(script, others);
    }
  }

  // ------------------------------------------------------- the listener object

  /** `RelayListener`, with the history the theorems speak of. */
  class RelayListener {
    var reqHandlingCh: Chan<Received>
    var reqErrCh: Chan<ReadError>
    var canceled: bool
    ghost var history: State

    ghost predicate Valid()
      reads this
    {
      Inv(history) && history.handling == reqHandlingCh && history.errs == reqErrCh && history.canceled == canceled
    }

    constructor (ghost script: seq<Send>)
      ensures Valid() && history == Init(script)
    {
      reqHandlingCh, reqErrCh, canceled := Chan([], false), Chan([], false), false;
      history := Init(script);
      new;
      InitInv(script);
    }

    /** `Accept` up to the callback it makes; `None` while it waits, with nothing changed. */
    method Accept() returns (r: Option<AcceptResult>)
      requires Valid()
      modifies this
      ensures Valid()
      ensures if Enabled(old(history), Step.Accept) then
                history == Apply(old(history), Step.Accept) && r == Some(history.accepts[|history.accepts| - 1])
              else history == old(history) && r == None
    {
      if !reqHandlingCh.CanReceive() {
        return None;
      }
      StepKeepsInv(history, Step.Accept);
      history := Apply(history, Step.Accept);
      var req := reqHandlingCh.Received();
      reqHandlingCh := reqHandlingCh.AfterReceive();
      match req
      case Some(Failed(e)) => return Some(StreamError(e));
      case None => return Some(NetClosed);
      case Some(Got(request)) => return Some(CallBack(request));
    }

    /** `Close`; `None` while it waits, having cancelled the context. */
    method Close() returns (r: Option<CloseResult>)
      requires Valid()
      modifies this
      ensures Valid()
      ensures var cancelled := Apply(old(history), Cancel);
              if Enabled(cancelled, TakeVerdict) then
                history == Apply(cancelled, TakeVerdict) && r == Some(history.closes[|history.closes| - 1])
              else history == cancelled && r == None
    {
      StepKeepsInv(history, Cancel);
      history := Apply(history, Cancel);
      canceled := true;
      if !reqErrCh.CanReceive() {
        return None;
      }
      StepKeepsInv(history, TakeVerdict);
      history := Apply(history, TakeVerdict);
      var err := reqErrCh.Received();
      reqErrCh := reqErrCh.AfterReceive();
      if err == Some(Canceled) {
        return Some(ClosedNil);
      }
      if err == None {
        return Some(AlreadyClosed);
      }
      return Some(CloseError(err.value));
    }
  }
}
