/** The glued tunnel: two connections whose ends at the relay were taken over after an HTTP exchange, a copy
    loop in each direction, and a buffered reader at every receiving end that may have read ahead. */
module Tunnel {
  import opened Sequences
  import Runs

  /** A copy loop, and after it the two deferred closes, the server's connection first. */
  datatype LoopPc = Copying | CloseServer | CloseClient | Finished

  /** One direction, from the writing endpoint through the relay to the reading endpoint. `wrote` is
      everything the endpoint wrote after its handshake and `read` everything the other end's application
      got. `request` is what preceded those bytes on the way in, and `response` what the relay sends before
      any of them on the way out. `lostIn` and `lostOut` say that bytes on either side of the relay have
      been thrown away. */
  datatype Flow = Flow(
    wrote: string, ended: bool,
    request: string, netIn: string, bufIn: string, hijacked: bool, lostIn: bool,
    loop: LoopPc, hand: string,
    response: string, netOut: string, bufOut: string, parsed: bool, lostOut: bool,
    read: string)

  /** `up` runs from client to server. The closed flags are the relay's own ends. A write of the relay blocks
      while a connection has `window` bytes on their way that its endpoint has not taken. */
  datatype Tunnel = Tunnel(up: Flow, down: Flow, clientClosed: bool, serverClosed: bool, window: nat) {
    function Get(isUp: bool): Flow {
      if isUp then up else down
    }

    function Set(isUp: bool, f: Flow): Tunnel {
      if isUp then this.(up := f) else this.(down := f)
    }

    /** The connection this direction reads from, and the one it writes to. */
    predicate SourceClosed(isUp: bool) {
      if isUp then clientClosed else serverClosed
    }

    predicate TargetClosed(isUp: bool) {
      SourceClosed(!isUp)
    }

    predicate BothHijacked() {
      up.hijacked && down.hijacked
    }
  }

  function NewFlow(request: string, response: string): Flow {
    Flow("", false, request, request, "", false, false, Copying, "", response, "", "", false, false, "")
  }

  /** Both endpoints have sent their requests; the responses are for the other direction's reader. */
  function Init(clientRequest: string, serverRequest: string, clientResponse: string, serverResponse: string,
                window: nat): Tunnel
  {
    Tunnel(NewFlow(clientRequest, serverResponse), NewFlow(serverRequest, clientResponse), false, false, window)
  }

  datatype Step =
    | Write(isUp: bool, bytes: string)         // the endpoint writes, once its own handshake is over
    | End(isUp: bool)                          // the endpoint will write no more
    | FillIn(isUp: bool, n: nat)               // the relay's buffered reader takes bytes off the connection
    | Hijack(isUp: bool)                       // the relay has read the request, answers it, takes the connection over
    | CopyRead(isUp: bool, n: nat)             // io.Copy reads, through the buffered reader
    | CopyWrite(isUp: bool, n: nat)            // io.Copy's write hands bytes to the connection
    | CopyEnds(isUp: bool)                     // io.Copy's read finds the end, or its read or write a closed connection
    | CopyFails(isUp: bool)                    // io.Copy's read or write fails for another reason
    | LoopCloses(isUp: bool)                   // the next deferred close
    | LoseIn(isUp: bool, n: nat)               // bytes on a closed connection are thrown away
    | LoseOut(isUp: bool, n: nat)
    | FillOut(isUp: bool, n: nat)              // the endpoint's buffered reader takes bytes off the connection
    | ParseResponse(isUp: bool)                // the endpoint reads the response out of its buffered reader
    | AppRead(isUp: bool, n: nat)              // the application reads, through that buffered reader

  predicate Enabled(t: Tunnel, step: Step) {
    var f := t.Get(step.isUp);
    match step
    case Write(isUp, _) => t.Get(!isUp).parsed && !f.ended
    case End(_) => true
    case FillIn(isUp, n) => 0 < n <= |f.netIn| && !t.SourceClosed(isUp)
    case Hijack(_) => !f.hijacked && |f.request| <= |f.bufIn|
    case CopyRead(isUp, n) =>
      && t.BothHijacked() && f.loop == Copying && f.hand == "" && 0 < n
      && (if f.bufIn != "" then n <= |f.bufIn| else n <= |f.netIn| && !t.SourceClosed(isUp))
    case CopyWrite(isUp, n) =>
      f.loop == Copying && 0 < n <= |f.hand| && !t.TargetClosed(isUp) && |f.netOut| + n <= t.window
    case CopyEnds(isUp) =>
      && t.BothHijacked() && f.loop == Copying
      && (if f.hand != "" then t.TargetClosed(isUp)
          else f.bufIn == "" && (t.SourceClosed(isUp) || (f.ended && f.netIn == "")))
    case CopyFails(_) => t.BothHijacked() && f.loop == Copying && (f.hand != "" || f.bufIn == "")
    case LoopCloses(_) => f.loop == CloseServer || f.loop == CloseClient
    case LoseIn(isUp, n) => t.SourceClosed(isUp) && n <= |f.netIn|
    case LoseOut(isUp, n) => t.TargetClosed(isUp) && n <= |f.netOut|
    case FillOut(_, n) => 0 < n <= |f.netOut|
    case ParseResponse(isUp) => !f.parsed && t.Get(!isUp).hijacked && |f.response| <= |f.bufOut|
    case AppRead(_, n) => f.parsed && 0 < n && (if f.bufOut != "" then n <= |f.bufOut| else n <= |f.netOut|)
  }

  /** A write of the endpoint reaches the relay unless bytes before it were thrown away. */
  function Written(f: Flow, bytes: string): Flow {
    f.(wrote := f.wrote + bytes, netIn := if f.lostIn then f.netIn else f.netIn + bytes)
  }

  function CopiedIn(f: Flow, n: nat): Flow
    requires n <= if f.bufIn != "" then |f.bufIn| else |f.netIn|
  {
    if f.bufIn != "" then f.(hand := f.bufIn[..n], bufIn := f.bufIn[n..])
    else f.(hand := f.netIn[..n], netIn := f.netIn[n..])
  }

  function CopiedOut(f: Flow, n: nat): Flow
    requires n <= |f.hand|
  {
    f.(netOut := f.netOut + f.hand[..n], hand := f.hand[n..])
  }

  /** io.Copy returns; what it still holds is lost. */
  function CopyOver(f: Flow): Flow {
    f.(loop := CloseServer, hand := "", lostOut := f.lostOut || f.hand != "")
  }

  function AppReads(f: Flow, n: nat): Flow
    requires n <= if f.bufOut != "" then |f.bufOut| else |f.netOut|
  {
    if f.bufOut != "" then f.(read := f.read + f.bufOut[..n], bufOut := f.bufOut[n..])
    else f.(read := f.read + f.netOut[..n], netOut := f.netOut[n..])
  }

  function Apply(t: Tunnel, step: Step): Tunnel
    requires Enabled(t, step)
  {
    var d := step.isUp;
    var f := t.Get(d);
    match step
    case Write(_, bytes) => t.Set(d, Written(f, bytes))
    case End(_) => t.Set(d, f.(ended := true))
    case FillIn(_, n) => t.Set(d, f.(bufIn := f.bufIn + f.netIn[..n], netIn := f.netIn[n..]))
    case Hijack(_) =>
      var g := t.Get(!d);
      t.Set(d, f.(hijacked := true, bufIn := f.bufIn[|f.request|..])).Set(!d, g.(netOut := g.netOut + g.response))
    case CopyRead(_, n) => t.Set(d, CopiedIn(f, n))
    case CopyWrite(_, n) => t.Set(d, CopiedOut(f, n))
    case CopyEnds(_) => t.Set(d, CopyOver(f))
    case CopyFails(_) => t.Set(d, CopyOver(f))
    case LoopCloses(_) =>
      if f.loop == CloseServer then t.Set(d, f.(loop := CloseClient)).(serverClosed := true)
      else t.Set(d, f.(loop := Finished)).(clientClosed := true)
    case LoseIn(_, n) => t.Set(d, f.(netIn := f.netIn[..n], lostIn := true))
    case LoseOut(_, n) => t.Set(d, f.(netOut := f.netOut[..n], lostOut := true))
    case FillOut(_, n) => t.Set(d, f.(bufOut := f.bufOut + f.netOut[..n], netOut := f.netOut[n..]))
    case ParseResponse(_) => t.Set(d, f.(parsed := true, bufOut := f.bufOut[|f.response|..]))
    case AppRead(_, n) => t.Set(d, AppReads(f, n))
  }

  /** A step that is not enabled when its turn comes is passed over. */
  function Next(t: Tunnel, step: Step): Tunnel {
    if Enabled(t, step) then Apply(t, step) else t
  }

  /** The state after a schedule. */
  function Run(t: Tunnel, steps: seq<Step>): Tunnel {
    Runs.Run(Next, t, steps)
  }

  // ------------------------------------------------------- where the bytes are

  function Drop(s: string, n: nat): string {
    if n <= |s| then s[n..] else ""
  }

  /** The tunnel bytes in a buffered reader and on its connection, without what is left of the HTTP message
      before them. */
  function Behind(buf: string, net: string, header: nat): string {
    Drop(buf + net, header)
  }

  /** What is left to skip of the request, and of the response. */
  function RequestLeft(f: Flow): nat {
    if f.hijacked then 0 else |f.request|
  }

  function ResponseLeft(f: Flow): nat {
    if f.parsed then 0 else |f.response|
  }

  /** Tunnel bytes on the relay's inward side. */
  function Inward(f: Flow): string {
    Behind(f.bufIn, f.netIn, RequestLeft(f))
  }

  /** Tunnel bytes on the way out of the relay. */
  function Outward(f: Flow): string {
    Behind(f.bufOut, f.netOut, ResponseLeft(f))
  }

  /** Read, on the way out, in the copy loop, and on the way in: in this order these are the bytes written,
      up to where the first were thrown away. `answered` says that the response has been sent. */
  ghost predicate Accounts(f: Flow) {
    && f.read + Outward(f) <= f.wrote
    && (!f.lostOut ==> f.read + Outward(f) + f.hand + Inward(f) <= f.wrote)
    && (!f.lostOut && !f.lostIn ==> f.read + Outward(f) + f.hand + Inward(f) == f.wrote)
  }

  ghost predicate FlowInv(f: Flow, answered: bool, targetClosed: bool) {
    && Accounts(f)
    && (!f.hijacked ==> |f.request| <= |f.bufIn + f.netIn| && !f.lostIn)
    && (!answered ==> f.bufOut + f.netOut == "" && !f.parsed && f.hand == "" && f.loop == Copying && !f.lostOut)
    && (answered && !f.parsed ==> f.lostOut || |f.response| <= |f.bufOut + f.netOut|)
    && (!f.hijacked ==> f.hand == "" && f.loop == Copying)
    && (f.lostOut ==> targetClosed || f.loop != Copying)
  }

  ghost predicate Inv(t: Tunnel) {
    && FlowInv(t.up, t.down.hijacked, t.serverClosed)
    && FlowInv(t.down, t.up.hijacked, t.clientClosed)
    && (t.clientClosed || t.serverClosed ==> t.BothHijacked())
    && ClosesInv(t.up, t) && ClosesInv(t.down, t)
    && ClosedByLoop(t)
  }

  /** Only the loops' deferred closes close a connection. */
  ghost predicate ClosedByLoop(t: Tunnel) {
    && (t.serverClosed ==> t.up.loop == CloseClient || t.up.loop == Finished || t.down.loop == CloseClient
                           || t.down.loop == Finished)
    && (t.clientClosed ==> t.up.loop == Finished || t.down.loop == Finished)
  }

  /** A loop past its first deferred close has closed the server's connection, and a finished one both. */
  ghost predicate ClosesInv(f: Flow, t: Tunnel) {
    && (f.loop == CloseClient ==> t.serverClosed)
    && (f.loop == Finished ==> t.serverClosed && t.clientClosed)
  }

  lemma DropConcat(s: string, t: string, n: nat)
    requires n <= |s|
    ensures Drop(s + t, n) == Drop(s, n) + t
  {
  }

  lemma DropPrefix(s: string, m: nat, n: nat)
    requires m <= |s|
    ensures Drop(s[..m], n) <= Drop(s, n)
  {
  }

  lemma BehindGrows(buf: string, net: string, more: string, n: nat)
    requires n <= |buf + net|
    ensures Behind(buf, net + more, n) == Behind(buf, net, n) + more
  {
    DropConcat(buf + net, more, n);
    assert buf + (net + more) == buf + net + more;
  }

  lemma WrittenKeeps(f: Flow, bytes: string, answered: bool, targetClosed: bool)
    requires FlowInv(f, answered, targetClosed)
    ensures FlowInv(Written(f, bytes), answered, targetClosed)
  {
    var g := Written(f, bytes);
    if !f.lostIn {
      BehindGrows(f.bufIn, f.netIn, bytes, RequestLeft(f));
      var x := f.read + Outward(f) + f.hand;
      assert x + (Inward(f) + bytes) == (x + Inward(f)) + bytes;
    }
    hide Behind;
    assert f.wrote <= g.wrote;
  }

  lemma SamePlaces(f: Flow, g: Flow)
    requires Accounts(f) && g.wrote == f.wrote && g.lostIn == f.lostIn && g.lostOut == f.lostOut
    requires g.read + Outward(g) == f.read + Outward(f) && g.hand + Inward(g) == f.hand + Inward(f)
    ensures Accounts(g)
  {
    hide Behind;
    assert f.read + Outward(f) + (f.hand + Inward(f)) == f.read + Outward(f) + f.hand + Inward(f);
    assert g.read + Outward(g) + (g.hand + Inward(g)) == g.read + Outward(g) + g.hand + Inward(g);
  }

  lemma FillInKeeps(f: Flow, n: nat, answered: bool, targetClosed: bool)
    requires FlowInv(f, answered, targetClosed) && n <= |f.netIn|
    ensures FlowInv(f.(bufIn := f.bufIn + f.netIn[..n], netIn := f.netIn[n..]), answered, targetClosed)
  {
    var g := f.(bufIn := f.bufIn + f.netIn[..n], netIn := f.netIn[n..]);
    assert g.bufIn + g.netIn == f.bufIn + f.netIn;
    SamePlaces(f, g);
  }

  lemma HijackKeeps(f: Flow, answered: bool, targetClosed: bool)
    requires FlowInv(f, answered, targetClosed) && !f.hijacked && |f.request| <= |f.bufIn|
    ensures FlowInv(f.(hijacked := true, bufIn := f.bufIn[|f.request|..]), answered, targetClosed)
  {
    var g := f.(hijacked := true, bufIn := f.bufIn[|f.request|..]);
    assert (f.bufIn + f.netIn)[|f.request|..] == g.bufIn + g.netIn;
    SamePlaces(f, g);
  }

  lemma AnswerKeeps(f: Flow, targetClosed: bool)
    requires FlowInv(f, false, targetClosed)
    ensures FlowInv(f.(netOut := f.netOut + f.response), true, targetClosed)
  {
    var g := f.(netOut := f.netOut + f.response);
    assert f.bufOut == "" && f.netOut == "";
    assert g.bufOut + g.netOut == f.response;
    assert Outward(f) == "" == Outward(g);
    SamePlaces(f, g);
  }

  /** Taking bytes off the front of a buffered reader, or past it off its connection. */
  lemma BehindTaken(buf: string, net: string, n: nat)
    requires n <= if buf != "" then |buf| else |net|
    ensures if buf != "" then buf[..n] + Behind(buf[n..], net, 0) == Behind(buf, net, 0)
            else net[..n] + Behind(buf, net[n..], 0) == Behind(buf, net, 0)
  {
    if buf != "" {
      assert buf[..n] + (buf[n..] + net) == buf + net;
    } else {
      assert net[..n] + (buf + net[n..]) == buf + net;
    }
  }

  lemma CopiedInKeeps(f: Flow, n: nat, targetClosed: bool)
    requires FlowInv(f, true, targetClosed) && f.hijacked && f.hand == ""
    requires n <= if f.bufIn != "" then |f.bufIn| else |f.netIn|
    ensures FlowInv(CopiedIn(f, n), true, targetClosed)
  {
    BehindTaken(f.bufIn, f.netIn, n);
    hide Behind;
    assert f.hand + Inward(f) == Inward(f);
    SamePlaces(f, CopiedIn(f, n));
  }

  lemma CopiedOutAccounts(f: Flow, n: nat)
    requires Accounts(f) && n <= |f.hand| && !f.lostOut && ResponseLeft(f) <= |f.bufOut + f.netOut|
    ensures Accounts(CopiedOut(f, n))
  {
    var g, sent, kept := CopiedOut(f, n), f.hand[..n], f.hand[n..];
    BehindGrows(f.bufOut, f.netOut, sent, ResponseLeft(f));
    assert Outward(g) == Outward(f) + sent && Inward(g) == Inward(f) && f.hand == sent + kept;
    hide Behind;
    var x := f.read + Outward(f);
    Regroup(f.read, Outward(f), sent);
    Regroup(x, sent, kept);
    assert x + f.hand <= x + f.hand + Inward(f);
  }

  lemma CopiedOutKeeps(f: Flow, n: nat)
    requires FlowInv(f, true, false) && f.loop == Copying && f.hand != "" && n <= |f.hand|
    ensures FlowInv(CopiedOut(f, n), true, false)
  {
    CopiedOutAccounts(f, n);
    hide Accounts;
  }

  lemma CopyOverKeeps(f: Flow, targetClosed: bool)
    requires FlowInv(f, true, targetClosed) && f.hijacked
    ensures FlowInv(CopyOver(f), true, targetClosed)
  {
    hide Behind;
    assert Inward(CopyOver(f)) == Inward(f) && Outward(CopyOver(f)) == Outward(f);
  }

  lemma LoseInAccounts(f: Flow, n: nat)
    requires Accounts(f) && f.hijacked && n <= |f.netIn|
    ensures Accounts(f.(netIn := f.netIn[..n], lostIn := true))
  {
    var g := f.(netIn := f.netIn[..n], lostIn := true);
    var x, rest := f.read + Outward(f) + f.hand, f.netIn[n..];
    assert f.netIn == g.netIn + rest;
    BehindGrows(f.bufIn, g.netIn, rest, 0);
    assert Outward(g) == Outward(f);
    hide Behind;
    Regroup(x, Inward(g), rest);
    assert x + Inward(g) <= x + Inward(f);
  }

  lemma LoseInKeeps(f: Flow, n: nat, answered: bool, targetClosed: bool)
    requires FlowInv(f, answered, targetClosed) && f.hijacked && n <= |f.netIn|
    ensures FlowInv(f.(netIn := f.netIn[..n], lostIn := true), answered, targetClosed)
  {
    LoseInAccounts(f, n);
    hide Accounts;
  }

  lemma LoseOutKeeps(f: Flow, n: nat)
    requires FlowInv(f, true, true) && n <= |f.netOut|
    ensures FlowInv(f.(netOut := f.netOut[..n], lostOut := true), true, true)
  {
    var g := f.(netOut := f.netOut[..n], lostOut := true);
    var s := f.bufOut + f.netOut;
    assert g.bufOut + g.netOut == s[..|f.bufOut| + n];
    DropPrefix(s, |f.bufOut| + n, ResponseLeft(f));
    assert Outward(g) <= Outward(f);
    hide Behind;
    assert f.read + Outward(g) <= f.read + Outward(f);
  }

  lemma OutsideKeeps(f: Flow, g: Flow, answered: bool, targetClosed: bool)
    requires FlowInv(f, answered, targetClosed)
    requires g == f.(read := g.read, bufOut := g.bufOut, netOut := g.netOut, parsed := g.parsed)
    requires g.read + Outward(g) == f.read + Outward(f)
    requires answered && (!g.parsed ==> !f.parsed && |g.bufOut + g.netOut| == |f.bufOut + f.netOut|)
    ensures FlowInv(g, answered, targetClosed)
  {
    hide Behind;
    SamePlaces(f, g);
  }

  lemma FillOutKeeps(f: Flow, n: nat, answered: bool, targetClosed: bool)
    requires FlowInv(f, answered, targetClosed) && 0 < n <= |f.netOut|
    ensures FlowInv(f.(bufOut := f.bufOut + f.netOut[..n], netOut := f.netOut[n..]), answered, targetClosed)
  {
    var g := f.(bufOut := f.bufOut + f.netOut[..n], netOut := f.netOut[n..]);
    assert g.bufOut + g.netOut == f.bufOut + f.netOut;
    OutsideKeeps(f, g, answered, targetClosed);
  }

  lemma ParseKeeps(f: Flow, targetClosed: bool)
    requires FlowInv(f, true, targetClosed) && !f.parsed && |f.response| <= |f.bufOut|
    ensures FlowInv(f.(parsed := true, bufOut := f.bufOut[|f.response|..]), true, targetClosed)
  {
    var g := f.(parsed := true, bufOut := f.bufOut[|f.response|..]);
    assert (f.bufOut + f.netOut)[|f.response|..] == g.bufOut + g.netOut;
    OutsideKeeps(f, g, true, targetClosed);
  }

  lemma AppReadKeeps(f: Flow, n: nat, answered: bool, targetClosed: bool)
    requires FlowInv(f, answered, targetClosed) && f.parsed
    requires n <= if f.bufOut != "" then |f.bufOut| else |f.netOut|
    ensures FlowInv(AppReads(f, n), answered, targetClosed)
  {
    var g := AppReads(f, n);
    BehindTaken(f.bufOut, f.netOut, n);
    assert answered;
    hide Behind, FlowInv;
    if f.bufOut != "" {
      Regroup(f.read, f.bufOut[..n], Outward(g));
    } else {
      Regroup(f.read, f.netOut[..n], Outward(g));
    }
    OutsideKeeps(f, g, answered, targetClosed);
  }

  /** What a direction's progress says about its two handshakes. */
  lemma Progressed(f: Flow, answered: bool, targetClosed: bool)
    requires FlowInv(f, answered, targetClosed)
    ensures f.hand != "" || f.loop != Copying ==> f.hijacked
    ensures f.hand != "" || f.loop != Copying || f.parsed || f.netOut != "" ==> answered
  {
    hide Accounts;
  }

  lemma StepKeepsFlows(t: Tunnel, step: Step)
    requires Inv(t) && Enabled(t, step)
    ensures var u := Apply(t, step);
            FlowInv(u.up, u.down.hijacked, u.serverClosed) && FlowInv(u.down, u.up.hijacked, u.clientClosed)
  {
    hide FlowInv, ClosesInv, ClosedByLoop, Apply, Enabled;
    if step.Write? || step.FillIn? || step.CopyRead? || step.LoseIn? || step.End? {
      StepKeepsInward(t, step);
    } else if step.Hijack? {
      HijackStepKeeps(t, step.isUp);
    } else if step.LoopCloses? {
      LoopKeeps(t, step.isUp);
    } else if Stops(step) {
      StopKeeps(t, step);
    } else {
      StepKeepsOutward(t, step);
    }
  }

  lemma HijackStepKeeps(t: Tunnel, d: bool)
    requires Inv(t) && Enabled(t, Hijack(d))
    ensures var u := Apply(t, Hijack(d));
            FlowInv(u.up, u.down.hijacked, u.serverClosed) && FlowInv(u.down, u.up.hijacked, u.clientClosed)
  {
    hide FlowInv, ClosesInv, ClosedByLoop;
    HijackKeeps(t.Get(d), t.Get(!d).hijacked, t.TargetClosed(d));
    AnswerKeeps(t.Get(!d), t.TargetClosed(!d));
  }

  lemma SetKeeps(t: Tunnel, d: bool, g: Flow)
    requires Inv(t) && g.hijacked == t.Get(d).hijacked && FlowInv(g, t.Get(!d).hijacked, t.TargetClosed(d))
    ensures var u := t.Set(d, g);
            FlowInv(u.up, u.down.hijacked, u.serverClosed) && FlowInv(u.down, u.up.hijacked, u.clientClosed)
  {
    hide FlowInv, ClosesInv, ClosedByLoop;
  }

  lemma StepKeepsInward(t: Tunnel, step: Step)
    requires Inv(t) && Enabled(t, step) && (step.Write? || step.FillIn? || step.CopyRead? || step.LoseIn? || step.End?)
    ensures var u := Apply(t, step);
            FlowInv(u.up, u.down.hijacked, u.serverClosed) && FlowInv(u.down, u.up.hijacked, u.clientClosed)
  {
    hide FlowInv, ClosesInv, ClosedByLoop, Written, CopiedIn;
    var d := step.isUp;
    var f, answered, closed := t.Get(d), t.Get(!d).hijacked, t.TargetClosed(d);
    HijacksKept(f, step);
    match step
    case Write(_, bytes) =>
      WrittenKeeps(f, bytes, answered, closed);
      SetKeeps(t, d, Written(f, bytes));
    case FillIn(_, n) =>
      FillInKeeps(f, n, answered, closed);
      SetKeeps(t, d, f.(bufIn := f.bufIn + f.netIn[..n], netIn := f.netIn[n..]));
    case CopyRead(_, n) =>
      CopiedInKeeps(f, n, closed);
      SetKeeps(t, d, CopiedIn(f, n));
    case LoseIn(_, n) =>
      LoseInKeeps(f, n, answered, closed);
      SetKeeps(t, d, f.(netIn := f.netIn[..n], lostIn := true));
    case End(_) =>
      ControlKeeps(f, f.(ended := true), answered, closed);
      SetKeeps(t, d, f.(ended := true));
  }

  predicate SamePhase(f: Flow, g: Flow) {
    g.hijacked == f.hijacked && g.loop == f.loop
  }

  lemma HijacksKept(f: Flow, step: Step)
    ensures step.Write? ==> SamePhase(f, Written(f, step.bytes))
    ensures step.CopyRead? && step.n <= (if f.bufIn != "" then |f.bufIn| else |f.netIn|)
        ==> SamePhase(f, CopiedIn(f, step.n))
    ensures step.CopyWrite? && step.n <= |f.hand| ==> SamePhase(f, CopiedOut(f, step.n))
    ensures step.AppRead? && step.n <= (if f.bufOut != "" then |f.bufOut| else |f.netOut|)
        ==> SamePhase(f, AppReads(f, step.n))
  {
  }

  predicate Stops(step: Step) {
    step.CopyEnds? || step.CopyFails?
  }

  lemma StopKeeps(t: Tunnel, step: Step)
    requires Inv(t) && Enabled(t, step) && Stops(step)
    ensures var u := Apply(t, step);
            FlowInv(u.up, u.down.hijacked, u.serverClosed) && FlowInv(u.down, u.up.hijacked, u.clientClosed)
  {
    hide FlowInv, ClosesInv, ClosedByLoop;
    var f := t.Get(step.isUp);
    CopyOverKeeps(f, t.TargetClosed(step.isUp));
    SetKeeps(t, step.isUp, CopyOver(f));
  }

  lemma StepKeepsOutward(t: Tunnel, step: Step)
    requires Inv(t) && Enabled(t, step)
    requires step.CopyWrite? || step.LoseOut? || step.FillOut? || step.ParseResponse? || step.AppRead?
    ensures var u := Apply(t, step);
            FlowInv(u.up, u.down.hijacked, u.serverClosed) && FlowInv(u.down, u.up.hijacked, u.clientClosed)
  {
    hide FlowInv, ClosesInv, ClosedByLoop, CopiedOut, AppReads;
    var d := step.isUp;
    var f, answered, closed := t.Get(d), t.Get(!d).hijacked, t.TargetClosed(d);
    Progressed(f, answered, closed);
    HijacksKept(f, step);
    match step
    case CopyWrite(_, n) =>
      CopiedOutKeeps(f, n);
      SetKeeps(t, d, CopiedOut(f, n));
    case LoseOut(_, n) =>
      LoseOutKeeps(f, n);
      SetKeeps(t, d, f.(netOut := f.netOut[..n], lostOut := true));
    case FillOut(_, n) =>
      FillOutKeeps(f, n, answered, closed);
      SetKeeps(t, d, f.(bufOut := f.bufOut + f.netOut[..n], netOut := f.netOut[n..]));
    case ParseResponse(_) =>
      ParseKeeps(f, closed);
      SetKeeps(t, d, f.(parsed := true, bufOut := f.bufOut[|f.response|..]));
    case AppRead(_, n) =>
      AppReadKeeps(f, n, answered, closed);
      SetKeeps(t, d, AppReads(f, n));
  }

  /** Bytes stay where they are; a loop may leave its copying. */
  lemma ControlKeeps(f: Flow, g: Flow, answered: bool, targetClosed: bool)
    requires FlowInv(f, answered, targetClosed)
    requires g == f.(ended := g.ended, loop := g.loop)
    requires g.loop == f.loop || (f.hijacked && answered && g.loop != Copying)
    ensures FlowInv(g, answered, targetClosed)
  {
    hide Behind;
    assert Inward(g) == Inward(f) && Outward(g) == Outward(f);
    SamePlaces(f, g);
  }

  lemma CloseKeeps(f: Flow, answered: bool, targetClosed: bool)
    requires FlowInv(f, answered, targetClosed)
    ensures FlowInv(f, answered, true)
  {
    hide Accounts;
  }

  lemma LoopKeeps(t: Tunnel, isUp: bool)
    requires Inv(t) && Enabled(t, LoopCloses(isUp))
    ensures var u := Apply(t, LoopCloses(isUp));
            FlowInv(u.up, u.down.hijacked, u.serverClosed) && FlowInv(u.down, u.up.hijacked, u.clientClosed)
  {
    hide FlowInv, ClosesInv, ClosedByLoop;
    var f := t.Get(isUp);
    var g := if f.loop == CloseServer then f.(loop := CloseClient) else f.(loop := Finished);
    Progressed(f, t.Get(!isUp).hijacked, t.TargetClosed(isUp));
    ControlKeeps(f, g, t.Get(!isUp).hijacked, t.TargetClosed(isUp));
    CloseKeeps(g, t.Get(!isUp).hijacked, t.TargetClosed(isUp));
    CloseKeeps(t.Get(!isUp), f.hijacked, t.TargetClosed(!isUp));
  }

  lemma StepKeepsCloses(t: Tunnel, step: Step)
    requires Inv(t) && Enabled(t, step)
    ensures var u := Apply(t, step);
            && (u.clientClosed || u.serverClosed ==> u.BothHijacked())
            && ClosesInv(u.up, u) && ClosesInv(u.down, u) && ClosedByLoop(u)
  {
    hide FlowInv;
    Progressed(t.up, t.down.hijacked, t.serverClosed);
    Progressed(t.down, t.up.hijacked, t.clientClosed);
    if Stops(step) || step.LoopCloses? {
      LoopKeepsCloses(t, step);
    } else {
      hide ClosesInv, ClosedByLoop;
      BytesKeepCloses(t, step);
      SameCloses(t, Apply(t, step));
    }
  }

  lemma LoopKeepsCloses(t: Tunnel, step: Step)
    requires Enabled(t, step) && (Stops(step) || step.LoopCloses?)
    requires ClosesInv(t.up, t) && ClosesInv(t.down, t) && ClosedByLoop(t)
    requires t.clientClosed || t.serverClosed || step.LoopCloses? ==> t.BothHijacked()
    ensures var u := Apply(t, step);
            && (u.clientClosed || u.serverClosed ==> u.BothHijacked())
            && ClosesInv(u.up, u) && ClosesInv(u.down, u) && ClosedByLoop(u)
  {
  }

  ghost predicate LoopsKept(t: Tunnel, u: Tunnel) {
    && u.up.loop == t.up.loop && u.down.loop == t.down.loop && u.clientClosed == t.clientClosed
        && u.serverClosed == t.serverClosed
    && (t.up.hijacked ==> u.up.hijacked) && (t.down.hijacked ==> u.down.hijacked)
  }

  lemma BytesKeepCloses(t: Tunnel, step: Step)
    requires Enabled(t, step) && !Stops(step) && !step.LoopCloses?
    ensures LoopsKept(t, Apply(t, step))
  {
    HijacksKept(t.Get(step.isUp), step);
    hide Written, CopiedIn, CopiedOut, AppReads;
  }

  lemma SameCloses(t: Tunnel, u: Tunnel)
    requires ClosesInv(t.up, t) && ClosesInv(t.down, t) && ClosedByLoop(t) && LoopsKept(t, u)
    ensures ClosesInv(u.up, u) && ClosesInv(u.down, u) && ClosedByLoop(u)
  {
  }

  lemma StepKeepsInv(t: Tunnel, step: Step)
    requires Inv(t) && Enabled(t, step)
    ensures Inv(Apply(t, step))
  {
    hide FlowInv, Apply;
    StepKeepsFlows(t, step);
    StepKeepsCloses(t, step);
  }

  lemma InitInv(clientRequest: string, serverRequest: string, clientResponse: string, serverResponse: string,
                window: nat)
    ensures Inv(Init(clientRequest, serverRequest, clientResponse, serverResponse, window))
  {
  }

  lemma {:induction false} RunKeepsInv(t: Tunnel, steps: seq<Step>)
    requires Inv(t)
    ensures Inv(Run(t, steps))
    decreases |steps|
  {
    hide Inv, Enabled, Apply;
    if steps != [] {
      if Enabled(t, steps[0]) {
        StepKeepsInv(t, steps[0]);
        RunKeepsInv(Apply(t, steps[0]), steps[1..]);
      } else {
        RunKeepsInv(t, steps[1..]);
      }
    }
  }

  // ------------------------------------------------------- over whole runs

  /** In every run, what each application has read is a prefix of what the other endpoint wrote after its
      handshake, and nothing is lost on the way while nothing has been thrown away. */
  lemma ReadIsPrefixOfWritten(t: Tunnel, steps: seq<Step>, isUp: bool)
    requires exists a, b, c, d, window :: t == Init(a, b, c, d, window)
    ensures var f := Run(t, steps).Get(isUp);
            && f.read <= f.wrote
            && (!f.lostIn && !f.lostOut ==> f.read + Outward(f) + f.hand + Inward(f) == f.wrote)
  {
    var a, b, c, d, window :| t == Init(a, b, c, d, window);
    InitInv(a, b, c, d, window);
    RunKeepsInv(t, steps);
    hide Run, Init, Behind;
    var f := Run(t, steps).Get(isUp);
    assert Accounts(f);
    assert f.read <= f.read + Outward(f);
  }

  // ------------------------------------------------------- delivery

  /** An application's read blocks exactly if its buffered reader and its connection are both empty. */
  lemma AppReadBlocks(t: Tunnel, isUp: bool)
    requires t.Get(isUp).parsed
    ensures (forall n :: !Enabled(t, AppRead(isUp, n))) <==> t.Get(isUp).bufOut == "" && t.Get(isUp).netOut == ""
  {
    var f := t.Get(isUp);
    if f.bufOut != "" || f.netOut != "" {
      assert Enabled(t, AppRead(isUp, 1));
    }
  }

  /** Nothing has gone wrong in this direction: the connections are open, its loop copies, and no byte has been
      thrown away on the way in. */
  predicate Healthy(t: Tunnel, isUp: bool) {
    var f := t.Get(isUp);
    && !t.clientClosed && !t.serverClosed && f.loop == Copying && !f.lostIn
  }

  /** The handshakes are over, and the application has read all that was written. */
  predicate Delivered(t: Tunnel, isUp: bool) {
    t.BothHijacked() && t.Get(isUp).parsed && t.Get(isUp).read == t.Get(isUp).wrote
  }

  /** What the relay, and the reader at the end of this direction, do of themselves: reads, copies, and what completes
      the handshakes. No endpoint writes, nothing fails, nothing is closed or thrown away. */
  predicate Onward(t: Tunnel, isUp: bool, step: Step) {
    match step
    case FillIn(d, _) => !t.Get(d).hijacked
    case Hijack(_) => true
    case FillOut(d, _) => d == isUp && !t.Get(d).parsed
    case ParseResponse(d) => d == isUp
    case CopyRead(d, _) => d == isUp
    case CopyWrite(d, _) => d == isUp
    case AppRead(d, _) => d == isUp
    case _ => false
  }

  function HijackWork(f: Flow): nat {
    if f.hijacked then 0 else 1 + |f.netIn|
  }

  /** How far everything in this direction still has to go. */
  function Distance(t: Tunnel, isUp: bool): nat {
    var f := t.Get(isUp);
    HijackWork(t.up) + HijackWork(t.down)
    + 4 * (|f.bufIn| + |f.netIn|) + 3 * |f.hand| + |f.bufOut| + |f.netOut|
    + (if f.parsed then 0 else 1 + |f.netOut|)
    + (if t.Get(!isUp).hijacked then 0 else 2 * |f.response|)
  }

  ghost predicate Nears(t: Tunnel, u: Tunnel, isUp: bool) {
    Healthy(u, isUp) && u.window == t.window && u.Get(isUp).wrote == t.Get(isUp).wrote
    && Distance(u, isUp) < Distance(t, isUp)
  }

  lemma HijackNears(t: Tunnel, isUp: bool, step: Step)
    requires Inv(t) && Healthy(t, isUp) && Onward(t, isUp, step) && Enabled(t, step) && (step.FillIn? || step.Hijack?)
    ensures Nears(t, Apply(t, step), isUp)
  {
    hide Accounts, ClosesInv, ClosedByLoop;
  }

  lemma CopyNears(t: Tunnel, isUp: bool, step: Step)
    requires Healthy(t, isUp) && Onward(t, isUp, step) && Enabled(t, step) && (step.CopyRead? || step.CopyWrite?)
    ensures Nears(t, Apply(t, step), isUp)
  {
  }

  lemma ReadNears(t: Tunnel, isUp: bool, step: Step)
    requires Healthy(t, isUp) && Onward(t, isUp, step) && Enabled(t, step)
    requires step.FillOut? || step.ParseResponse? || step.AppRead?
    ensures Nears(t, Apply(t, step), isUp)
  {
  }

  lemma OnwardNears(t: Tunnel, isUp: bool, step: Step)
    requires Inv(t) && Healthy(t, isUp) && Onward(t, isUp, step) && Enabled(t, step)
    ensures Nears(t, Apply(t, step), isUp)
  {
    hide Inv, Healthy, Enabled, Apply, Nears;
    if step.FillIn? || step.Hijack? {
      HijackNears(t, isUp, step);
    } else if step.CopyRead? || step.CopyWrite? {
      CopyNears(t, isUp, step);
    } else {
      ReadNears(t, isUp, step);
    }
  }

  /** What is left to be done in a direction whose handshakes are over. */
  lemma AllReadIffEmpty(f: Flow, targetClosed: bool)
    requires FlowInv(f, true, targetClosed) && f.hijacked && f.parsed && !f.lostIn && !f.lostOut
    ensures f.read == f.wrote <==> f.bufOut == "" && f.netOut == "" && f.hand == "" && f.bufIn == "" && f.netIn == ""
  {
    assert Outward(f) == f.bufOut + f.netOut && Inward(f) == f.bufIn + f.netIn;
    assert |f.read| + |Outward(f)| + |f.hand| + |Inward(f)| == |f.wrote|;
  }

  lemma HijackGoesOn(t: Tunnel, isUp: bool, d: bool)
    requires Inv(t) && Healthy(t, isUp) && !t.Get(d).hijacked
    ensures exists step :: Onward(t, isUp, step) && Enabled(t, step)
  {
    hide Accounts, ClosesInv, ClosedByLoop, Apply;
    var f := t.Get(d);
    var step := if |f.request| <= |f.bufIn| then Hijack(d) else FillIn(d, 1);
    assert Onward(t, isUp, step) && Enabled(t, step);
  }

  lemma ResponseGoesOn(t: Tunnel, isUp: bool)
    requires Inv(t) && Healthy(t, isUp) && t.BothHijacked() && !t.Get(isUp).parsed
    ensures exists step :: Onward(t, isUp, step) && Enabled(t, step)
  {
    hide Accounts, ClosesInv, ClosedByLoop, Apply;
    var f := t.Get(isUp);
    var step := if |f.response| <= |f.bufOut| then ParseResponse(isUp) else FillOut(isUp, 1);
    assert Onward(t, isUp, step) && Enabled(t, step);
  }

  /** In a healthy direction something moves on exactly until everything is delivered. */
  lemma OnwardUntilDelivered(t: Tunnel, isUp: bool)
    requires Inv(t) && Healthy(t, isUp) && t.window > 0
    ensures (exists step :: Onward(t, isUp, step) && Enabled(t, step)) <==> !Delivered(t, isUp)
  {
    var f := t.Get(isUp);
    if !t.BothHijacked() {
      HijackGoesOn(t, isUp, if t.up.hijacked then false else true);
    } else if !f.parsed {
      ResponseGoesOn(t, isUp);
    } else {
      AllReadIffEmpty(f, t.TargetClosed(isUp));
      hide FlowInv, ClosesInv, ClosedByLoop, Apply;
      if f.bufOut != "" || f.netOut != "" {
        assert Onward(t, isUp, AppRead(isUp, 1)) && Enabled(t, AppRead(isUp, 1));
      } else if f.hand != "" {
        assert Onward(t, isUp, CopyWrite(isUp, 1)) && Enabled(t, CopyWrite(isUp, 1));
      } else if f.bufIn != "" || f.netIn != "" {
        assert Onward(t, isUp, CopyRead(isUp, 1)) && Enabled(t, CopyRead(isUp, 1));
      }
    }
  }

  /** A schedule all of whose steps move a direction on. */
  ghost predicate AllOnward(t: Tunnel, isUp: bool, steps: seq<Step>)
    decreases |steps|
  {
    steps == [] ||
    (Onward(t, isUp, steps[0]) && Enabled(t, steps[0]) && AllOnward(Apply(t, steps[0]), isUp, steps[1..]))
  }

  /** Whatever moves on, and in whatever order, it comes to an end. */
  lemma {:induction false} OnwardEnds(t: Tunnel, isUp: bool, steps: seq<Step>)
    requires Inv(t) && Healthy(t, isUp) && AllOnward(t, isUp, steps)
    ensures var u := Run(t, steps);
            && Inv(u) && Healthy(u, isUp) && u.window == t.window && u.Get(isUp).wrote == t.Get(isUp).wrote
            && |steps| + Distance(u, isUp) <= Distance(t, isUp)
    decreases |steps|
  {
    hide Inv, Healthy, Onward, Enabled, Apply, Distance;
    if steps != [] {
      StepKeepsInv(t, steps[0]);
      OnwardNears(t, isUp, steps[0]);
      OnwardEnds(Apply(t, steps[0]), isUp, steps[1..]);
    }
  }

  /** Delivery. From every healthy state, with room for at least a byte on the connections, reads and copies go on
      until the application has read all that the other endpoint wrote: some schedule of them ends there, and none
      that ends elsewhere cannot go on. */
  lemma {:induction false} Delivery(t: Tunnel, isUp: bool) returns (steps: seq<Step>)
    requires Inv(t) && Healthy(t, isUp) && t.window > 0
    ensures AllOnward(t, isUp, steps) && Delivered(Run(t, steps), isUp)
    ensures Run(t, steps).Get(isUp).read == t.Get(isUp).wrote
    ensures forall others :: AllOnward(t, isUp, others) ==>
              var u := Run(t, others);
              Delivered(u, isUp) || exists step :: Onward(u, isUp, step) && Enabled(u, step)
    decreases Distance(t, isUp)
  {
    hide Inv, Healthy, Onward, Enabled, Apply, Distance;
    OnwardUntilDelivered(t, isUp);
    steps := [];
    if !Delivered(t, isUp) {
      var step :| Onward(t, isUp, step) && Enabled(t, step);
      StepKeepsInv(t, step);
      OnwardNears(t, isUp, step);
      var more := Delivery(Apply(t, step), isUp);
      steps := [step] + more;
      assert steps[1..] == more;
    }
    forall others | AllOnward(t, isUp, others)
      ensures var u := Run(t, others);
              Delivered(u, isUp) || exists step :: Onward(u, isUp, step) && Enabled(u, step)
    {
      OnwardEnds(t, isUp, others);
      OnwardUntilDelivered(Run(t, others), isUp);
    }
  }

  // ------------------------------------------------------- shutting down

  /** The steps of the two copy loops. */
  predicate LoopStep(step: Step) {
    step.CopyRead? || step.CopyWrite? || Stops(step) || step.LoopCloses?
  }

  /** A loop can take a step without any failure that the state does not already force. */
  ghost predicate CanMove(t: Tunnel, isUp: bool) {
    exists step :: LoopStep(step) && !step.CopyFails? && step.isUp == isUp && Enabled(t, step)
  }

  /** A loop waits in its read for bytes or the end of the source, or in its write for room. */
  predicate Waits(t: Tunnel, isUp: bool) {
    var f := t.Get(isUp);
    && f.loop == Copying
    && (if f.hand == "" then f.bufIn == "" && f.netIn == "" && !f.ended && !t.SourceClosed(isUp)
        else t.window <= |f.netOut| && !t.TargetClosed(isUp))
  }

  lemma BlockedAlone(t: Tunnel, isUp: bool)
    requires t.BothHijacked()
    ensures !CanMove(t, isUp) <==> t.Get(isUp).loop == Finished || Waits(t, isUp)
  {
    hide Apply;
    var f := t.Get(isUp);
    if f.loop == Finished || Waits(t, isUp) {
      assert forall step :: LoopStep(step) && !step.CopyFails? && step.isUp == isUp ==> !Enabled(t, step);
    } else if f.loop != Copying {
      assert Enabled(t, LoopCloses(isUp));
    } else if f.hand != "" {
      assert Enabled(t, if t.TargetClosed(isUp) then CopyEnds(isUp) else CopyWrite(isUp, 1));
    } else if f.bufIn != "" || (f.netIn != "" && !t.SourceClosed(isUp)) {
      assert Enabled(t, CopyRead(isUp, 1));
    } else {
      assert Enabled(t, CopyEnds(isUp));
    }
  }

  /** Failures aside, neither loop can move exactly if both have finished, or both wait on connections that
      are open. So one loop's end never leaves the other waiting. */
  lemma BlockedIff(t: Tunnel)
    requires Inv(t) && t.BothHijacked()
    ensures !CanMove(t, true) && !CanMove(t, false) <==>
            Returned(t) || (Waits(t, true) && Waits(t, false) && !t.clientClosed && !t.serverClosed)
  {
    hide FlowInv, CanMove;
    BlockedAlone(t, true);
    BlockedAlone(t, false);
  }

  function LoopRank(pc: LoopPc): nat {
    match pc
    case Copying => 3
    case CloseServer => 2
    case CloseClient => 1
    case Finished => 0
  }

  /** What a copy loop can still do once the connection it writes to is closed. */
  function LoopWork(f: Flow): nat {
    2 * LoopRank(f.loop) + (if f.hand == "" then 1 else 0)
  }

  predicate Returned(t: Tunnel) {
    t.up.loop == Finished && t.down.loop == Finished
  }

  /** A step of a loop whose target is closed brings it closer to its end. */
  lemma ClosedLoopWorks(t: Tunnel, step: Step)
    requires Enabled(t, step) && LoopStep(step) && t.TargetClosed(step.isUp)
    ensures LoopWork(Apply(t, step).Get(step.isUp)) < LoopWork(t.Get(step.isUp))
  {
  }

  /** `uniteConnections` returns only with both connections closed. When one loop has ended and run its
      deferred closes, the other is never stuck, whatever the endpoints do, and each of its steps brings it
      closer to its own end. */
  lemma OneEndEndsBoth(t: Tunnel, isUp: bool)
    requires Inv(t) && t.Get(isUp).loop == Finished
    ensures t.clientClosed && t.serverClosed
    ensures !Returned(t) ==> CanMove(t, !isUp)
    ensures forall step :: LoopStep(step) && step.isUp != isUp && Enabled(t, step) ==>
              LoopWork(Apply(t, step).Get(!isUp)) < LoopWork(t.Get(!isUp))
  {
    hide FlowInv, Apply, LoopWork, CanMove;
    BlockedAlone(t, !isUp);
    forall step | LoopStep(step) && step.isUp != isUp && Enabled(t, step)
      ensures LoopWork(Apply(t, step).Get(!isUp)) < LoopWork(t.Get(!isUp))
    {
      assert step.isUp == !isUp;
      ClosedLoopWorks(t, step);
    }
  }

  /** Closed connections stay closed, and finished loops stay finished. */
  ghost predicate StillShut(t: Tunnel, u: Tunnel) {
    && (t.clientClosed ==> u.clientClosed) && (t.serverClosed ==> u.serverClosed)
    && (t.up.loop == Finished ==> u.up.loop == Finished) && (t.down.loop == Finished ==> u.down.loop == Finished)
  }

  lemma StepStaysShut(t: Tunnel, step: Step)
    requires Enabled(t, step)
    ensures StillShut(t, Apply(t, step))
  {
    HijacksKept(t.Get(step.isUp), step);
    hide Written, CopiedIn, AppReads;
  }

  lemma {:induction false} StaysShut(t: Tunnel, steps: seq<Step>)
    ensures StillShut(t, Run(t, steps))
    decreases |steps|
  {
    hide Enabled, Apply;
    if steps != [] {
      if Enabled(t, steps[0]) {
        StepStaysShut(t, steps[0]);
        StaysShut(Apply(t, steps[0]), steps[1..]);
      } else {
        StaysShut(t, steps[1..]);
      }
    }
  }

  /** How many steps of one copy loop a schedule makes happen. */
  function LoopSteps(t: Tunnel, steps: seq<Step>, isUp: bool): nat
    decreases |steps|
  {
    if steps == [] then 0
    else if !Enabled(t, steps[0]) then LoopSteps(t, steps[1..], isUp)
    else
      (if LoopStep(steps[0]) && steps[0].isUp == isUp then 1 else 0)
      + LoopSteps(Apply(t, steps[0]), steps[1..], isUp)
  }

  lemma OthersLeaveLoop(t: Tunnel, step: Step, isUp: bool)
    requires Enabled(t, step) && !(LoopStep(step) && step.isUp == isUp)
    ensures LoopWork(Apply(t, step).Get(isUp)) == LoopWork(t.Get(isUp))
  {
  }

  /** Whatever the schedule, and whatever the endpoints write, once one loop has finished the other makes at
      most `LoopWork` more steps, which is at most seven. */
  lemma {:induction false} OtherLoopBounded(t: Tunnel, steps: seq<Step>, isUp: bool)
    requires Inv(t) && t.Get(isUp).loop == Finished
    ensures LoopSteps(t, steps, !isUp) + LoopWork(Run(t, steps).Get(!isUp)) <= LoopWork(t.Get(!isUp)) <= 7
    decreases |steps|
  {
    hide Inv, Enabled, Apply;
    if steps != [] {
      if Enabled(t, steps[0]) {
        var step := steps[0];
        var u := Apply(t, step);
        StepKeepsInv(t, step);
        StepStaysShut(t, step);
        OneEndEndsBoth(t, isUp);
        if !(LoopStep(step) && step.isUp == !isUp) {
          OthersLeaveLoop(t, step, !isUp);
        }
        OtherLoopBounded(u, steps[1..], isUp);
      } else {
        OtherLoopBounded(t, steps[1..], isUp);
      }
    }
  }
}
