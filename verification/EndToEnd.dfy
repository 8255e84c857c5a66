/** From the queue on the relay to `Accept` on the listening server: what is taken there is, in order, what
    was written, and what was written is, in order, part of what was enqueued. */
module EndToEnd {
  import opened Options
  import opened Json
  import opened JsonTheorems
  import opened Events
  import opened EventReader
  import opened StreamTheorems
  import B = Broker
  import F = Forwarding
  import FI = ForwardingInv
  import FT = ForwardingTheorems
  import L = Listener
  import R = Rendezvous
  import RI = RendezvousInv
  import RT = RendezvousTheorems
  import Runs

  /** The request that was sent on a queue at position `pos`. */
  function MessageAt(s: F.State, g: F.Reg, pos: nat): Request {
    if pos < |g.log| && g.log[pos] < |s.clients| then s.clients[g.log[pos]].msg else Request("", "", "")
  }

  function Messages(s: F.State, g: F.Reg, ps: seq<nat>): seq<Request> {
    seq(|ps|, i requires 0 <= i < |ps| => MessageAt(s, g, ps[i]))
  }

  /** Whatever arrives of a stream of events, in whatever chunks, and however `Accept` calls are scheduled:
      the i-th request taken is the i-th on the stream, and no error comes before the last of them. */
  lemma AcceptedInOrder(rs: seq<Request>, k: nat, final: StreamEnd, cancelAt: Option<nat>, sends: seq<Send>,
      calls: seq<L.Step>, i: nat)
    requires k <= |Stream(rs)| && Script(Stream(rs)[..k], MAX_BUFFER_SIZE, final, cancelAt, sends)
    requires var s := L.Run(L.Init(sends), calls); i < |s.accepts| && s.accepts[i].CallBack?
    ensures var s := L.Run(L.Init(sends), calls);
            && i < |rs| && s.accepts[i].request == rs[i].Clean()
            && forall j :: 0 <= j <= i ==> s.accepts[j] == L.CallBack(rs[j].Clean())
  {
    hide Stream, Deliver, L.Run, L.Handled, L.Errors;
    var p := Stream(rs)[..k];
    var edge :| sends == Sent(Deliver(p, MAX_BUFFER_SIZE, final, edge).0, Deliver(p, MAX_BUFFER_SIZE, final, edge).1,
        cancelAt);
    var d := Deliver(p, MAX_BUFFER_SIZE, final, edge);
    CutStreamPrefix(rs, k, MAX_BUFFER_SIZE, final, edge);
    L.ScriptCarries(d.0, d.1, cancelAt, sends);
    L.CallsInOrder(sends, calls);
    var s := L.Run(L.Init(sends), calls);
    forall j | 0 <= j <= i
      ensures j < |rs| && s.accepts[j] == L.CallBack(rs[j].Clean())
    {
      assert L.At(L.Handled(sends), i).Some? && L.Handled(sends)[i].Got?;
      assert L.Handled(sends)[j] == Got(d.0[j]);
      assert d.0[j] == Clean(rs)[j];
    }
  }

  lemma AttemptsIncrease(g: F.Reg)
    requires FI.WriteInv(g) && FI.QueueInv(g)
    ensures FI.Increasing(F.Attempts(g)) && FI.Below(F.Attempts(g), |g.log|)
  {
  }

  /** When the relay is in state `s`, `k` bytes of registration `r`'s stream have arrived, and the reader's goroutine
      makes `sends` of them. */
  ghost predicate Arrived(s: F.State, r: nat, k: nat, final: StreamEnd, sends: seq<Send>) {
    && r < |s.regs|
    && var wire := Stream(Messages(s, s.regs[r], F.Attempts(s.regs[r])));
       k <= |wire| && exists cancelAt :: Script(wire[..k], MAX_BUFFER_SIZE, final, cancelAt, sends)
  }

  /** And the i-th of the `Accept` calls in `calls` took a request. */
  ghost predicate Accepted(s: F.State, r: nat, k: nat, final: StreamEnd, sends: seq<Send>, calls: seq<L.Step>, i: nat) {
    && Arrived(s, r, k, final, sends)
    && i < |L.Run(L.Init(sends), calls).accepts| && L.Run(L.Init(sends), calls).accepts[i].CallBack?
  }

  lemma FromQueue(s: F.State, r: nat, k: nat, final: StreamEnd, sends: seq<Send>, calls: seq<L.Step>, i: nat)
    requires FI.Inv(s) && Accepted(s, r, k, final, sends, calls, i)
    ensures var l, g := L.Run(L.Init(sends), calls), s.regs[r];
            && FI.Increasing(F.Attempts(g)) && FI.Below(F.Attempts(g), |g.log|) && i < |F.Attempts(g)|
            && (forall j :: 0 <= j <= i ==>
                  && g.log[F.Attempts(g)[j]] < |s.clients|
                  && s.clients[g.log[F.Attempts(g)[j]]].ticket == Some(F.Ticket(r, F.Attempts(g)[j]))
                  && l.accepts[j] == L.CallBack(s.clients[g.log[F.Attempts(g)[j]]].msg.Clean()))
  {
    hide L.Run, Stream, FI.LockInv, FI.MapInv, FI.PinInv, FI.VerdictInv, FI.AnswerInv, FI.RouteInv, F.Attempts,
        Messages, Script;
    var g := s.regs[r];
    FI.RegOf(s, r);
    AttemptsIncrease(g);
    MessagesShape(s, g, F.Attempts(g));
    var wire := Stream(Messages(s, g, F.Attempts(g)));
    var cancelAt :| Script(wire[..k], MAX_BUFFER_SIZE, final, cancelAt, sends);
    AcceptedInOrder(Messages(s, g, F.Attempts(g)), k, final, cancelAt, sends, calls, i);
    forall j | 0 <= j <= i
      ensures g.log[F.Attempts(g)[j]] < |s.clients|
      ensures s.clients[g.log[F.Attempts(g)[j]]].ticket == Some(F.Ticket(r, F.Attempts(g)[j]))
      ensures Messages(s, g, F.Attempts(g))[j] == s.clients[g.log[F.Attempts(g)[j]]].msg
    {
      assert s.clients[g.log[F.Attempts(g)[j]]].ticket == Some(F.Ticket(r, F.Attempts(g)[j]));
    }
  }

  /** End to end, for one registration: in every run of the relay, for every amount of its event stream that
      arrives, every chunking and every schedule of calls, the i-th request that `Accept` takes is the one
      at the i-th attempted queue position, and attempted positions increase. So requests are taken in the order
      in which they were enqueued, none twice; with valid text, unaltered. */
  lemma QueueToAccept(steps: seq<F.Step>, r: nat, k: nat, final: StreamEnd, sends: seq<Send>, calls: seq<L.Step>,
      i: nat)
    requires Accepted(F.Run(F.Init, steps), r, k, final, sends, calls, i)
    ensures var s, l := F.Run(F.Init, steps), L.Run(L.Init(sends), calls);
            var g := s.regs[r];
            && FI.Increasing(F.Attempts(g)) && FI.Below(F.Attempts(g), |g.log|) && i < |F.Attempts(g)|
            && (forall j :: 0 <= j <= i ==>
                  && g.log[F.Attempts(g)[j]] < |s.clients|
                  && l.accepts[j] == L.CallBack(s.clients[g.log[F.Attempts(g)[j]]].msg.Clean()))
  {
    hide F.Run, F.Init, L.Run, FI.Inv, Stream, F.Attempts, Messages, Script, FI.Increasing, FI.Below;
    FT.Reached(steps);
    FromQueue(F.Run(F.Init, steps), r, k, final, sends, calls, i);
  }

  /** Every client's request is valid text, as everything is that comes out of a JSON decoder. */
  predicate AllValid(s: F.State) {
    forall c :: 0 <= c < |s.clients| ==> s.clients[c].msg.IsValid()
  }

  /** And unaltered, byte for byte, from the dial handler to the caller of `Accept`. */
  lemma DialToAccept(steps: seq<F.Step>, r: nat, k: nat, final: StreamEnd, sends: seq<Send>, calls: seq<L.Step>, i: nat)
    requires AllValid(F.Run(F.Init, steps)) && Accepted(F.Run(F.Init, steps), r, k, final, sends, calls, i)
    ensures var s, l := F.Run(F.Init, steps), L.Run(L.Init(sends), calls);
            var g := s.regs[r];
            && i < |F.Attempts(g)| && F.Attempts(g)[i] < |g.log| && g.log[F.Attempts(g)[i]] < |s.clients|
            && l.accepts[i] == L.CallBack(s.clients[g.log[F.Attempts(g)[i]]].msg)
  {
    QueueToAccept(steps, r, k, final, sends, calls, i);
    hide F.Run, L.Run, Stream, F.Attempts, Messages, Script, Request.Clean, Request.IsValid;
    var s := F.Run(F.Init, steps);
    RoundTrip(s.clients[s.regs[r].log[F.Attempts(s.regs[r])[i]]].msg);
  }

  // ------------------------------------------------------- and back again

  /** The client whose request the i-th `Accept` took. */
  function AcceptedClient(s: F.State, r: nat, i: nat): nat {
    if r < |s.regs| && i < |F.Attempts(s.regs[r])| then F.ClientAt(s.regs[r], F.Attempts(s.regs[r])[i]) else 0
  }

  /** A request taken by `Accept` is its client's, names the registration's own id, and calling back with its ids
      is a callback caused by that client's event. */
  lemma AcceptedCallsBack(steps: seq<B.Step>, r: nat, k: nat, final: StreamEnd, sends: seq<Send>, calls: seq<L.Step>,
      i: nat)
    requires var w := B.Run(B.Init, steps); AllValid(w.f) && Accepted(w.f, r, k, final, sends, calls, i)
    ensures var w := B.Run(B.Init, steps);
            var c, request := AcceptedClient(w.f, r, i), L.Run(L.Init(sends), calls).accepts[i].request;
            && c < |w.f.clients| && request == w.f.clients[c].msg && request.serverId == w.f.regs[r].id
            && (request.clientId != "" ==> B.Enabled(w, B.CallBack(Some(c), request.clientId, w.f.regs[r].id)))
  {
    hide B.Run, B.Init, L.Run, RI.Inv, B.Linked, B.Caused, Stream, Messages, Script, Request.Clean, Request.IsValid;
    B.Reached(steps);
    var w := B.Run(B.Init, steps);
    FromQueue(w.f, r, k, final, sends, calls, i);
    var c := AcceptedClient(w.f, r, i);
    RoundTrip(w.f.clients[c].msg);
    FI.RegOf(w.f, r);
    hide FI.LockInv, FI.MapInv, FI.PinInv, FI.RegsInv, FI.TicketInv, FI.VerdictInv, FI.AnswerInv;
    AttemptSent(w.f, r, i);
  }

  lemma AttemptSent(s: F.State, r: nat, i: nat)
    requires r < |s.regs| && i < |F.Attempts(s.regs[r])| && AcceptedClient(s, r, i) < |s.clients|
    requires s.clients[AcceptedClient(s, r, i)].ticket == Some(F.Ticket(r, F.Attempts(s.regs[r])[i]))
    ensures B.EventSent(s, AcceptedClient(s, r, i), s.regs[r].id)
  {
  }

  lemma {:induction false} CausesStay(w: B.World, steps: seq<B.Step>)
    ensures w.causes <= B.Run(w, steps).causes
    decreases |steps|
  {
    hide B.Enabled, F.Apply, R.Apply;
    if steps != [] {
      CausesStay(B.Next(w, steps[0]), steps[1..]);
    }
  }

  lemma CausesCounted(steps: seq<B.Step>)
    ensures |B.Run(B.Init, steps).causes| == |B.Run(B.Init, steps).r.calls|
  {
    hide B.Run, B.Init, FI.Inv, RI.Inv;
    B.Reached(steps);
  }

  /** The whole way round. A request is taken by `Accept` and answered with a callback that names its ids. Whoever
      is united with that callback, in any continuation in which live keys stay distinct, is the client whose
      request it was, or came under the same key after that client had left; and if neither's server id is a
      proper suffix of the other's, under the same ids. */
  lemma RoundTheRelay(steps: seq<B.Step>, r: nat, k: nat, final: StreamEnd, sends: seq<Send>, calls: seq<L.Step>,
      i: nat, more: seq<B.Step>, d: nat)
    requires var w := B.Run(B.Init, steps);
             && AllValid(w.f) && Accepted(w.f, r, k, final, sends, calls, i)
             && L.Run(L.Init(sends), calls).accepts[i].request.clientId != ""
    requires var w, request := B.Run(B.Init, steps), L.Run(L.Init(sends), calls).accepts[i].request;
             var c := AcceptedClient(w.f, r, i);
             var all := steps + [B.CallBack(Some(c), request.clientId, request.serverId)] + more;
             && (forall n :: 0 <= n <= |all| ==> RT.DistinctLive(B.Run(B.Init, all[..n]).r))
             && d < |B.Run(B.Init, all).r.clients| && B.Run(B.Init, all).r.clients[d].joined == Some(|w.r.calls|)
    ensures var w, request := B.Run(B.Init, steps), L.Run(L.Init(sends), calls).accepts[i].request;
            var c := AcceptedClient(w.f, r, i);
            var u := B.Run(B.Init, steps + [B.CallBack(Some(c), request.clientId, request.serverId)] + more).r;
            && c < |u.clients| && (d == c || B.Departed(u.clients[c].pc))
            && (!RT.ProperSuffix(u.clients[c].serverId, u.clients[d].serverId)
                && !RT.ProperSuffix(u.clients[d].serverId, u.clients[c].serverId) ==>
                  u.clients[d].clientId == u.clients[c].clientId && u.clients[d].serverId == u.clients[c].serverId)
  {
    hide Runs.Run, B.Init, L.Run, Stream, Messages, Script, AcceptedClient, AllValid, RT.DistinctLive,
        RT.ProperSuffix, B.Departed, B.Enabled;
    AcceptedCallsBack(steps, r, k, final, sends, calls, i);
    CausesCounted(steps);
    var w, request := B.Run(B.Init, steps), L.Run(L.Init(sends), calls).accepts[i].request;
    var c := AcceptedClient(w.f, r, i);
    var call := B.CallBack(Some(c), request.clientId, request.serverId);
    Runs.RunAppend(B.Next, B.Init, steps, call);
    Runs.RunConcat(B.Next, B.Init, steps + [call], more);
    CausesStay(B.Run(B.Init, steps + [call]), more);
    var all := steps + [call] + more;
    B.CallbackUnitesItsClient(all, |w.r.calls|, d);
    var u := B.Run(B.Init, all).r;
    if !RT.ProperSuffix(u.clients[c].serverId, u.clients[d].serverId)
        && !RT.ProperSuffix(u.clients[d].serverId, u.clients[c].serverId) {
      SameKeySameIds(u.clients[c], u.clients[d]);
    }
  }

  lemma SameKeySameIds(k: R.Client, l: R.Client)
    requires R.ClientKey(k) == R.ClientKey(l)
    requires !RT.ProperSuffix(k.serverId, l.serverId) && !RT.ProperSuffix(l.serverId, k.serverId)
    ensures k.clientId == l.clientId && k.serverId == l.serverId
  {
    if |k.serverId| <= |l.serverId| {
      RT.ConcatSplit(k.clientId, k.serverId, l.clientId, l.serverId);
    } else {
      RT.ConcatSplit(l.clientId, l.serverId, k.clientId, k.serverId);
    }
  }

  lemma MessagesShape(s: F.State, g: F.Reg, ps: seq<nat>)
    ensures |Messages(s, g, ps)| == |ps|
    ensures forall j :: 0 <= j < |ps| ==> Messages(s, g, ps)[j] == MessageAt(s, g, ps[j])
  {
  }

  // ------------------------------------------------------- failed writes

  lemma {:induction false} CompleteBefore(rs: seq<Request>, ts: seq<Request>, k: nat)
    requires k < |Stream(rs)| || (ts != [] && k < |Stream(rs)| + |Lines(ts[0])|)
    ensures Complete(rs + ts, k) <= |rs|
  {
    hide Lines, Marshal;
    if rs == [] {
      assert rs + ts == ts;
    } else {
      assert (rs + ts)[0] == rs[0] && (rs + ts)[1..] == rs[1..] + ts;
      if k >= |Marshal(rs[0])| {
        CompleteBefore(rs[1..], ts, k - |Marshal(rs[0])|);
      }
    }
  }

  lemma {:induction false} CompleteAll(rs: seq<Request>, failed: Request, k: nat)
    requires k >= |Stream(rs)| + |Lines(failed)|
    ensures Complete(rs + [failed], k) == |rs| + 1
  {
    hide Lines, Marshal;
    var all := rs + [failed];
    if rs == [] {
      assert all == [failed] && all[1..] == [];
    } else {
      assert all[0] == rs[0] && all[1..] == rs[1..] + [failed];
      LinesInMarshal(rs[0]);
      CompleteAll(rs[1..], failed, k - |Marshal(rs[0])|);
    }
  }

  /** Of a stream of fitting events the last is delivered exactly if all its lines got through. */
  lemma LastDelivered(rs: seq<Request>, last: Request, k: nat, final: StreamEnd, edge: bool)
    requires forall j :: 0 <= j < |rs| ==> Fits(rs[j], MAX_BUFFER_SIZE)
    requires Fits(last, MAX_BUFFER_SIZE) && k <= |Stream(rs + [last])|
    ensures var d := Deliver(Stream(rs + [last])[..k], MAX_BUFFER_SIZE, final, edge).0;
            |d| <= |rs| + 1 && (|d| > |rs| <==> k >= |Stream(rs)| + |Lines(last)|)
  {
    hide Lines, Marshal, Deliver, Fits;
    CutStream(rs + [last], k, MAX_BUFFER_SIZE, final, edge);
    if k >= |Stream(rs)| + |Lines(last)| {
      CompleteAll(rs, last, k);
    } else {
      CompleteBefore(rs, [last], k);
    }
  }

  /** The goroutine's last send is the end of the stream, so no cancellation kept a request back. */
  predicate SentAll(sends: seq<Send>) {
    sends != [] && sends[|sends| - 1].ToHandling?
  }

  lemma LastAccepted(rs: seq<Request>, last: Request, k: nat, final: StreamEnd, cancelAt: Option<nat>,
      sends: seq<Send>, calls: seq<L.Step>, i: nat)
    requires forall j :: 0 <= j < |rs| ==> Fits(rs[j], MAX_BUFFER_SIZE)
    requires Fits(last, MAX_BUFFER_SIZE) && k <= |Stream(rs + [last])|
    requires Script(Stream(rs + [last])[..k], MAX_BUFFER_SIZE, final, cancelAt, sends)
    requires i < |L.Run(L.Init(sends), calls).accepts|
    ensures var result, through := L.Run(L.Init(sends), calls).accepts[i], k >= |Stream(rs)| + |Lines(last)|;
            && (result.CallBack? ==> i < |rs| || (i == |rs| && through))
            && (i == |rs| && SentAll(sends) ==> (result.CallBack? <==> through))
  {
    hide Stream, Deliver, L.Run, Lines, Fits;
    var p := Stream(rs + [last])[..k];
    var edge :| sends == Sent(Deliver(p, MAX_BUFFER_SIZE, final, edge).0, Deliver(p, MAX_BUFFER_SIZE, final, edge).1,
        cancelAt);
    var d := Deliver(p, MAX_BUFFER_SIZE, final, edge);
    LastDelivered(rs, last, k, final, edge);
    L.AcceptSequence(d.0, d.1, cancelAt, sends, calls, i);
  }

  lemma MessagesAppend(s: F.State, g: F.Reg, ps: seq<nat>, pos: nat)
    ensures Messages(s, g, ps + [pos]) == Messages(s, g, ps) + [MessageAt(s, g, pos)]
  {
  }

  /** A write of registration `r` has failed. In every run of the relay, `Accept` takes nothing beyond the requests
      written before, except the one whose write failed, and only if all its lines have arrived; if they have,
      the `Accept` whose turn it is takes it, unless a cancellation comes first. */
  lemma FailedWriteAccepted(steps: seq<F.Step>, r: nat, k: nat, final: StreamEnd, sends: seq<Send>, calls: seq<L.Step>,
      i: nat)
    requires var s := F.Run(F.Init, steps);
             && Arrived(s, r, k, final, sends) && s.regs[r].broken.Some?
             && forall pos :: pos in F.Attempts(s.regs[r]) ==> Fits(MessageAt(s, s.regs[r], pos), MAX_BUFFER_SIZE)
    requires i < |L.Run(L.Init(sends), calls).accepts|
    ensures var s, result := F.Run(F.Init, steps), L.Run(L.Init(sends), calls).accepts[i];
            var g := s.regs[r];
            var through := k >= |Stream(Messages(s, g, g.wrote))| + |Lines(MessageAt(s, g, g.broken.value))|;
            && (result.CallBack? ==> i < |g.wrote| || (i == |g.wrote| && through))
            && (i == |g.wrote| && SentAll(sends) ==> (result.CallBack? <==> through))
  {
    hide F.Run, F.Init, L.Run, Stream, Script, Fits, Lines, MessageAt, SentAll;
    var s := F.Run(F.Init, steps);
    var g := s.regs[r];
    MessagesAppend(s, g, g.wrote, g.broken.value);
    MessagesShape(s, g, g.wrote);
    assert F.Attempts(g) == g.wrote + [g.broken.value];
    var wire := Stream(Messages(s, g, F.Attempts(g)));
    var cancelAt :| Script(wire[..k], MAX_BUFFER_SIZE, final, cancelAt, sends);
    LastAccepted(Messages(s, g, g.wrote), MessageAt(s, g, g.broken.value), k, final, cancelAt, sends, calls, i);
  }

  /** What `Accept` takes and what the client is told agree, but for that one request: the client of an accepted
      request that has got a verdict was told that it was passed exactly if its write did not fail. */
  lemma AcceptedVerdict(steps: seq<F.Step>, r: nat, k: nat, final: StreamEnd, sends: seq<Send>, calls: seq<L.Step>,
      i: nat)
    requires Accepted(F.Run(F.Init, steps), r, k, final, sends, calls, i)
    ensures var s := F.Run(F.Init, steps);
            var c := AcceptedClient(s, r, i);
            && c < |s.clients|
            && (s.clients[c].results != [] ==> (s.clients[c].results[0] == F.NotePassed <==> i < |s.regs[r].wrote|))
  {
    hide F.Run, F.Init, L.Run, FI.Inv, Stream, Script, Messages, F.Attempts, FI.Increasing;
    var s := F.Run(F.Init, steps);
    FT.Reached(steps);
    FromQueue(s, r, k, final, sends, calls, i);
    var c, pos := AcceptedClient(s, r, i), F.Attempts(s.regs[r])[i];
    assert c == s.regs[r].log[pos] && s.clients[c].ticket == Some(F.Ticket(r, pos));
    FT.FirstVerdict(s, c);
    AttemptWritten(s.regs[r], i);
  }

  lemma AttemptWritten(g: F.Reg, i: nat)
    requires FI.Increasing(F.Attempts(g)) && i < |F.Attempts(g)|
    ensures F.Attempts(g)[i] in g.wrote <==> i < |g.wrote|
  {
    assert forall j :: 0 <= j < |g.wrote| ==> g.wrote[j] == F.Attempts(g)[j];
  }
}
