/** The relay as a whole: a client's dial handler registers it as waiting, has its request forwarded, and
    then waits for the callback, so the forwarding and the rendezvous systems run side by side and meet in
    that handler. Client `c` of one is client `c` of the other. */
module Broker {
  import opened Options
  import opened Json
  import F = Forwarding
  import FI = ForwardingInv
  import FT = ForwardingTheorems
  import R = Rendezvous
  import RI = RendezvousInv
  import RT = RendezvousTheorems
  import Runs

  /** `causes[b]` names the client whose event made its reader send callback `b`, for callbacks sent that way. */
  datatype World = World(f: F.State, r: R.State, causes: seq<Option<nat>>)

  const Init := World(F.Init, R.Init, [])

  datatype Step =
    | Dial(msg: Request)                                              // a client connects
    | CallBack(cause: Option<nat>, clientId: string, serverId: string) // a server calls back, or anyone pretends to
    | Forward(client: nat)                                            // the dial handler calls NotifyListeningServer
    | Report(client: nat)                                             // and gets back its outcome
    | Forwarding(fstep: F.Step)
    | Rendezvous(rstep: R.Step)

  /** The event of client `c`'s request was written without error on the stream of a registration for `serverId`. */
  predicate EventWritten(f: F.State, c: nat, serverId: string) {
    && c < |f.clients| && f.clients[c].ticket.Some?
    && var t := f.clients[c].ticket.value;
       t.reg < |f.regs| && t.pos in f.regs[t.reg].wrote && f.regs[t.reg].id == serverId
  }

  /** The server `serverId` may have read the event of client `c`'s request: it was written, or its write is
      still going on, or the write failed but may have got its lines through. */
  predicate EventSent(f: F.State, c: nat, serverId: string) {
    && c < |f.clients| && f.clients[c].ticket.Some?
    && var t := f.clients[c].ticket.value;
       && t.reg < |f.regs| && f.regs[t.reg].id == serverId
       && var g := f.regs[t.reg];
          t.pos in g.wrote || g.broken == Some(t.pos) || g.handler == F.Writing(t.pos)
  }

  predicate Answered(pc: F.ClientPc) {
    pc.Answered? || pc.NotFound?
  }

  predicate Passed(pc: F.ClientPc) {
    pc == F.Answered(F.NotePassed)
  }

  predicate Enabled(w: World, step: Step) {
    match step
    case Dial(_) => true
    case CallBack(cause, client, server) =>
      && R.Enabled(w.r, R.CallIn(client, server))
      && (cause.Some? ==> EventSent(w.f, cause.value, server) && w.f.clients[cause.value].msg.clientId == client)
    case Forward(c) => c < |w.r.clients| && w.r.clients[c].pc == R.Asking && F.Enabled(w.f, F.Notify(c))
    case Report(c) => c < |w.r.clients| && w.r.clients[c].pc == R.Asking && c < |w.f.clients|
        && Answered(w.f.clients[c].pc)
    case Forwarding(s) => !s.Dial? && !s.Notify? && F.Enabled(w.f, s)
    case Rendezvous(s) => !s.DialIn? && !s.CallIn? && !s.Verdict? && R.Enabled(w.r, s)
  }

  function Apply(w: World, step: Step): World
    requires Enabled(w, step)
  {
    match step
    case Dial(msg) => w.(f := F.Apply(w.f, F.Dial(msg)), r := R.Apply(w.r, R.DialIn(msg.clientId, msg.serverId)))
    case CallBack(cause, client, server) =>
      w.(r := R.Apply(w.r, R.CallIn(client, server)), causes := w.causes + [cause])
    case Forward(c) => w.(f := F.Apply(w.f, F.Notify(c)))
    case Report(c) => w.(r := R.Apply(w.r, R.Verdict(c, Passed(w.f.clients[c].pc))))
    case Forwarding(s) => w.(f := F.Apply(w.f, s))
    case Rendezvous(s) => w.(r := R.Apply(w.r, s))
  }

  /** A step that is not enabled when its turn comes is passed over. */
  function Next(w: World, step: Step): World {
    if Enabled(w, step) then Apply(w, step) else w
  }

  /** The state after a schedule. */
  function Run(w: World, steps: seq<Step>): World {
    Runs.Run(Next, w, steps)
  }

  // ------------------------------------------------------- what every step keeps

  /** The client is not in the map of waiting clients yet. */
  predicate Early(pc: R.ClientPc) {
    pc.Start? || pc.AddPending? || pc.Adding?
  }

  /** The client has taken itself out of the map. */
  predicate Departed(pc: R.ClientPc) {
    pc.Removed? || pc.Draining? || pc.Drained? || pc.Gone?
  }

  /** Only a client that was told its request was passed gets this far. */
  predicate Expecting(pc: R.ClientPc) {
    pc.Waiting? || pc.Took? || pc.Joined? || pc.Refusing?
  }

  /** The client's call of NotifyListeningServer has ended. */
  predicate Told(pc: R.ClientPc) {
    !Early(pc) && !pc.Added? && !pc.Asking?
  }

  ghost predicate Linked(w: World) {
    && |w.f.clients| == |w.r.clients|
    && (forall c :: 0 <= c < |w.r.clients| ==>
          var k, m := w.r.clients[c], w.f.clients[c];
          && k.clientId == m.msg.clientId && k.serverId == m.msg.serverId
          && (Early(k.pc) || k.pc.Added? ==> m.pc.Idle?)
          && (Told(k.pc) ==> Answered(m.pc))
          && (Expecting(k.pc) || k.joined.Some? ==> Passed(m.pc)))
  }

  ghost predicate Caused(w: World) {
    && |w.causes| == |w.r.calls|
    && (forall b :: 0 <= b < |w.causes| && w.causes[b].Some? ==>
          var c := w.causes[b].value;
          && c < |w.r.clients| && !Early(w.r.clients[c].pc)
          && R.CallKey(w.r.calls[b]) == R.ClientKey(w.r.clients[c]))
  }

  ghost predicate Inv(w: World) {
    FI.Inv(w.f) && RI.Inv(w.r) && Linked(w) && Caused(w)
  }

  ghost predicate Stays(s: F.State, t: F.State) {
    && |t.clients| == |s.clients|
    && forall c :: 0 <= c < |s.clients| ==>
         && t.clients[c].msg == s.clients[c].msg
         && (s.clients[c].pc.Idle? ==> t.clients[c].pc.Idle?)
         && (Answered(s.clients[c].pc) ==> t.clients[c].pc == s.clients[c].pc)
  }

  lemma ClientsStay(s: F.State, c: nat)
    requires F.ClientCanMove(s, c)
    ensures Stays(s, F.ClientMoved(s, c))
  {
  }

  /** What a forwarding step leaves alone. */
  lemma ForwardingKeeps(s: F.State, step: F.Step)
    requires F.Enabled(s, step) && !step.Dial? && !step.Notify?
    ensures Stays(s, F.Apply(s, step))
  {
    hide F.ClientMoved, F.HandlerMoved, F.CleanupMoved;
    match step
    case ClientMove(c) => ClientsStay(s, c);
    case HandlerMove(r, ok) => FI.HandlerShape(s, r, ok);
    case CleanupMove(r) => FI.CleanupShape(s, r);
    case _ =>
  }

  /** How far a client's dial handler may get in one step of its own. */
  predicate Follows(k: R.Client, l: R.Client) {
    && l.clientId == k.clientId && l.serverId == k.serverId
    && (Early(l.pc) ==> Early(k.pc)) && (l.pc.Added? ==> Early(k.pc) || k.pc.Added?)
    && (Told(l.pc) ==> Told(k.pc))
    && (Expecting(l.pc) || l.joined.Some? ==> Expecting(k.pc) || k.joined.Some?)
  }

  lemma ClientFollows(s: R.State, c: nat, ok: bool)
    requires R.ClientCanMove(s, c)
    ensures Follows(s.clients[c], R.ClientMoved(s, c, ok).clients[c])
  {
    hide R.SetPlace, R.Take;
    if s.clients[c].pc.Waiting? || s.clients[c].pc.Draining? || s.clients[c].pc.Refusing? || s.clients[c].pc.Drained? {
      SocketFollows(s, c, ok);
    }
  }

  /** The moves that also touch a socket. */
  lemma SocketFollows(s: R.State, c: nat, ok: bool)
    requires R.ClientCanMove(s, c)
    requires var pc := s.clients[c].pc; pc.Waiting? || pc.Draining? || pc.Refusing? || pc.Drained?
    ensures Follows(s.clients[c], R.ClientMoved(s, c, ok).clients[c])
  {
  }

  ghost predicate AllFollow(s: R.State, t: R.State) {
    && |t.clients| == |s.clients| && |t.calls| == |s.calls|
    && (forall c :: 0 <= c < |s.clients| ==> Follows(s.clients[c], t.clients[c]))
    && (forall b :: 0 <= b < |s.calls| ==> R.CallKey(t.calls[b]) == R.CallKey(s.calls[b]))
  }

  lemma CallsFollow(s: R.State, b: nat, ok: bool)
    requires R.CallCanMove(s, b)
    ensures AllFollow(s, R.CallMoved(s, b, ok))
  {
  }

  /** What a rendezvous step leaves alone. */
  lemma RendezvousKeeps(s: R.State, step: R.Step)
    requires R.Enabled(s, step) && !step.DialIn? && !step.CallIn? && !step.Verdict?
    ensures AllFollow(s, R.Apply(s, step))
  {
    hide R.ClientMoved, R.CallMoved;
    if step.ClientMove? {
      RI.ClientShape(s, step.client, step.hijackOk);
      ClientFollows(s, step.client, step.hijackOk);
    } else if step.CallMove? {
      CallsFollow(s, step.call, step.hijackOk);
    }
  }

  lemma StepKeepsParts(w: World, step: Step)
    requires Inv(w) && Enabled(w, step)
    ensures FI.Inv(Apply(w, step).f) && RI.Inv(Apply(w, step).r)
  {
    hide FI.Inv, RI.Inv, F.Apply, R.Apply;
    match step
    case Dial(msg) =>
      FI.StepKeepsInv(w.f, F.Dial(msg));
      RI.StepKeepsInv(w.r, R.DialIn(msg.clientId, msg.serverId));
    case CallBack(cause, client, server) => RI.StepKeepsInv(w.r, R.CallIn(client, server));
    case Forward(c) => FI.StepKeepsInv(w.f, F.Notify(c));
    case Report(c) => RI.StepKeepsInv(w.r, R.Verdict(c, Passed(w.f.clients[c].pc)));
    case Forwarding(s) => FI.StepKeepsInv(w.f, s);
    case Rendezvous(s) => RI.StepKeepsInv(w.r, s);
  }

  lemma StepKeepsLinks(w: World, step: Step)
    requires Linked(w) && Caused(w) && Enabled(w, step)
    requires step.CallBack? ==> FI.Inv(w.f)
    ensures Linked(Apply(w, step)) && Caused(Apply(w, step))
  {
    hide FI.LockInv, FI.MapInv, FI.PinInv, FI.RegsInv, FI.VerdictInv, FI.AnswerInv;
    match step
    case Forwarding(s) =>
      ForwardingKeeps(w.f, s);
      hide F.Apply, F.Enabled;
    case Rendezvous(s) =>
      RendezvousKeeps(w.r, s);
      hide R.Apply, R.Enabled;
    case _ =>
  }

  lemma StepKeepsInv(w: World, step: Step)
    requires Inv(w) && Enabled(w, step)
    ensures Inv(Apply(w, step))
  {
    hide FI.Inv, RI.Inv, Linked, Caused, Apply;
    StepKeepsParts(w, step);
    StepKeepsLinks(w, step);
  }

  lemma InitInv()
    ensures Inv(Init)
  {
    FT.InitInv();
    RT.InitInv();
    hide FI.Inv, RI.Inv;
  }

  lemma {:induction false} RunKeepsInv(w: World, steps: seq<Step>)
    requires Inv(w)
    ensures Inv(Run(w, steps))
    decreases |steps|
  {
    hide Inv, Enabled, Apply;
    if steps != [] {
      if Enabled(w, steps[0]) {
        StepKeepsInv(w, steps[0]);
        RunKeepsInv(Apply(w, steps[0]), steps[1..]);
      } else {
        RunKeepsInv(w, steps[1..]);
      }
    }
  }

  lemma Reached(steps: seq<Step>)
    ensures Inv(Run(Init, steps))
  {
    hide Inv, Run, Init;
    InitInv();
    RunKeepsInv(Init, steps);
  }

  // ------------------------------------------------------- over whole runs

  /** A client is only ever united with a callback after its event was written to the server it asked for. */
  lemma UnitedOnlyIfForwarded(steps: seq<Step>, c: nat)
    requires var w := Run(Init, steps); c < |w.r.clients| && w.r.clients[c].joined.Some?
    ensures var w := Run(Init, steps); EventWritten(w.f, c, w.r.clients[c].serverId)
  {
    hide Run, Init, RI.Inv, Caused, FI.LockInv, FI.MapInv, FI.PinInv, FI.TicketInv, FI.VerdictInv, FI.RegsInv;
    Reached(steps);
    var w := Run(Init, steps);
    assert Passed(w.f.clients[c].pc);
    FT.FirstVerdict(w.f, c);
  }

  lemma StepComplete(w: World, step: Step)
    requires Inv(w) && RT.Complete(w.r) && Enabled(w, step)
    requires RT.DistinctLive(w.r) && RT.DistinctLive(Apply(w, step).r)
    ensures RT.Complete(Apply(w, step).r)
  {
    hide FI.Inv, RI.Inv, RT.Complete, RT.DistinctLive, R.Apply, F.Apply;
    match step
    case Dial(msg) => RT.StepComplete(w.r, R.DialIn(msg.clientId, msg.serverId));
    case CallBack(cause, client, server) => RT.StepComplete(w.r, R.CallIn(client, server));
    case Report(c) => RT.StepComplete(w.r, R.Verdict(c, Passed(w.f.clients[c].pc)));
    case Rendezvous(s) => RT.StepComplete(w.r, s);
    case _ =>
  }

  lemma {:induction false} RunComplete(steps: seq<Step>)
    requires forall n :: 0 <= n <= |steps| ==> RT.DistinctLive(Run(Init, steps[..n]).r)
    ensures RT.Complete(Run(Init, steps).r)
    decreases |steps|
  {
    assert steps[..|steps|] == steps;
    if steps != [] {
      var n := |steps| - 1;
      assert forall i :: 0 <= i <= n ==> steps[..n][..i] == steps[..i];
      RunComplete(steps[..n]);
      hide Inv, RT.Complete, RT.DistinctLive, Apply, Enabled, Runs.Run, Init;
      Reached(steps[..n]);
      Runs.RunLast(Next, Init, steps);
      var w := Run(Init, steps[..n]);
      if Enabled(w, steps[n]) {
        assert RT.DistinctLive(w.r) && RT.DistinctLive(Apply(w, steps[n]).r);
        StepComplete(w, steps[n]);
      }
    }
  }

  /** Registering before notifying pays off: where live keys are distinct, a callback that was caused by reading
      a client's event, even before the write of that event returns, finds exactly that client in the map,
      unless the client has already left. */
  lemma CallbackFindsItsClient(steps: seq<Step>, b: nat)
    requires forall n :: 0 <= n <= |steps| ==> RT.DistinctLive(Run(Init, steps[..n]).r)
    requires var w := Run(Init, steps); b < |w.causes| && w.causes[b].Some?
    ensures var w := Run(Init, steps);
            var c := w.causes[b].value;
            && b < |w.r.calls| && c < |w.r.clients|
            && (Departed(w.r.clients[c].pc) ||
                (R.CallKey(w.r.calls[b]) in w.r.waiting && w.r.waiting[R.CallKey(w.r.calls[b])] == c))
  {
    hide Run, Init, FI.Inv, RI.Inv, RT.DistinctLive, Linked;
    RunComplete(steps);
    Reached(steps);
    var w := Run(Init, steps);
    assert R.CallKey(w.r.calls[b]) == R.ClientKey(w.r.clients[w.causes[b].value]);
  }

  // ------------------------------------------------------- whom a callback reaches

  /** A callback caused by the event of a client that has not left goes to nobody else. */
  ghost predicate Meant(w: World) {
    && |w.causes| == |w.r.calls|
    && forall b :: 0 <= b < |w.causes| && w.causes[b].Some? ==>
         var k, c := w.r.calls[b], w.causes[b].value;
         && c < |w.r.clients|
         && (!Departed(w.r.clients[c].pc) ==>
               && (k.pc.Found? ==> k.pc.client == c)
               && (k.place.InMailbox? ==> k.place.client == c)
               && (k.takenBy.Some? ==> k.takenBy.value == c))
  }

  lemma DepartedStays(s: R.State, c: nat, ok: bool)
    requires R.ClientCanMove(s, c)
    ensures Departed(s.clients[c].pc) ==> Departed(R.ClientMoved(s, c, ok).clients[c].pc)
  {
  }

  /** What a client's move does to callbacks: at most it takes the one whose socket is in its mailbox. */
  lemma ClientTakes(s: R.State, c: nat, ok: bool)
    requires RI.MailPlaces(s) && R.ClientCanMove(s, c)
    ensures var t := R.ClientMoved(s, c, ok);
            && |t.calls| == |s.calls|
            && forall b :: 0 <= b < |s.calls| ==>
                 && t.calls[b].pc == s.calls[b].pc
                 && (t.calls[b].place.InMailbox? ==> t.calls[b].place == s.calls[b].place)
                 && (t.calls[b].takenBy != s.calls[b].takenBy
                     ==> t.calls[b].takenBy == Some(c) && s.calls[b].place == R.InMailbox(c))
  {
  }

  lemma ClientMeant(w: World, c: nat, ok: bool)
    requires RI.Inv(w.r) && Meant(w) && R.ClientCanMove(w.r, c)
    ensures Meant(w.(r := R.ClientMoved(w.r, c, ok)))
  {
    hide RI.LockInv, RI.MapInv, RI.FoundInv, RI.MailInv, RI.CallPlaces, RI.MailPlaces, RI.HandPlaces, RI.PairInv;
    hide R.ClientMoved, R.ClientCanMove;
    RI.ClientShape(w.r, c, ok);
    ClientTakes(w.r, c, ok);
    DepartedStays(w.r, c, ok);
  }

  /** What a callback's move does: at its lookup it finds the client under its key. */
  lemma CallFinds(s: R.State, b: nat, ok: bool)
    requires R.CallCanMove(s, b)
    ensures var t := R.CallMoved(s, b, ok);
            && |t.calls| == |s.calls| && |t.clients| == |s.clients|
            && (forall c :: 0 <= c < |s.clients| ==> t.clients[c].pc == s.clients[c].pc)
            && (forall d :: 0 <= d < |s.calls| && d != b ==> t.calls[d] == s.calls[d])
            && t.calls[b].takenBy == s.calls[b].takenBy
            && (t.calls[b].pc.Found? && t.calls[b].pc != s.calls[b].pc ==>
                  R.CallKey(s.calls[b]) in s.waiting && t.calls[b].pc.client == s.waiting[R.CallKey(s.calls[b])])
            && (t.calls[b].place.InMailbox? && t.calls[b].place != s.calls[b].place
                ==> s.calls[b].pc == R.Found(t.calls[b].place.client))
  {
  }

  lemma CallMeant(w: World, b: nat, ok: bool)
    requires Caused(w) && RT.Complete(w.r) && Meant(w) && R.CallCanMove(w.r, b)
    ensures Meant(w.(r := R.CallMoved(w.r, b, ok)))
  {
    assert b < |w.r.calls|;
    hide R.CallMoved, R.CallCanMove;
    CallFinds(w.r, b, ok);
    if w.causes[b].Some? && !Departed(w.r.clients[w.causes[b].value].pc) {
      var c := w.causes[b].value;
      assert RI.Live(w.r.clients[c].pc) && w.r.waiting[R.CallKey(w.r.calls[b])] == c;
    }
  }

  /** Steps that move no callback and bring no client back. */
  lemma SameMeant(w: World, u: World)
    requires Meant(w) && u.causes == w.causes && |u.r.calls| == |w.r.calls| && |w.r.clients| <= |u.r.clients|
    requires forall c :: 0 <= c < |w.r.clients| ==> (Departed(w.r.clients[c].pc) ==> Departed(u.r.clients[c].pc))
    requires forall b :: 0 <= b < |w.r.calls| ==>
               var k, l := w.r.calls[b], u.r.calls[b];
               l.pc == k.pc && l.takenBy == k.takenBy && (l.place.InMailbox? ==> l.place == k.place)
    ensures Meant(u)
  {
  }

  lemma StepMeant(w: World, step: Step)
    requires Inv(w) && RT.Complete(w.r) && Meant(w) && Enabled(w, step)
    ensures Meant(Apply(w, step))
  {
    hide FI.Inv, RI.Inv, RT.Complete, F.Apply, R.ClientMoved, R.CallMoved, R.ClientCanMove, R.CallCanMove;
    if step.Rendezvous? && step.rstep.ClientMove? {
      ClientMeant(w, step.rstep.client, step.rstep.hijackOk);
    } else if step.Rendezvous? && step.rstep.CallMove? {
      CallMeant(w, step.rstep.call, step.rstep.hijackOk);
    } else if step.CallBack? {
      CauseKnown(w, step.cause, step.clientId, step.serverId);
    } else {
      hide Meant;
      SameMeant(w, Apply(w, step));
    }
  }

  lemma CauseKnown(w: World, cause: Option<nat>, client: string, server: string)
    requires Linked(w) && Enabled(w, CallBack(cause, client, server))
    ensures cause.Some? ==> cause.value < |w.r.clients|
  {
  }

  lemma {:induction false} RunMeant(steps: seq<Step>)
    requires forall n :: 0 <= n <= |steps| ==> RT.DistinctLive(Run(Init, steps[..n]).r)
    ensures Meant(Run(Init, steps))
    decreases |steps|
  {
    assert steps[..|steps|] == steps;
    if steps != [] {
      var n := |steps| - 1;
      assert forall i :: 0 <= i <= n ==> steps[..n][..i] == steps[..i];
      hide Inv, Meant, RT.Complete, RT.DistinctLive, Apply, Enabled, Runs.Run, Init;
      RunMeant(steps[..n]);
      RunComplete(steps[..n]);
      Reached(steps[..n]);
      Runs.RunLast(Next, Init, steps);
      var w := Run(Init, steps[..n]);
      if Enabled(w, steps[n]) {
        StepMeant(w, steps[n]);
      }
    }
  }

  /** Where live keys are distinct, a callback caused by a client's event is united with that client or, once
      that client has left, with a later one under the same key. */
  lemma CallbackUnitesItsClient(steps: seq<Step>, b: nat, d: nat)
    requires forall n :: 0 <= n <= |steps| ==> RT.DistinctLive(Run(Init, steps[..n]).r)
    requires var w := Run(Init, steps);
             b < |w.causes| && w.causes[b].Some? && d < |w.r.clients| && w.r.clients[d].joined == Some(b)
    ensures var w := Run(Init, steps);
            var c := w.causes[b].value;
            && c < |w.r.clients| && R.ClientKey(w.r.clients[d]) == R.ClientKey(w.r.clients[c])
            && (d == c || Departed(w.r.clients[c].pc))
  {
    hide Run, Init, FI.Inv, RT.DistinctLive, Linked;
    hide RI.LockInv, RI.MapInv, RI.FoundInv, RI.MailInv, RI.CallPlaces, RI.MailPlaces, RI.HandPlaces;
    RunMeant(steps);
    Reached(steps);
    var w := Run(Init, steps);
    assert w.r.calls[b].takenBy == Some(d);
    assert R.CallKey(w.r.calls[b]) == R.ClientKey(w.r.clients[w.causes[b].value]);
  }

  // ------------------------------------------------------- progress of the whole relay

  /** Arrivals, ending connections, time-outs and ending tunnels come from outside; all else is the relay's own move. */
  predicate External(step: Step) {
    match step
    case Dial(_) => true
    case CallBack(_, _, _) => true
    case Forward(_) => false
    case Report(_) => false
    case Forwarding(s) => F.External(s)
    case Rendezvous(s) => R.External(s)
  }

  ghost predicate Quiet(w: World) {
    forall step :: !External(step) ==> !Enabled(w, step)
  }

  /** Every registration is idle or wound up, every callback handled, and every client waits for a callback
      that has not come, is in its tunnel, or has left. */
  ghost predicate Settled(w: World) {
    && (forall r :: 0 <= r < |w.f.regs| ==> FT.RegSettled(w.f.regs[r]))
    && (forall b :: 0 <= b < |w.r.calls| ==> w.r.calls[b].pc == R.CallDone)
    && (forall c :: 0 <= c < |w.r.clients| ==>
          var k := w.r.clients[c];
          (k.pc.Waiting? && k.mailbox.None?) || k.pc.Joined? || k.pc.Gone?)
  }

  lemma QuietParts(w: World)
    ensures Quiet(w) <==>
            && FT.Quiet(w.f) && RT.Quiet(w.r)
            && forall c: nat :: !Enabled(w, Forward(c)) && !Enabled(w, Report(c))
  {
    hide F.Enabled, R.Enabled;
    if Quiet(w) {
      forall s: F.Step | !F.External(s)
        ensures !F.Enabled(w.f, s)
      {
        assert !Enabled(w, Forwarding(s));
      }
      forall s: R.Step | !R.External(s)
        ensures !R.Enabled(w.r, s)
      {
        assert !Enabled(w, Rendezvous(s));
      }
      forall c: nat
        ensures !Enabled(w, Forward(c)) && !Enabled(w, Report(c))
      {
        assert !External(Forward(c)) && !External(Report(c));
      }
    }
  }

  lemma SettledParts(w: World)
    requires Linked(w) && Settled(w)
    ensures FT.Settled(w.f) && RT.Settled(w.r)
  {
    forall c | 0 <= c < |w.f.clients|
      ensures FT.ClientSettled(w.f.clients[c]) && RT.ClientSettled(w.r.clients[c])
    {
      assert Told(w.r.clients[c].pc);
    }
  }

  /** The relay never deadlocks: it comes to rest exactly when everything that can finish has finished. */
  lemma QuietIffSettled(w: World)
    requires Inv(w)
    ensures Quiet(w) <==> Settled(w)
  {
    QuietParts(w);
    FT.QuietIffSettled(w.f);
    RT.QuietIffSettled(w.r);
    hide FI.Inv, RI.Inv, FT.Quiet, RT.Quiet, Caused, Quiet;
    if Settled(w) {
      SettledParts(w);
    }
    if Quiet(w) {
      forall c | 0 <= c < |w.r.clients|
        ensures var k := w.r.clients[c]; (k.pc.Waiting? && k.mailbox.None?) || k.pc.Joined? || k.pc.Gone?
      {
        assert RT.ClientSettled(w.r.clients[c]) && FT.ClientSettled(w.f.clients[c]);
        assert !Enabled(w, Forward(c)) && !Enabled(w, Report(c));
      }
    }
  }

  function Work(w: World): nat {
    FT.Work(w.f) + RT.Work(w.r)
  }

  /** A new client, callback or registration. */
  predicate Arrival(step: Step) {
    step.Dial? || step.CallBack? || (step.Forwarding? && step.fstep.Register?)
  }

  lemma StepsUseWork(w: World, step: Step)
    requires Inv(w) && Enabled(w, step) && !Arrival(step)
    ensures Work(Apply(w, step)) < Work(w)
  {
    hide FI.Inv, RI.Inv, F.Apply, R.Apply, FT.Work, RT.Work;
    match step
    case Forward(c) => FT.NotifyUsesWork(w.f, c);
    case Report(c) => RT.StepsUseWork(w.r, R.Verdict(c, Passed(w.f.clients[c].pc)));
    case Forwarding(ContextDone(r)) => FT.ContextDoneUsesWork(w.f, r);
    case Forwarding(s) => FT.MovesUseWork(w.f, s);
    case Rendezvous(s) => RT.StepsUseWork(w.r, s);
    case _ =>
  }

  function Taken(w: World, steps: seq<Step>): nat
    decreases |steps|
  {
    if steps == [] then 0
    else if Enabled(w, steps[0]) then 1 + Taken(Apply(w, steps[0]), steps[1..])
    else Taken(w, steps[1..])
  }

  /** Once nothing new arrives, no schedule makes more than `Work` steps happen. */
  lemma {:induction false} BoundedWork(w: World, steps: seq<Step>)
    requires Inv(w) && forall i :: 0 <= i < |steps| ==> !Arrival(steps[i])
    ensures Taken(w, steps) + Work(Run(w, steps)) <= Work(w)
    decreases |steps|
  {
    hide Inv, Work, Enabled, Apply;
    if steps != [] {
      if Enabled(w, steps[0]) {
        StepKeepsInv(w, steps[0]);
        StepsUseWork(w, steps[0]);
        BoundedWork(Apply(w, steps[0]), steps[1..]);
      } else {
        BoundedWork(w, steps[1..]);
      }
    }
  }

  /** When the relay has come to rest and no client is waiting or in a tunnel any more, no socket is left open. */
  lemma NothingLeaks(w: World)
    requires Inv(w) && Quiet(w)
    requires forall c :: 0 <= c < |w.r.clients| ==> !w.r.clients[c].pc.Waiting? && !w.r.clients[c].pc.Joined?
    ensures forall b :: 0 <= b < |w.r.calls| && w.r.calls[b].hijacked ==> w.r.calls[b].place == R.Closed
    ensures forall c :: 0 <= c < |w.r.clients| ==> w.r.clients[c].pc == R.Gone && w.r.clients[c].mailbox == None
  {
    QuietIffSettled(w);
    hide FI.Inv, Quiet, RI.LockInv, RI.MapInv, RI.FoundInv, RI.PairInv, Linked, Caused;
  }
}
