/** Runs in which ids or keys collide: what the unconditional map operations and the concatenated keys allow. */
module Collisions {
  import opened Json
  import opened Options
  import B = Broker
  import F = Forwarding
  import FC = ForwardingCalls
  import FI = ForwardingInv
  import FT = ForwardingTheorems
  import R = Rendezvous
  import RC = RendezvousCalls
  import RI = RendezvousInv
  import RT = RendezvousTheorems
  import Runs

  // ------------------------------------------------------- one id registered twice

  /** Two registrations of one id are both advertised, and only the later can be found. */
  lemma RegisteredTwice(id: string) returns (steps: seq<F.Step>)
    requires id != ""
    ensures var s := F.Run(F.Init, steps);
            && s == FC.Registered(FC.Registered(F.Init, id), id)
            && |s.regs| == 2 && s.regs[0].id == id == s.regs[1].id
            && FI.Advertised(s.regs[0]) && FI.Advertised(s.regs[1])
            && s.servers == map[id := 1] && !FT.Complete(s)
  {
    var s1 := FC.Registered(F.Init, id);
    steps := FC.RegisterSteps(F.Init, id) + FC.RegisterSteps(s1, id);
    Runs.RunConcat(F.Next, F.Init, FC.RegisterSteps(F.Init, id), FC.RegisterSteps(s1, id));
    hide Runs.Run, FC.RegisterSteps;
    FC.RegisterAlone(F.Init, id);
    FC.RegisterAlone(s1, id);
    var s := FC.Registered(s1, id);
    assert s.servers == map[id := 1];
    assert FI.Advertised(s.regs[0]);
  }

  /** When the connection of the earlier one ends, its cleanup takes the later one out of the map. */
  lemma RemovesTheOther(id: string) returns (steps: seq<F.Step>)
    requires id != ""
    ensures var s := F.Run(F.Init, steps);
            && |s.regs| == 2 && s.regs[0].id == id == s.regs[1].id
            && s.regs[0].closed && !s.regs[1].ctxDone && FI.Advertised(s.regs[1]) && id !in s.servers
  {
    var both := RegisteredTwice(id);
    var s, end := F.Run(F.Init, both), F.ContextDone(0);
    var ended := s.(regs := s.regs[0 := s.regs[0].(ctxDone := true)]);
    assert F.Next(s, end) == ended;
    var m := Runs.Times(6, F.CleanupMove(0));
    steps := both + [end] + m;
    Runs.RunAppend(F.Next, F.Init, both, end);
    Runs.RunConcat(F.Next, F.Init, both + [end], m);
    hide Runs.Run, Runs.Times, F.Next;
    FC.RemoveAlone(ended, 0);
  }

  // ------------------------------------------------------- two clients under one key

  /** Two clients under one key both wait, and only the later can be found. */
  lemma EnrolledTwice(client1: string, server1: string, client2: string, server2: string) returns (steps: seq<R.Step>)
    requires client1 + server1 == client2 + server2
    ensures var s := R.Run(R.Init, steps);
            && s == RC.Enrolled(RC.Enrolled(R.Init, client1, server1), client2, server2)
            && |s.clients| == 2 && RI.Live(s.clients[0].pc) && RI.Live(s.clients[1].pc)
            && s.waiting == map[client1 + server1 := 1] && !RT.Complete(s)
  {
    var s1 := RC.Enrolled(R.Init, client1, server1);
    steps := RC.EnrollSteps(R.Init, client1, server1) + RC.EnrollSteps(s1, client2, server2);
    Runs.RunConcat(R.Next, R.Init, RC.EnrollSteps(R.Init, client1, server1), RC.EnrollSteps(s1, client2, server2));
    hide Runs.Run, RC.EnrollSteps;
    RC.EnrollAlone(R.Init, client1, server1);
    RC.EnrollAlone(s1, client2, server2);
    var s := RC.Enrolled(s1, client2, server2);
    assert s.waiting == map[client1 + server1 := 1];
    assert RI.Live(s.clients[0].pc) && R.ClientKey(s.clients[0]) == client1 + server1;
  }

  /** When the earlier one leaves, it takes the later one out of the map. */
  lemma LeavesForTheOther(client1: string, server1: string, client2: string, server2: string)
    returns (steps: seq<R.Step>)
    requires client1 + server1 == client2 + server2
    ensures var s := R.Run(R.Init, steps);
            && |s.clients| == 2 && s.clients[0].pc.Gone? && RI.Live(s.clients[1].pc)
            && R.ClientKey(s.clients[1]) == client2 + server2 && client2 + server2 !in s.waiting
  {
    var both := EnrolledTwice(client1, server1, client2, server2);
    var s, told := R.Run(R.Init, both), R.Verdict(0, false);
    var leaving := R.SetPc(s, 0, R.Leaving);
    assert R.Next(s, told) == leaving;
    var m := Runs.Times(6, R.ClientMove(0, true));
    steps := both + [told] + m;
    Runs.RunAppend(R.Next, R.Init, both, told);
    Runs.RunConcat(R.Next, R.Init, both + [told], m);
    hide Runs.Run, Runs.Times, R.Next;
    RC.LeaveAlone(leaving, 0);
  }

  // ------------------------------------------------------- calls in the relay as a whole

  function Forwardings(fs: seq<F.Step>): seq<B.Step> {
    seq(|fs|, i requires 0 <= i < |fs| => B.Forwarding(fs[i]))
  }

  function Rendezvouses(rs: seq<R.Step>): seq<B.Step> {
    seq(|rs|, i requires 0 <= i < |rs| => B.Rendezvous(rs[i]))
  }

  lemma {:induction false} RunForwardings(w: B.World, fs: seq<F.Step>)
    requires forall i :: 0 <= i < |fs| ==> !fs[i].Dial? && !fs[i].Notify?
    ensures B.Run(w, Forwardings(fs)) == w.(f := F.Run(w.f, fs))
    decreases |fs|
  {
    hide F.Enabled, F.Apply;
    if fs != [] {
      assert Forwardings(fs)[1..] == Forwardings(fs[1..]);
      assert B.Next(w, B.Forwarding(fs[0])) == w.(f := F.Next(w.f, fs[0]));
      RunForwardings(B.Next(w, B.Forwarding(fs[0])), fs[1..]);
    }
  }

  lemma {:induction false} RunRendezvouses(w: B.World, rs: seq<R.Step>)
    requires forall i :: 0 <= i < |rs| ==> !rs[i].DialIn? && !rs[i].CallIn? && !rs[i].Verdict?
    ensures B.Run(w, Rendezvouses(rs)) == w.(r := R.Run(w.r, rs))
    decreases |rs|
  {
    hide R.Enabled, R.Apply;
    if rs != [] {
      assert Rendezvouses(rs)[1..] == Rendezvouses(rs[1..]);
      assert B.Next(w, B.Rendezvous(rs[0])) == w.(r := R.Next(w.r, rs[0]));
      RunRendezvouses(B.Next(w, B.Rendezvous(rs[0])), rs[1..]);
    }
  }

  predicate Free(w: B.World) {
    FC.Free(w.f) && RC.Free(w.r) && |w.f.clients| == |w.r.clients| && |w.causes| == |w.r.calls|
  }

  /** A server registers. */
  lemma Register(w: B.World, id: string) returns (steps: seq<B.Step>)
    requires Free(w) && id != ""
    ensures B.Run(w, steps) == w.(f := FC.Registered(w.f, id))
  {
    steps := Forwardings(FC.RegisterSteps(w.f, id));
    RunForwardings(w, FC.RegisterSteps(w.f, id));
    hide Runs.Run;
    FC.RegisterAlone(w.f, id);
  }

  function Dialled(w: B.World, msg: Request): B.World {
    w.(f := w.f.(clients := w.f.clients + [F.Client(msg, F.Idle, None, [], 0)]),
        r := RC.Enrolled(w.r, msg.clientId, msg.serverId))
  }

  /** A client dials and puts itself in the map. */
  lemma Dial(w: B.World, msg: Request) returns (steps: seq<B.Step>)
    requires Free(w)
    ensures B.Run(w, steps) == Dialled(w, msg)
  {
    var moves := Runs.Times(4, R.ClientMove(|w.r.clients|, true));
    var dial, d := B.Dial(msg), R.DialIn(msg.clientId, msg.serverId);
    steps := [dial] + Rendezvouses(moves);
    Runs.RunConcat(B.Next, w, [dial], Rendezvouses(moves));
    Runs.RunOne(B.Next, w, dial);
    RunRendezvouses(B.Next(w, dial), moves);
    Runs.RunConcat(R.Next, w.r, [d], moves);
    Runs.RunOne(R.Next, w.r, d);
    assert B.Next(w, dial).r == R.Next(w.r, d);
    hide Runs.Run, R.Next;
    RC.EnrollAlone(w.r, msg.clientId, msg.serverId);
  }

  /** A client that is about to have its request forwarded to the idle registration `r`. */
  predicate MayForward(w: B.World, c: nat, r: nat) {
    && Free(w) && c < |w.f.clients| && r < |w.f.regs|
    && var k, g := w.f.clients[c], w.f.regs[r];
       && k == F.Client(k.msg, F.Idle, None, [], 0) && w.r.clients[c].pc == R.Asking
       && k.msg.serverId in w.f.servers && w.f.servers[k.msg.serverId] == r
       && g.handler.Looping? && g.head == |g.log| && g.broken.None?
  }

  /** Its event has been written, and it waits for the callback. */
  function PassedOn(w: B.World, c: nat, r: nat): B.World
    requires c < |w.f.clients| && r < |w.f.regs| && c < |w.r.clients|
  {
    var g, k := w.f.regs[r], w.f.clients[c];
    w.(f := w.f.(regs := w.f.regs[r := F.TakeNext(g.(log := g.log + [c]), true).(wrote := g.wrote + [g.head])],
                 clients := w.f.clients[c := k.(pc := F.Answered(F.NotePassed), ticket := Some(F.Ticket(r, g.head)),
                                                results := [F.NotePassed], received := 1)]),
       r := R.SetPc(w.r, c, R.Waiting))
  }

  /** The request taken off the queue again and written, with the verdict sent but not yet received. */
  lemma TakenAndWritten(f: F.State, c: nat, r: nat)
    requires c < |f.clients| && r < |f.regs| && f.clients[c] == F.Client(f.clients[c].msg, F.Idle, None, [], 0)
    requires f.regs[r].handler.Looping? && f.regs[r].head == |f.regs[r].log|
    ensures var f1, g, k := FC.Enqueued(f, c, r), f.regs[r], f.clients[c];
            && FC.HasNext(f1, r)
            && FC.Forwarded(f1, r, true)
            == f.(regs := f.regs[r := F.TakeNext(g.(log := g.log + [c]), true).(wrote := g.wrote + [g.head])],
                  clients := f.clients[c := k.(pc := F.Awaiting, ticket := Some(F.Ticket(r, g.head)),
                      results := [F.NotePassed])])
  {
    var f1, k := FC.Enqueued(f, c, r), f.clients[c];
    assert [] + [F.NotePassed] == [F.NotePassed];
    assert f1.clients[c].results == [];
    assert FC.Forwarded(f1, r, true).clients
        == f.clients[c := k.(pc := F.Awaiting, ticket := Some(F.Ticket(r, f.regs[r].head)), results := [F.NotePassed])];
  }

  lemma PassOnRun(f: F.State, c: nat, r: nat)
    requires FI.Inv(f) && FC.Free(f) && c < |f.clients| && r < |f.regs|
        && f.clients[c] == F.Client(f.clients[c].msg, F.Idle, None, [], 0)
    requires var id, g := f.clients[c].msg.serverId, f.regs[r];
             id in f.servers && f.servers[id] == r && g.handler.Looping? && g.head == |g.log| && g.broken.None?
    ensures var g, k := f.regs[r], f.clients[c];
            && F.Run(f, FC.NotifySteps(c) + Runs.Times(3, F.HandlerMove(r, true)) + [F.ClientMove(c)])
            == f.(regs := f.regs[r := F.TakeNext(g.(log := g.log + [c]), true).(wrote := g.wrote + [g.head])],
                  clients := f.clients[c := k.(pc := F.Answered(F.NotePassed), ticket := Some(F.Ticket(r, g.head)),
                                               results := [F.NotePassed], received := 1)])
  {
    hide FI.Inv, F.Run, F.Next, FC.Forwarded, FC.NotifySteps, Runs.Times;
    var m := Runs.Times(3, F.HandlerMove(r, true));
    var f1 := FC.Enqueued(f, c, r);
    NotifyRun(f, c, r);
    TakenAndWritten(f, c, r);
    assert FC.ForwardSteps(f1, r, true) == m;
    hide FC.Enqueued, FC.ForwardSteps, FC.Free;
    FC.ForwardAlone(f1, r, true);
    RunJoined(f, FC.NotifySteps(c), m, F.ClientMove(c));
    FC.TakesVerdict(FC.Forwarded(f1, r, true), c);
  }

  lemma RunJoined(f: F.State, first: seq<F.Step>, more: seq<F.Step>, last: F.Step)
    ensures F.Run(f, first + more + [last]) == F.Next(F.Run(F.Run(f, first), more), last)
  {
    Runs.RunConcat(F.Next, f, first, more);
    Runs.RunAppend(F.Next, f, first + more, last);
  }

  lemma NotifyRun(f: F.State, c: nat, r: nat)
    requires FI.Inv(f) && FC.Free(f) && c < |f.clients| && f.clients[c].pc.Idle? && r < |f.regs|
        && F.QueueRoom(f.regs[r])
    requires var id := f.clients[c].msg.serverId; id in f.servers && f.servers[id] == r
    ensures F.Run(f, FC.NotifySteps(c)) == FC.Enqueued(f, c, r) && FI.Inv(FC.Enqueued(f, c, r))
  {
    hide FI.Inv, Runs.Run;
    FC.NotifyAlone(f, c);
    FI.RunKeepsInv(f, FC.NotifySteps(c));
  }

  lemma Forward(w: B.World, c: nat, r: nat) returns (steps: seq<B.Step>)
    requires FI.Inv(w.f) && MayForward(w, c, r)
    ensures B.Run(w, steps) == PassedOn(w, c, r)
  {
    var fs := Runs.Times(4, F.ClientMove(c)) + Runs.Times(3, F.HandlerMove(r, true)) + [F.ClientMove(c)];
    steps := [B.Forward(c)] + Forwardings(fs) + [B.Report(c)];
    Runs.RunAppend(B.Next, w, [B.Forward(c)] + Forwardings(fs), B.Report(c));
    Runs.RunConcat(B.Next, w, [B.Forward(c)], Forwardings(fs));
    Runs.RunOne(B.Next, w, B.Forward(c));
    var called := w.(f := F.Next(w.f, F.Notify(c)));
    assert B.Next(w, B.Forward(c)) == called;
    RunForwardings(called, fs);
    Runs.RunConcat(F.Next, w.f, [F.Notify(c)], fs);
    Runs.RunOne(F.Next, w.f, F.Notify(c));
    assert [F.Notify(c)] + fs == FC.NotifySteps(c) + Runs.Times(3, F.HandlerMove(r, true)) + [F.ClientMove(c)];
    hide Runs.Run, F.Next, FI.Inv;
    PassOnRun(w.f, c, r);
    Reports(w.(f := PassedOn(w, c, r).f), c);
  }

  lemma Reports(w: B.World, c: nat)
    requires c < |w.f.clients| && c < |w.r.clients| && w.f.clients[c].pc == F.Answered(F.NotePassed)
        && w.r.clients[c].pc == R.Asking
    ensures B.Next(w, B.Report(c)) == w.(r := R.SetPc(w.r, c, R.Waiting))
  {
  }

  /** A server calls back. */
  lemma CallBack(w: B.World, cause: Option<nat>, clientId: string, serverId: string) returns (steps: seq<B.Step>)
    requires RI.MapInv(w.r) && Free(w) && B.Enabled(w, B.CallBack(cause, clientId, serverId))
    ensures B.Run(w, steps) == w.(r := RC.CalledBack(w.r, clientId, serverId, true), causes := w.causes + [cause])
  {
    var call, i := B.CallBack(cause, clientId, serverId), R.CallIn(clientId, serverId);
    var moves := Runs.Times(6, R.CallMove(|w.r.calls|, true));
    steps := [call] + Rendezvouses(moves);
    Runs.RunConcat(B.Next, w, [call], Rendezvouses(moves));
    Runs.RunOne(B.Next, w, call);
    var u := w.(r := R.Next(w.r, i), causes := w.causes + [cause]);
    assert B.Next(w, call) == u;
    RunRendezvouses(u, moves);
    Runs.RunConcat(R.Next, w.r, [i], moves);
    Runs.RunOne(R.Next, w.r, i);
    hide Runs.Run, R.Next, RI.MapInv;
    RC.CallBackAlone(w.r, clientId, serverId, true);
  }

  /** A waiting client takes the socket in its mailbox. */
  lemma Join(w: B.World, c: nat, b: nat) returns (steps: seq<B.Step>)
    requires c < |w.r.clients| && b < |w.r.calls| && w.r.clients[c].pc.Waiting?
        && w.r.clients[c].mailbox == Some(R.Sock(b))
    ensures B.Run(w, steps) == w.(r := RC.Joined(w.r, c, b))
  {
    var moves := Runs.Times(2, R.ClientMove(c, true));
    steps := Rendezvouses(moves);
    RunRendezvouses(w, moves);
    hide Runs.Run;
    RC.JoinAlone(w.r, c, b);
  }

  lemma Extend(steps: seq<B.Step>, more: seq<B.Step>)
    ensures B.Run(B.Init, steps + more) == B.Run(B.Run(B.Init, steps), more)
    ensures FI.Inv(B.Run(B.Init, steps + more).f) && RI.MapInv(B.Run(B.Init, steps + more).r)
  {
    Runs.RunConcat(B.Next, B.Init, steps, more);
    hide Runs.Run, FI.Inv, B.Linked, B.Caused;
    B.Reached(steps + more);
  }

  // ------------------------------------------------------- one client's callback for another

  /** Client `c`, who asked for (`id1`, `s1`), is in a tunnel to a callback that the event of another client `d`,
      who asked for (`id2`, `s2`), has caused. */
  ghost predicate MixedUp(w: B.World, c: nat, d: nat, id1: string, s1: string, id2: string, s2: string) {
    && c < |w.r.clients| && d < |w.r.clients| && c != d
    && w.r.clients[c].clientId == id1 && w.r.clients[c].serverId == s1
    && w.r.clients[d].clientId == id2 && w.r.clients[d].serverId == s2
    && w.r.clients[c].joined.Some? && w.r.clients[c].joined.value < |w.causes|
    && w.causes[w.r.clients[c].joined.value] == Some(d)
  }

  ghost predicate DistinctThroughout(steps: seq<B.Step>) {
    forall n :: 0 <= n <= |steps| ==> RT.DistinctLive(B.Run(B.Init, steps[..n]).r)
  }

  /** Clients are only added, and whoever has left the map stays out of it. */
  ghost predicate Grows(s: R.State, t: R.State) {
    && |s.clients| <= |t.clients|
    && forall c :: 0 <= c < |s.clients| && B.Departed(s.clients[c].pc) ==> B.Departed(t.clients[c].pc)
  }

  lemma StepGrows(w: B.World, step: B.Step)
    requires B.Enabled(w, step)
    ensures Grows(w.r, B.Apply(w, step).r)
  {
    hide F.Apply, R.ClientMoved, R.CallMoved, R.ClientCanMove, R.CallCanMove;
    if step.Rendezvous? && step.rstep.ClientMove? {
      RI.ClientShape(w.r, step.rstep.client, step.rstep.hijackOk);
      B.DepartedStays(w.r, step.rstep.client, step.rstep.hijackOk);
    } else if step.Rendezvous? && step.rstep.CallMove? {
      B.CallFinds(w.r, step.rstep.call, step.rstep.hijackOk);
    }
  }

  lemma {:induction false} RunGrows(w: B.World, steps: seq<B.Step>)
    ensures Grows(w.r, B.Run(w, steps).r)
    decreases |steps|
  {
    hide B.Enabled, B.Apply;
    if steps != [] {
      var next := B.Next(w, steps[0]);
      if B.Enabled(w, steps[0]) {
        StepGrows(w, steps[0]);
      }
      RunGrows(next, steps[1..]);
    }
  }

  /** With one client until it has left, and one more after that, live keys are distinct throughout. */
  lemma OneAfterTheOther(first: seq<B.Step>, more: seq<B.Step>)
    requires var w := B.Run(B.Init, first); |w.r.clients| == 1 && B.Departed(w.r.clients[0].pc)
    requires |B.Run(B.Init, first + more).r.clients| <= 2
    ensures DistinctThroughout(first + more)
  {
    hide Runs.Run, B.Departed;
    var all := first + more;
    forall n | 0 <= n <= |all|
      ensures RT.DistinctLive(B.Run(B.Init, all[..n]).r)
    {
      var u := B.Run(B.Init, all[..n]);
      if n <= |first| {
        assert all[..n] == first[..n] && first == first[..n] + first[n..];
        Runs.RunConcat(B.Next, B.Init, first[..n], first[n..]);
        RunGrows(u, first[n..]);
      } else {
        assert all[..n] == first + more[..n - |first|] && all == all[..n] + all[n..];
        Runs.RunConcat(B.Next, B.Init, first, more[..n - |first|]);
        RunGrows(B.Run(B.Init, first), more[..n - |first|]);
        Runs.RunConcat(B.Next, B.Init, all[..n], all[n..]);
        RunGrows(u, all[n..]);
        DepartedNotLive(u.r.clients[0].pc);
      }
    }
  }

  lemma DepartedNotLive(pc: R.ClientPc)
    ensures B.Departed(pc) ==> !RI.Live(pc)
  {
  }

  /** A client that waits for its callback gives up and leaves. */
  lemma GiveUp(w: B.World, c: nat) returns (steps: seq<B.Step>)
    requires Free(w) && c < |w.r.clients| && w.r.clients[c].pc.Waiting?
    ensures B.Run(w, steps) == w.(r := RC.Left(R.SetPc(w.r, c, R.Leaving), c))
  {
    var stop, m := B.Rendezvous(R.GiveUp(c)), Runs.Times(6, R.ClientMove(c, true));
    steps := [stop] + Rendezvouses(m);
    Runs.RunConcat(B.Next, w, [stop], Rendezvouses(m));
    Runs.RunOne(B.Next, w, stop);
    var u := w.(r := R.SetPc(w.r, c, R.Leaving));
    assert B.Next(w, stop) == u;
    RunRendezvouses(u, m);
    hide Runs.Run, B.Next;
    RC.LeaveAlone(u.r, c);
  }

  /** The relay when server `s2` has registered, and client 0 has dialled and has been passed on; it still waits
      for its callback, or has left again without it. */
  function FirstAsked(id2: string, s2: string, left: bool): B.World {
    var w := PassedOn(Dialled(B.Init.(f := FC.Registered(F.Init, s2)), Request("", id2, s2)), 0, 0);
    if left then w.(r := RC.Left(R.SetPc(w.r, 0, R.Leaving), 0)) else w
  }

  lemma UntilFirstAsked(id2: string, s2: string, left: bool) returns (steps: seq<B.Step>)
    requires s2 != ""
    ensures B.Run(B.Init, steps) == FirstAsked(id2, s2, left)
    ensures var r := B.Run(B.Init, steps).r; left ==> |r.clients| == 1 && B.Departed(r.clients[0].pc)
  {
    assert var r := FirstAsked(id2, s2, left).r; left ==> |r.clients| == 1 && B.Departed(r.clients[0].pc);
    var w1 := B.Init.(f := FC.Registered(F.Init, s2));
    var w2 := Dialled(w1, Request("", id2, s2));
    var w3 := PassedOn(w2, 0, 0);
    assert MayForward(w2, 0, 0) && Free(w1) && Free(w3);
    hide Runs.Run, FC.Registered, Dialled, PassedOn, Free, MayForward, FI.Inv, RI.MapInv, RC.Left;
    var a := Register(B.Init, s2);
    var b := Dial(w1, Request("", id2, s2));
    Extend(a, b);
    var c := Forward(w2, 0, 0);
    Extend(a + b, c);
    steps := a + b + c;
    if left {
      var d := GiveUp(w3, 0);
      Extend(a + b + c, d);
      steps := a + b + c + d;
    }
  }

  /** Then server `s1`, which may be the same, has registered. */
  function SecondServer(s1: string, id2: string, s2: string, left: bool): B.World {
    var w := FirstAsked(id2, s2, left);
    w.(f := FC.Registered(w.f, s1))
  }

  lemma SecondMayForward(id1: string, s1: string, id2: string, s2: string, left: bool)
    ensures Free(FirstAsked(id2, s2, left)) && Free(SecondServer(s1, id2, s2, left))
    ensures MayForward(Dialled(SecondServer(s1, id2, s2, left), Request("", id1, s1)), 1, 1)
  {
    var w := Dialled(SecondServer(s1, id2, s2, left), Request("", id1, s1));
    assert w.f.servers[s1] == 1;
  }

  /** And client 1 has dialled, has been passed on, and waits. */
  function SecondAsked(id1: string, s1: string, id2: string, s2: string, left: bool): B.World {
    PassedOn(Dialled(SecondServer(s1, id2, s2, left), Request("", id1, s1)), 1, 1)
  }

  lemma UntilSecondAsked(base: seq<B.Step>, id1: string, s1: string, id2: string, s2: string, left: bool)
    returns (more: seq<B.Step>)
    requires s1 != "" && B.Run(B.Init, base) == FirstAsked(id2, s2, left)
    ensures B.Run(B.Init, base + more) == SecondAsked(id1, s1, id2, s2, left)
    ensures RI.MapInv(B.Run(B.Init, base + more).r)
  {
    var w, msg := SecondServer(s1, id2, s2, left), Request("", id1, s1);
    SecondMayForward(id1, s1, id2, s2, left);
    hide Runs.Run, FirstAsked, Dialled, PassedOn, Free, MayForward, FI.Inv, RI.MapInv, FC.Registered;
    var a := Register(FirstAsked(id2, s2, left), s1);
    Extend(base, a);
    var b := Dial(w, msg);
    Extend(base + a, b);
    var c := Forward(Dialled(w, msg), 1, 1);
    Extend(base + a + b, c);
    more := a + b + c;
    assert base + more == base + a + b + c;
  }

  /** Client 1 is the one that a callback for client 0 will find. */
  ghost predicate Mistakable(v: B.World, id1: string, s1: string, id2: string, s2: string, left: bool) {
    && |v.r.clients| == 2 && v.r.calls == [] && v.causes == [] && v.r.waiting == map[id2 + s2 := 1]
    && v.r.clients[0] == R.Client(id2, s2, if left then R.Gone else R.Waiting, None, None)
    && v.r.clients[1] == R.Client(id1, s1, R.Waiting, None, None)
  }

  lemma SecondWaits(id1: string, s1: string, id2: string, s2: string, left: bool)
    requires s2 != "" && id2 != "" && id1 + s1 == id2 + s2
    ensures var w := SecondAsked(id1, s1, id2, s2, left);
            && Free(w) && B.Enabled(w, B.CallBack(Some(0), id2, s2)) && Mistakable(w, id1, s1, id2, s2, left)
  {
    var w := SecondAsked(id1, s1, id2, s2, left);
    assert w.f.clients[0].ticket == Some(F.Ticket(0, 0)) && w.f.regs[0].wrote == [0] && w.f.regs[0].id == s2;
    assert w.r.waiting == map[id2 + s2 := 1];
  }

  /** The callback for client 0 goes to client 1. */
  lemma WrongClient(v: B.World, id1: string, s1: string, id2: string, s2: string, left: bool)
    requires Mistakable(v, id1, s1, id2, s2, left)
    ensures var called := v.(r := RC.CalledBack(v.r, id2, s2, true), causes := v.causes + [Some(0)]);
            && |called.r.clients| == 2 && |called.r.calls| == 1
            && called.r.clients[1].pc.Waiting? && called.r.clients[1].mailbox == Some(R.Sock(0))
            && var joined := called.(r := RC.Joined(called.r, 1, 0));
               && |joined.r.clients| == 2 && joined.r.clients[0].pc == (if left then R.Gone else R.Waiting)
               && MixedUp(joined, 1, 0, id1, s1, id2, s2)
  {
    assert RC.Deliverable(v.r, id2 + s2);
  }

  lemma CalledAndJoined(base: seq<B.Step>, id1: string, s1: string, id2: string, s2: string, left: bool)
    returns (more: seq<B.Step>)
    requires var v := B.Run(B.Init, base);
             && RI.MapInv(v.r) && Free(v) && B.Enabled(v, B.CallBack(Some(0), id2, s2))
             && Mistakable(v, id1, s1, id2, s2, left)
    ensures var w := B.Run(B.Init, base + more);
            && |w.r.clients| == 2 && w.r.clients[0].pc == (if left then R.Gone else R.Waiting)
            && MixedUp(w, 1, 0, id1, s1, id2, s2)
  {
    var v := B.Run(B.Init, base);
    WrongClient(v, id1, s1, id2, s2, left);
    hide Runs.Run, MixedUp, Mistakable, Free, FI.Inv, RI.MapInv, B.Enabled, RC.CalledBack, RC.Joined;
    var a := CallBack(v, Some(0), id2, s2);
    Extend(base, a);
    var b := Join(B.Run(B.Init, base + a), 1, 0);
    Extend(base + a, b);
    more := a + b;
    assert base + more == base + a + b;
  }

  /** A run that mixes two requests up, while the first client still waits, or after it has left. In the latter
      case live keys are distinct throughout. */
  lemma MixUp(id1: string, s1: string, id2: string, s2: string, left: bool) returns (steps: seq<B.Step>)
    requires s1 != "" && s2 != "" && id2 != "" && id1 + s1 == id2 + s2
    ensures var w := B.Run(B.Init, steps);
            && MixedUp(w, 1, 0, id1, s1, id2, s2) && w.r.clients[0].pc == (if left then R.Gone else R.Waiting)
    ensures left ==> DistinctThroughout(steps)
  {
    SecondWaits(id1, s1, id2, s2, left);
    hide B.Run, FirstAsked, SecondAsked, MixedUp, Mistakable, DistinctThroughout, Free, FI.Inv, RI.MapInv, B.Enabled,
        B.Departed;
    var first := UntilFirstAsked(id2, s2, left);
    var a := UntilSecondAsked(first, id1, s1, id2, s2, left);
    var b := CalledAndJoined(first + a, id1, s1, id2, s2, left);
    steps := first + a + b;
    if left {
      assert steps == first + (a + b);
      OneAfterTheOther(first, a + b);
    }
  }

  /** Pairings only happen under equal keys. */
  lemma MixedUpKeys(steps: seq<B.Step>, c: nat, d: nat, id1: string, s1: string, id2: string, s2: string)
    requires MixedUp(B.Run(B.Init, steps), c, d, id1, s1, id2, s2)
    ensures id1 + s1 == id2 + s2
  {
    B.Reached(steps);
    hide B.Run, FI.Inv, B.Linked, RI.LockInv, RI.MapInv, RI.FoundInv, RI.MailInv, RI.CallPlaces,
        RI.MailPlaces, RI.HandPlaces;
    var w := B.Run(B.Init, steps);
    var b := w.r.clients[c].joined.value;
    assert w.r.calls[b].takenBy == Some(c) && R.CallKey(w.r.calls[b]) == R.ClientKey(w.r.clients[d]);
  }

  /** Exactly which requests can be mixed up while both clients are there: a client can end up with the callback
      that another client's event has caused, and that this other client still waits for, exactly if the two
      pairs of ids run together alike. */
  lemma RequestsMixedUp(id1: string, s1: string, id2: string, s2: string)
    requires s1 != "" && s2 != "" && id2 != ""
    ensures (exists steps, c: nat, d: nat :: MixedUp(B.Run(B.Init, steps), c, d, id1, s1, id2, s2)
                                             && B.Run(B.Init, steps).r.clients[d].pc == R.Waiting)
       <==> id1 + s1 == id2 + s2
  {
    if id1 + s1 == id2 + s2 {
      var steps := MixUp(id1, s1, id2, s2, false);
    }
    if steps, c: nat, d: nat :| MixedUp(B.Run(B.Init, steps), c, d, id1, s1, id2, s2) {
      hide B.Run, MixedUp;
      MixedUpKeys(steps, c, d, id1, s1, id2, s2);
    }
  }

  /** Distinct live keys do not prevent it, nor does naming the same server or another: the other client may have
      left before the callback that its event has caused. The condition stays the same. */
  lemma LateCallback(id1: string, s1: string, id2: string, s2: string)
    requires s1 != "" && s2 != "" && id2 != ""
    ensures (exists steps, c, d :: DistinctThroughout(steps) && MixedUp(B.Run(B.Init, steps), c, d, id1, s1, id2, s2))
       <==> id1 + s1 == id2 + s2
  {
    hide B.Run, MixedUp, DistinctThroughout;
    if id1 + s1 == id2 + s2 {
      var steps := MixUp(id1, s1, id2, s2, true);
    }
    if steps, c, d :| DistinctThroughout(steps) && MixedUp(B.Run(B.Init, steps), c, d, id1, s1, id2, s2) {
      MixedUpKeys(steps, c, d, id1, s1, id2, s2);
    }
  }

  /** Exactly which servers: those of which one's id is a proper suffix of the other's. */
  lemma ServersMixedUp(s1: string, s2: string)
    requires s1 != "" && s2 != "" && s1 != s2
    ensures (exists steps, c, d, id1, id2 :: MixedUp(B.Run(B.Init, steps), c, d, id1, s1, id2, s2))
       <==> RT.ProperSuffix(s1, s2) || RT.ProperSuffix(s2, s1)
  {
    hide B.Run, MixedUp, RT.ProperSuffix;
    if RT.ProperSuffix(s1, s2) || RT.ProperSuffix(s2, s1) {
      RT.KeysConfuse(s1, s2);
      var id1, id2 :| id1 != "" && id2 != "" && id1 + s1 == id2 + s2;
      var steps := MixUp(id1, s1, id2, s2, false);
    }
    if steps, c, d, id1, id2 :| MixedUp(B.Run(B.Init, steps), c, d, id1, s1, id2, s2) {
      MixedUpKeys(steps, c, d, id1, s1, id2, s2);
      if |s1| <= |s2| {
        RT.ConcatSplit(id1, s1, id2, s2);
      } else {
        RT.ConcatSplit(id2, s2, id1, s1);
      }
    }
  }
}
