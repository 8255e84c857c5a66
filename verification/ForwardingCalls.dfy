/** What one call does to the forwarding system when its steps are taken in a row with the lock free. */
module ForwardingCalls {
  import opened Locks
  import opened Options
  import opened Json
  import F = Forwarding
  import FI = ForwardingInv
  import FT = ForwardingTheorems
  import Runs

  // ------------------------------------------------------- AddListeningServer

  predicate Free(s: F.State) {
    s.mx == RWMutex(None, {})
  }

  /** A server connects, its handler adds the registration and starts the cleanup goroutine. */
  function RegisterSteps(s: F.State, id: string): seq<F.Step> {
    [F.Register(id)] + Runs.Times(5, F.HandlerMove(|s.regs|, true))
  }

  function Registered(s: F.State, id: string): F.State {
    s.(regs := s.regs + [F.NewReg(id).(handler := F.Looping, cleanup := F.AwaitDone)],
        servers := s.servers[id := |s.regs|])
  }

  /** A new registration whose handler has got to `pc`. */
  function Registering(s: F.State, id: string, pc: F.HandlerPc, mx: RWMutex<F.Tid>): F.State {
    s.(regs := s.regs + [F.NewReg(id).(handler := pc)], mx := mx)
  }

  lemma AddLocks(s: F.State, id: string)
    requires Free(s)
    ensures var r := |s.regs|;
            && Runs.Repeat(F.Next, Registering(s, id, F.WantAdd, s.mx), F.HandlerMove(r, true), 2)
            == Registering(s, id, F.Adding, RWMutex(Some(F.AddBy(r)), {}))
  {
    hide F.ClientMoved, F.CleanupMoved, F.ClientCanMove, F.CleanupCanMove;
    var r := |s.regs|;
    assert F.Next(Registering(s, id, F.WantAdd, s.mx), F.HandlerMove(r, true))
        == Registering(s, id, F.AddPending, RWMutex(Some(F.AddBy(r)), {}));
  }

  lemma AddUnlocks(s: F.State, id: string)
    requires Free(s)
    ensures var r := |s.regs|;
            var adding := Registering(s, id, F.Adding, RWMutex(Some(F.AddBy(r)), {}));
            Runs.Repeat(F.Next, adding, F.HandlerMove(r, true), 3) == Registered(s, id)
  {
    hide F.ClientMoved, F.CleanupMoved, F.ClientCanMove, F.CleanupCanMove;
    var r := |s.regs|;
    var m, held := F.HandlerMove(r, true), RWMutex(Some(F.AddBy(r)), {});
    assert F.Next(Registering(s, id, F.Adding, held), m)
        == Registering(s, id, F.Added, held).(servers := s.servers[id := r]);
    assert F.Next(Registering(s, id, F.Added, held).(servers := s.servers[id := r]), m)
        == Registering(s, id, F.Spawning, s.mx).(servers := s.servers[id := r]);
  }

  /** The id now leads to the new registration, whatever it led to before. */
  lemma RegisterAlone(s: F.State, id: string)
    requires Free(s) && id != ""
    ensures F.Run(s, RegisterSteps(s, id)) == Registered(s, id)
  {
    var m, s1 := F.HandlerMove(|s.regs|, true), Registering(s, id, F.WantAdd, s.mx);
    Runs.FirstThenTimes(F.Next, s, F.Register(id), m, 5);
    assert F.Next(s, F.Register(id)) == s1;
    hide Runs.Run, Runs.Repeat, F.Next;
    Runs.RepeatSum(F.Next, s1, m, 2, 3);
    AddLocks(s, id);
    AddUnlocks(s, id);
  }

  // ------------------------------------------------------- NotifyListeningServer

  function NotifySteps(c: nat): seq<F.Step> {
    [F.Notify(c)] + Runs.Times(4, F.ClientMove(c))
  }

  /** The client is at the receive from its result channel, with its request at the end of the queue. */
  function Enqueued(s: F.State, c: nat, r: nat): F.State
    requires c < |s.clients| && r < |s.regs|
  {
    var g, k := s.regs[r], s.clients[c];
    s.(regs := s.regs[r := g.(log := g.log + [c])],
       clients := s.clients[c := k.(pc := F.Awaiting, ticket := Some(F.Ticket(r, |g.log|)))])
  }

  /** The client is blocked on a full queue and holds the read lock. */
  function Blocked(s: F.State, c: nat, r: nat): F.State
    requires c < |s.clients|
  {
    F.SetPc(s, c, F.Sending(r)).(mx := s.mx.(readers := s.mx.readers + {c}))
  }

  function Notified(s: F.State, c: nat): F.State
    requires c < |s.clients|
  {
    var id := s.clients[c].msg.serverId;
    if id !in s.servers then F.SetPc(s, c, F.NotFound)
    else
      var r := s.servers[id];
      if r < |s.regs| && F.QueueRoom(s.regs[r]) then Enqueued(s, c, r) else Blocked(s, c, r)
  }

  /** RLock and the lookup. */
  lemma Search(s: F.State, c: nat)
    requires c < |s.clients| && s.clients[c].pc.Idle? && Free(s)
    ensures var m, id := F.ClientMove(c), s.clients[c].msg.serverId;
            && Runs.Repeat(F.Next, F.Next(s, F.Notify(c)), m, 2)
            == F.SetPc(s, c, if id in s.servers then F.Sending(s.servers[id]) else F.Missing).(mx := RWMutex(None, {c}))
  {
    hide F.HandlerMoved, F.CleanupMoved, F.HandlerCanMove, F.CleanupCanMove;
    var m := F.ClientMove(c);
    assert F.Next(s, F.Notify(c)) == F.SetPc(s, c, F.WantRead);
    assert F.Next(F.SetPc(s, c, F.WantRead), m) == F.SetPc(s, c, F.Reading).(mx := RWMutex(None, {c}));
  }

  /** The send and RUnlock, or the send that does not get through. */
  lemma SendAndUnlock(s: F.State, c: nat, r: nat)
    requires c < |s.clients| && r < |s.regs| && s.clients[c].pc == F.Sending(r) && !s.regs[r].closed
        && s.mx == RWMutex(None, {c})
    ensures Runs.Repeat(F.Next, s, F.ClientMove(c), 2)
         == if F.QueueRoom(s.regs[r]) then Enqueued(s, c, r).(mx := RWMutex(None, {})) else s
  {
    hide F.HandlerMoved, F.CleanupMoved, F.HandlerCanMove, F.CleanupCanMove;
    var m := F.ClientMove(c);
    if F.QueueRoom(s.regs[r]) {
      assert F.Next(s, m) == F.Enqueue(s, c, r);
      assert F.Next(F.Enqueue(s, c, r), m) == Enqueued(s, c, r).(mx := RWMutex(None, {}));
    } else {
      assert F.Next(s, m) == s;
    }
    hide F.Next, F.Enqueue, Enqueued, F.QueueRoom;
    Runs.RepeatTwo(F.Next, s, m);
  }

  lemma MissAndUnlock(s: F.State, c: nat)
    requires c < |s.clients| && s.clients[c].pc.Missing? && s.mx == RWMutex(None, {c})
    ensures Runs.Repeat(F.Next, s, F.ClientMove(c), 2) == F.SetPc(s, c, F.NotFound).(mx := RWMutex(None, {}))
  {
    hide F.HandlerMoved, F.CleanupMoved, F.HandlerCanMove, F.CleanupCanMove;
    var m := F.ClientMove(c);
    var t := F.SetPc(s, c, F.NotFound).(mx := RWMutex(None, {}));
    assert F.Next(s, m) == t;
    assert F.Next(t, m) == t;
    hide F.Next, F.SetPc;
    Runs.RepeatTwo(F.Next, s, m);
  }

  /** With room on the queue the call puts the request at its end; on a full queue it blocks; without a
      registration it finds nobody. Nothing else changes. */
  lemma NotifyAlone(s: F.State, c: nat)
    requires FI.Inv(s) && Free(s) && c < |s.clients| && s.clients[c].pc.Idle?
    ensures var id := s.clients[c].msg.serverId;
            id in s.servers ==> s.servers[id] < |s.regs| && !s.regs[s.servers[id]].closed
    ensures F.Run(s, NotifySteps(c)) == Notified(s, c)
  {
    var m, id := F.ClientMove(c), s.clients[c].msg.serverId;
    assert id in s.servers ==> FI.LifeInv(s.regs[s.servers[id]]);
    Runs.FirstThenTimes(F.Next, s, F.Notify(c), m, 4);
    Search(s, c);
    hide F.Next, F.Run, FI.Inv, Runs.Repeat;
    Runs.RepeatSum(F.Next, F.Next(s, F.Notify(c)), m, 2, 2);
    var found := Runs.Repeat(F.Next, F.Next(s, F.Notify(c)), m, 2);
    if id in s.servers {
      SendAndUnlock(found, c, s.servers[id]);
    } else {
      MissAndUnlock(found, c);
    }
  }

  /** One registration that nobody receives from, and `n` clients whose requests are on its queue. */
  ghost predicate Queued(s: F.State, id: string, n: nat) {
    && FI.Inv(s) && Free(s) && s.servers == map[id := 0] && |s.regs| == 1 && |s.clients| == n
    && s.regs[0].handler.Looping? && s.regs[0].head == 0 && |s.regs[0].log| == n && !s.regs[0].closed
    && forall c :: 0 <= c < n ==> s.clients[c].pc.Awaiting? && s.clients[c].results == []
  }

  lemma RegisteredOne(id: string)
    requires id != ""
    ensures F.Run(F.Init, RegisterSteps(F.Init, id)) == Registered(F.Init, id) && Queued(Registered(F.Init, id), id, 0)
  {
    hide Runs.Run, FI.Inv;
    RegisterAlone(F.Init, id);
    FT.InitInv();
    FI.RunKeepsInv(F.Init, RegisterSteps(F.Init, id));
    assert Registered(F.Init, id).servers == map[id := 0];
  }

  /** One more client dials and notifies. */
  function OneMoreSteps(n: nat, msg: Request): seq<F.Step> {
    [F.Dial(msg)] + NotifySteps(n)
  }

  lemma OneMoreQueued(s: F.State, id: string, n: nat, msg: Request)
    requires Queued(s, id, n) && msg.serverId == id
    ensures var t := F.Run(s, OneMoreSteps(n, msg));
            if n < 100 then Queued(t, id, n + 1)
            else
              && |t.clients| == n + 1 && t.clients[n].pc == F.Sending(0) && t.clients[n].results == []
              && (forall c :: 0 <= c < n ==> t.clients[c] == s.clients[c])
              && t.regs == s.regs && t.servers == s.servers && t.mx == RWMutex(None, {n})
  {
    hide Runs.Run, FI.Inv, NotifySteps;
    var dial := F.Dial(msg);
    var u := s.(clients := s.clients + [F.Client(msg, F.Idle, None, [], 0)]);
    Runs.RunConcat(F.Next, s, [dial], NotifySteps(n));
    Runs.RunOne(F.Next, s, dial);
    assert F.Next(s, dial) == u;
    FI.StepKeepsInv(s, dial);
    NotifyAlone(u, n);
    FI.RunKeepsInv(u, NotifySteps(n));
  }

  /** A client that finds the queue full while another is blocked on it with the read lock. */
  lemma SharesLock(s: F.State, c: nat, msg: Request)
    requires |s.clients| == c && s.servers == map[msg.serverId := 0] && |s.regs| == 1 && !s.regs[0].closed
    requires !F.QueueRoom(s.regs[0]) && s.mx.writer.None? && c !in s.mx.readers
    ensures F.Run(s, [F.Dial(msg)] + [F.Notify(c)] + Runs.Times(2, F.ClientMove(c)))
         == s.(clients := s.clients + [F.Client(msg, F.Sending(0), None, [], 0)],
               mx := s.mx.(readers := s.mx.readers + {c}))
  {
    hide F.HandlerMoved, F.CleanupMoved, F.HandlerCanMove, F.CleanupCanMove;
    var m := F.ClientMove(c);
    Runs.RunConcat(F.Next, s, [F.Dial(msg)] + [F.Notify(c)], Runs.Times(2, m));
    Runs.RunAppend(F.Next, s, [F.Dial(msg)], F.Notify(c));
    Runs.RunOne(F.Next, s, F.Dial(msg));
    var s1 := s.(clients := s.clients + [F.Client(msg, F.Idle, None, [], 0)]);
    var s2 := F.SetPc(s1, c, F.WantRead);
    var s3 := F.SetPc(s1, c, F.Reading).(mx := s.mx.(readers := s.mx.readers + {c}));
    var s4 := F.SetPc(s1, c, F.Sending(0)).(mx := s.mx.(readers := s.mx.readers + {c}));
    assert F.Next(s, F.Dial(msg)) == s1;
    assert F.Next(s1, F.Notify(c)) == s2;
    assert F.Next(s2, m) == s3;
    assert F.Next(s3, m) == s4;
    hide F.Next, Runs.Run;
    Runs.RunTimes(F.Next, s2, m, 2);
    Runs.RepeatTwo(F.Next, s2, m);
  }

  /** The queue holds a hundred requests: of 102 clients that notify a registration that nobody receives from, the
      first hundred come to wait for their verdicts, and the last two are blocked in their sends, sharing the read
      lock. */
  lemma QueueHoldsHundred(id: string, msg: Request) returns (steps: seq<F.Step>)
    requires id != "" && msg.serverId == id
    ensures var s := F.Run(F.Init, steps);
            && |s.clients| == 102 && |s.regs| == 1 && |s.regs[0].log| == 100 && s.mx == RWMutex(None, {100, 101})
            && (forall c :: 0 <= c < 100 ==> s.clients[c].pc.Awaiting? && s.clients[c].results == [])
            && s.clients[100].pc == F.Sending(0) && s.clients[101].pc == F.Sending(0)
  {
    hide Runs.Run, FI.Inv, RegisterSteps, OneMoreSteps, Registered;
    steps := RegisterSteps(F.Init, id);
    RegisteredOne(id);
    for n := 0 to 100
      invariant Queued(F.Run(F.Init, steps), id, n)
    {
      Runs.RunConcat(F.Next, F.Init, steps, OneMoreSteps(n, msg));
      OneMoreQueued(F.Run(F.Init, steps), id, n, msg);
      steps := steps + OneMoreSteps(n, msg);
    }
    ghost var full := F.Run(F.Init, steps);
    Runs.RunConcat(F.Next, F.Init, steps, OneMoreSteps(100, msg));
    OneMoreQueued(full, id, 100, msg);
    steps := steps + OneMoreSteps(100, msg);
    var last := [F.Dial(msg)] + [F.Notify(101)] + Runs.Times(2, F.ClientMove(101));
    Runs.RunConcat(F.Next, F.Init, steps, last);
    SharesLock(F.Run(F.Init, steps), 101, msg);
    steps := steps + last;
  }

  // ------------------------------------------------------- one turn of the registration handler's loop

  predicate HasNext(s: F.State, r: nat) {
    && r < |s.regs| && s.regs[r].handler.Looping? && s.regs[r].head < |s.regs[r].log|
    && s.regs[r].log[s.regs[r].head] < |s.clients|
  }

  function NextClient(s: F.State, r: nat): nat
    requires HasNext(s, r)
  {
    s.regs[r].log[s.regs[r].head]
  }

  /** A failed write takes one step more of the handler, and its second verdict waits until the client has taken
      the first. */
  function ForwardSteps(s: F.State, r: nat, ok: bool): seq<F.Step>
    requires HasNext(s, r)
  {
    Runs.Times(3, F.HandlerMove(r, ok))
    + if ok then [] else [F.ClientMove(NextClient(s, r)), F.HandlerMove(r, ok)]
  }

  function Forwarded(s: F.State, r: nat, ok: bool): F.State
    requires HasNext(s, r)
  {
    var g, c := s.regs[r], NextClient(s, r);
    var k, h := s.clients[c], F.TakeNext(g, true);
    if ok then
      s.(regs := s.regs[r := h.(wrote := g.wrote + [g.head])],
          clients := s.clients[c := k.(results := k.results + [F.NotePassed])])
    else
      s.(regs := s.regs[r := h.(broken := if g.broken.None? then Some(g.head) else g.broken)],
         clients := s.clients[c := k.(pc := F.Answered(F.NoteFail), results := k.results + [F.NoteFail, F.NotePassed],
                                      received := k.received + 1)])
  }

  /** What the handler's registration and its client look like before a turn. */
  predicate Ready(s: F.State, r: nat) {
    && HasNext(s, r)
    && var k := s.clients[NextClient(s, r)]; k.pc.Awaiting? && k.results == [] && k.received == 0
  }

  lemma QueuedClientWaits(s: F.State, r: nat)
    requires FI.Inv(s) && Free(s) && HasNext(s, r)
    ensures Ready(s, r)
  {
    var g, c := s.regs[r], NextClient(s, r);
    var k := s.clients[c];
    FI.RegOf(s, r);
    assert k.ticket == Some(F.Ticket(r, g.head));
    assert k.results == FI.VerdictsAt(g, g.head);
    assert c !in s.mx.readers;
    assert !FI.HoldsRead(k.pc) && !FI.Unsent(k.pc);
  }

  lemma Takes(s: F.State, r: nat, ok: bool)
    requires HasNext(s, r)
    ensures var g := s.regs[r];
            && F.Next(s, F.HandlerMove(r, ok))
            == s.(regs := s.regs[r := F.TakeNext(g, true).(handler := F.Writing(g.head))])
  {
    hide F.ClientMoved, F.CleanupMoved, F.ClientCanMove, F.CleanupCanMove;
  }

  /** A registration whose handler has written, or failed to write, the event at position `pos`. */
  function AfterWrite(g: F.Reg, pos: nat, ok: bool): F.Reg {
    if ok then g.(handler := F.Passing(pos), wrote := g.wrote + [pos])
    else g.(handler := F.Failing(pos), broken := if g.broken.None? then Some(pos) else g.broken)
  }

  lemma Writes(s: F.State, r: nat, ok: bool)
    requires r < |s.regs| && s.regs[r].handler.Writing? && (ok ==> s.regs[r].broken.None?)
    ensures F.Next(s, F.HandlerMove(r, ok))
         == s.(regs := s.regs[r := AfterWrite(s.regs[r], s.regs[r].handler.pos, ok)])
  {
    hide F.ClientMoved, F.CleanupMoved, F.ClientCanMove, F.CleanupCanMove;
  }

  lemma TakeAndWrite(s: F.State, r: nat, ok: bool)
    requires HasNext(s, r) && (ok ==> s.regs[r].broken.None?)
    ensures Runs.Repeat(F.Next, s, F.HandlerMove(r, ok), 2)
         == s.(regs := s.regs[r := AfterWrite(F.TakeNext(s.regs[r], true), s.regs[r].head, ok)])
  {
    var m := F.HandlerMove(r, ok);
    Runs.RepeatTwo(F.Next, s, m);
    hide F.Next, Runs.Repeat;
    Takes(s, r, ok);
    Writes(F.Next(s, m), r, ok);
  }

  lemma Passes(s: F.State, r: nat, ok: bool)
    requires r < |s.regs| && s.regs[r].handler.Passing? && s.regs[r].handler.pos < |s.regs[r].log|
    requires F.ResultRoom(s, s.regs[r].log[s.regs[r].handler.pos])
    ensures var g := s.regs[r];
            && F.Next(s, F.HandlerMove(r, ok))
            == F.Tell(s.(regs := s.regs[r := g.(handler := F.Looping)]), g.log[g.handler.pos], F.NotePassed)
  {
    hide F.ClientMoved, F.CleanupMoved, F.ClientCanMove, F.CleanupCanMove;
  }

  lemma Fails(s: F.State, r: nat)
    requires r < |s.regs| && s.regs[r].handler.Failing? && s.regs[r].handler.pos < |s.regs[r].log|
    requires F.ResultRoom(s, s.regs[r].log[s.regs[r].handler.pos])
    ensures var g := s.regs[r];
            && F.Next(s, F.HandlerMove(r, false))
            == F.Tell(s.(regs := s.regs[r := g.(handler := F.Passing(g.handler.pos))]),
                      g.log[g.handler.pos], F.NoteFail)
  {
    hide F.ClientMoved, F.CleanupMoved, F.ClientCanMove, F.CleanupCanMove;
  }

  /** The client at the receive from its result channel takes what is there. */
  lemma TakesVerdict(s: F.State, c: nat)
    requires c < |s.clients| && s.clients[c].pc.Awaiting? && F.ResultWaiting(s.clients[c])
    ensures var k := s.clients[c];
            && F.Next(s, F.ClientMove(c))
            == s.(clients := s.clients[c := k.(pc := F.Answered(k.results[k.received]), received := k.received + 1)])
  {
    hide F.HandlerMoved, F.CleanupMoved, F.HandlerCanMove, F.CleanupCanMove;
  }

  lemma PassAlone(s: F.State, r: nat)
    requires Ready(s, r) && s.regs[r].broken.None?
    ensures F.Run(s, Runs.Times(3, F.HandlerMove(r, true))) == Forwarded(s, r, true)
  {
    var m := F.HandlerMove(r, true);
    Runs.RunTimes(F.Next, s, m, 3);
    Runs.RepeatSum(F.Next, s, m, 2, 1);
    TakeAndWrite(s, r, true);
    Runs.RepeatOne(F.Next, Runs.Repeat(F.Next, s, m, 2), m);
    hide F.Next, Runs.Repeat, Runs.Run;
    Passes(Runs.Repeat(F.Next, s, m, 2), r, true);
  }

  lemma FailAlone(s: F.State, r: nat)
    requires Ready(s, r)
    ensures F.Run(s, ForwardSteps(s, r, false)) == Forwarded(s, r, false)
  {
    var m, c := F.HandlerMove(r, false), NextClient(s, r);
    Runs.RunConcat(F.Next, s, Runs.Times(3, m), [F.ClientMove(c), m]);
    Runs.RunTimes(F.Next, s, m, 3);
    Runs.RepeatSum(F.Next, s, m, 2, 1);
    TakeAndWrite(s, r, false);
    var wrote := Runs.Repeat(F.Next, s, m, 2);
    Runs.RepeatOne(F.Next, wrote, m);
    var told := F.Next(wrote, m);
    Runs.RunTwo(F.Next, told, F.ClientMove(c), m);
    hide F.Next, Runs.Repeat, Runs.Run;
    Fails(wrote, r);
    TakesVerdict(told, c);
    var took := F.Next(told, F.ClientMove(c));
    Passes(took, r, false);
    var k := s.clients[c];
    assert told.clients[c] == k.(results := [F.NoteFail]);
    assert took.clients[c] == k.(pc := F.Answered(F.NoteFail), results := [F.NoteFail], received := 1);
    assert k.results + [F.NoteFail, F.NotePassed] == [F.NoteFail] + [F.NotePassed];
    assert F.Next(took, m).clients == Forwarded(s, r, false).clients;
    assert F.Next(took, m).regs == Forwarded(s, r, false).regs;
  }

  /** The client at the head of the queue is told that its request was passed if the write succeeds, and
      otherwise that it failed and then, when it has taken that, that it was passed. */
  lemma ForwardAlone(s: F.State, r: nat, ok: bool)
    requires FI.Inv(s) && Free(s) && HasNext(s, r) && (ok ==> s.regs[r].broken.None?)
    ensures F.Run(s, ForwardSteps(s, r, ok)) == Forwarded(s, r, ok)
  {
    QueuedClientWaits(s, r);
    hide FI.Inv, F.Run;
    if ok {
      PassAlone(s, r);
      assert ForwardSteps(s, r, ok) == Runs.Times(3, F.HandlerMove(r, ok));
    } else {
      FailAlone(s, r);
    }
  }

  // ------------------------------------------------------- the cleanup goroutine

  /** From the end of its context to the close of its queue. */
  function Stopped(s: F.State, r: nat): F.State
    requires r < |s.regs|
  {
    s.(regs := s.regs[r := s.regs[r].(cleanup := F.Draining, closed := true)], servers := s.servers - {s.regs[r].id})
  }

  lemma RemoveLocks(s: F.State, r: nat)
    requires Free(s) && r < |s.regs| && s.regs[r].cleanup.AwaitDone? && s.regs[r].ctxDone
    ensures Runs.Repeat(F.Next, s, F.CleanupMove(r), 3)
         == s.(regs := s.regs[r := s.regs[r].(cleanup := F.Removing)], mx := RWMutex(Some(F.RemoveBy(r)), {}))
  {
    hide F.ClientMoved, F.HandlerMoved, F.ClientCanMove, F.HandlerCanMove;
    var g, m := s.regs[r], F.CleanupMove(r);
    var s1 := s.(regs := s.regs[r := g.(cleanup := F.WantRemove)]);
    assert F.Next(s, m) == s1;
    assert F.Next(s1, m) == s.(regs := s.regs[r := g.(cleanup := F.RemovePending)],
        mx := RWMutex(Some(F.RemoveBy(r)), {}));
  }

  lemma RemoveUnlocks(s: F.State, r: nat)
    requires r < |s.regs| && s.regs[r].cleanup.Removing? && !s.regs[r].closed
    ensures Runs.Repeat(F.Next, s, F.CleanupMove(r), 3) == Stopped(s, r).(mx := s.mx.(writer := None))
  {
    hide F.ClientMoved, F.HandlerMoved, F.ClientCanMove, F.HandlerCanMove;
    var g, m := s.regs[r], F.CleanupMove(r);
    var s1 := s.(regs := s.regs[r := g.(cleanup := F.Removed)], servers := s.servers - {g.id});
    var s2 := s1.(regs := s.regs[r := g.(cleanup := F.Closing)], mx := s.mx.(writer := None));
    assert F.Next(s, m) == s1;
    assert F.Next(s1, m) == s2;
    assert F.Next(s2, m) == Stopped(s, r).(mx := s.mx.(writer := None));
    hide F.Next, Stopped;
    Runs.RepeatSum(F.Next, s, m, 1, 2);
    Runs.RepeatOne(F.Next, s, m);
    Runs.RepeatTwo(F.Next, s1, m);
  }

  /** Its id leads nowhere any more, whichever registration it led to. */
  lemma RemoveAlone(s: F.State, r: nat)
    requires Free(s) && r < |s.regs| && s.regs[r].cleanup.AwaitDone? && s.regs[r].ctxDone && !s.regs[r].closed
    ensures F.Run(s, Runs.Times(6, F.CleanupMove(r))) == Stopped(s, r)
  {
    var m := F.CleanupMove(r);
    Runs.RunTimes(F.Next, s, m, 6);
    hide F.Next, Runs.Run, Runs.Repeat;
    Runs.RepeatSum(F.Next, s, m, 3, 3);
    RemoveLocks(s, r);
    RemoveUnlocks(Runs.Repeat(F.Next, s, m, 3), r);
  }

  /** How many steps the cleanup takes to drain what is on its queue, and see that it is closed and empty. */
  function DrainLength(g: F.Reg): nat {
    1 + 2 * if g.head < |g.log| then |g.log| - g.head else 0
  }

  /** One request on the queue fewer, and its client told. */
  function DrainedOne(s: F.State, r: nat): F.State
    requires r < |s.regs| && s.regs[r].head < |s.regs[r].log| && s.regs[r].log[s.regs[r].head] < |s.clients|
  {
    var g := s.regs[r];
    F.Tell(s.(regs := s.regs[r := F.TakeNext(g, false)]), g.log[g.head], F.NoteServerConnLost)
  }

  lemma HeadClient(s: F.State, r: nat)
    requires FI.Inv(s) && r < |s.regs| && s.regs[r].head < |s.regs[r].log|
    ensures s.regs[r].log[s.regs[r].head] < |s.clients|
  {
    hide FI.LockInv, FI.MapInv, FI.PinInv, FI.RegsInv, FI.VerdictInv, FI.AnswerInv, FI.RouteInv;
  }

  lemma DrainTurn(s: F.State, r: nat)
    requires FI.Inv(s) && r < |s.regs| && s.regs[r].cleanup.Draining? && s.regs[r].head < |s.regs[r].log|
    ensures s.regs[r].log[s.regs[r].head] < |s.clients|
    ensures Runs.Repeat(F.Next, s, F.CleanupMove(r), 2) == DrainedOne(s, r) && FI.Inv(DrainedOne(s, r))
  {
    var m := F.CleanupMove(r);
    HeadClient(s, r);
    Runs.RepeatTwo(F.Next, s, m);
    hide FI.Inv, F.Apply, F.CleanupCanMove, Runs.Repeat;
    Draining(s, r);
    FI.StepKeepsInv(s, m);
    var s1 := F.Next(s, m);
    FT.CleanupNeverBlocks(s1, r);
    FI.StepKeepsInv(s1, m);
    Telling(s1, r);
  }

  lemma Draining(s: F.State, r: nat)
    requires r < |s.regs| && s.regs[r].cleanup.Draining? && s.regs[r].head < |s.regs[r].log|
    ensures var g := s.regs[r];
            && F.Enabled(s, F.CleanupMove(r))
            && F.Next(s, F.CleanupMove(r))
            == s.(regs := s.regs[r := F.TakeNext(g, false).(cleanup := F.Telling(g.head))])
  {
  }

  lemma Telling(s: F.State, r: nat)
    requires r < |s.regs| && s.regs[r].cleanup.Telling? && s.regs[r].cleanup.pos < |s.regs[r].log|
    requires F.CleanupCanMove(s, r)
    ensures var g := s.regs[r];
            && g.log[g.cleanup.pos] < |s.clients|
            && F.Next(s, F.CleanupMove(r))
            == F.Tell(s.(regs := s.regs[r := g.(cleanup := F.Draining)]), g.log[g.cleanup.pos], F.NoteServerConnLost)
  {
  }

  /** What the drain adds to the results of client `c`. */
  function Told(g: F.Reg, c: nat): seq<F.Verdict> {
    if g.head <= |g.log| && c in g.log[g.head..] then [F.NoteServerConnLost] else []
  }

  /** The queue of registration `r` is drained and its clients, and nobody else, have been told. */
  ghost predicate Drained(s: F.State, t: F.State, r: nat) {
    && r < |s.regs| && |t.regs| == |s.regs| && |t.clients| == |s.clients|
    && t.servers == s.servers && t.mx == s.mx
    && (forall q :: 0 <= q < |s.regs| && q != r ==> t.regs[q] == s.regs[q])
    && var g := s.regs[r];
       && t.regs[r] == g.(head := t.regs[r].head, byHandler := t.regs[r].byHandler, cleanup := F.CleanupDone)
       && t.regs[r].head == (if g.head < |g.log| then |g.log| else g.head)
       && forall c :: 0 <= c < |s.clients| ==>
            t.clients[c] == s.clients[c].(results := s.clients[c].results + Told(g, c))
  }

  lemma DrainMore(s: F.State, t: F.State, r: nat)
    requires r < |s.regs| && s.regs[r].head < |s.regs[r].log| && s.regs[r].log[s.regs[r].head] < |s.clients|
    requires s.regs[r].log[s.regs[r].head] !in s.regs[r].log[s.regs[r].head + 1..]
    requires Drained(DrainedOne(s, r), t, r)
    ensures Drained(s, t, r)
  {
    var g := s.regs[r];
    assert g.log[g.head..] == [g.log[g.head]] + g.log[g.head + 1..];
  }

  lemma {:induction false} DrainAlone(s: F.State, r: nat)
    requires FI.Inv(s) && r < |s.regs| && s.regs[r].cleanup.Draining?
    ensures Drained(s, F.Run(s, Runs.Times(DrainLength(s.regs[r]), F.CleanupMove(r))), r)
    decreases |s.regs[r].log| - s.regs[r].head
  {
    hide FI.Inv, F.Next, Runs.Run, Runs.Repeat, Drained;
    var g, m := s.regs[r], F.CleanupMove(r);
    Runs.RunTimes(F.Next, s, m, DrainLength(g));
    if g.head < |g.log| {
      DrainTurn(s, r);
      var s1 := DrainedOne(s, r);
      DrainAlone(s1, r);
      Runs.RunTimes(F.Next, s1, m, DrainLength(s1.regs[r]));
      Runs.RepeatSum(F.Next, s, m, 2, DrainLength(s1.regs[r]));
      OnceOnQueue(s, r);
      DrainMore(s, F.Run(s1, Runs.Times(DrainLength(s1.regs[r]), m)), r);
    } else {
      DrainEnds(s, r);
    }
  }

  lemma OnceOnQueue(s: F.State, r: nat)
    requires FI.Inv(s) && r < |s.regs| && s.regs[r].head < |s.regs[r].log|
    ensures var g := s.regs[r]; g.log[g.head] !in g.log[g.head + 1..]
  {
    var g := s.regs[r];
    assert s.clients[g.log[g.head]].ticket == Some(F.Ticket(r, g.head));
    forall i | g.head < i < |g.log|
      ensures g.log[i] != g.log[g.head]
    {
      assert s.clients[g.log[i]].ticket == Some(F.Ticket(r, i));
    }
  }

  lemma CleanupReturns(s: F.State, r: nat)
    requires r < |s.regs| && s.regs[r].cleanup.Draining? && s.regs[r].head >= |s.regs[r].log| && s.regs[r].closed
    ensures F.Next(s, F.CleanupMove(r)) == s.(regs := s.regs[r := s.regs[r].(cleanup := F.CleanupDone)])
  {
    hide F.ClientMoved, F.HandlerMoved, F.ClientCanMove, F.HandlerCanMove;
  }

  lemma DrainEnds(s: F.State, r: nat)
    requires FI.Inv(s) && r < |s.regs| && s.regs[r].cleanup.Draining? && s.regs[r].head >= |s.regs[r].log|
    ensures Drained(s, Runs.Repeat(F.Next, s, F.CleanupMove(r), 1), r)
  {
    FI.RegOf(s, r);
    assert s.regs[r].closed;
    hide FI.Inv, F.Next, Runs.Repeat;
    Runs.RepeatOne(F.Next, s, F.CleanupMove(r));
    CleanupReturns(s, r);
    var g := s.regs[r];
    assert g.head <= |g.log| ==> g.log[g.head..] == [];
  }
}
