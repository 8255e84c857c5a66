/** What holds of every run of the forwarding system. */
module ForwardingTheorems {
  import opened Locks
  import opened Options
  import opened Sums
  import opened Forwarding
  import opened ForwardingInv
  import Runs

  // ------------------------------------------------------- safety

  lemma InitInv()
    ensures Inv(Init)
  {
  }

  lemma Reached(steps: seq<Step>)
    ensures Inv(Run(Init, steps))
  {
    hide Inv, Run, Init;
    InitInv();
    RunKeepsInv(Init, steps);
  }

  /** In no run is a queue sent on after its close, or closed twice: whoever is in the map or between
      a lookup and its send has an open queue, however often an id is registered again. */
  lemma NoSendOnClosedQueue(steps: seq<Step>)
    ensures var s := Run(Init, steps);
            && !s.panicked
            && (forall id :: id in s.servers ==> s.servers[id] < |s.regs| && !s.regs[s.servers[id]].closed)
            && (forall c :: 0 <= c < |s.clients| && s.clients[c].pc.Sending? ==>
                  s.clients[c].pc.reg < |s.regs| && !s.regs[s.clients[c].pc.reg].closed)
  {
    hide Run, LockInv, TicketInv, VerdictInv, AnswerInv, RouteInv, QueueInv, WriteInv;
    Reached(steps);
  }

  /** In every run a request is on at most one queue, at one position of it, so one receiver takes it at most once. */
  lemma OneReceiver(steps: seq<Step>, r: nat, pos: nat, r': nat, pos': nat)
    requires var s := Run(Init, steps);
             && r < |s.regs| && r' < |s.regs| && pos < |s.regs[r].log| && pos' < |s.regs[r'].log|
             && s.regs[r].log[pos] == s.regs[r'].log[pos']
    ensures r == r' && pos == pos'
  {
    hide Run, Init, LockInv, MapInv, PinInv, RegsInv, VerdictInv, AnswerInv, RouteInv;
    Reached(steps);
    var s := Run(Init, steps);
    assert s.clients[s.regs[r].log[pos]].ticket == Some(Ticket(r, pos));
    assert s.clients[s.regs[r'].log[pos']].ticket == Some(Ticket(r', pos'));
  }

  /** The first verdict sent to client `c`, if any, tells the truth: passed exactly if its event was written
      without error, connection lost exactly if the cleanup drained it, and failed exactly if the handler
      took it and the write failed; and it is the one the client acts on. */
  ghost predicate Truthful(s: State, c: nat)
    requires c < |s.clients|
  {
    var k := s.clients[c];
    k.results != [] ==>
      && k.ticket.Some? && k.ticket.value.reg < |s.regs|
      && (k.pc.Answered? ==> k.pc.verdict == k.results[0])
      && var g, pos := s.regs[k.ticket.value.reg], k.ticket.value.pos;
         && pos < g.head == |g.byHandler| && pos < |g.log| && g.log[pos] == c
         && (k.results[0] == NotePassed <==> pos in g.wrote)
         && (k.results[0] == NoteServerConnLost <==> !g.byHandler[pos])
         && (k.results[0] == NoteFail <==> g.byHandler[pos] && pos !in g.wrote)
  }

  lemma FirstVerdict(s: State, c: nat)
    requires Inv(s) && c < |s.clients|
    ensures Truthful(s, c)
  {
    hide LockInv, MapInv, PinInv;
    if s.clients[c].results != [] {
      var t := s.clients[c].ticket.value;
      assert s.clients[c].results == VerdictsAt(s.regs[t.reg], t.pos);
    }
  }

  /** In every run every client's first verdict is truthful, and a client that has been answered was told something. */
  lemma TruthfulVerdict(steps: seq<Step>, c: nat)
    requires c < |Run(Init, steps).clients|
    ensures var s := Run(Init, steps); Truthful(s, c) && (s.clients[c].pc.Answered? ==> s.clients[c].results != [])
  {
    hide Run, Init, Truthful, LockInv, MapInv, PinInv, RegsInv, TicketInv, VerdictInv, RouteInv;
    Reached(steps);
    FirstVerdict(Run(Init, steps), c);
  }

  /** After a failed write the handler has two verdicts to send, and the channel holds one: the second waits exactly
      until the client has taken the first. */
  lemma SecondVerdictWaits(s: State, r: nat, pos: nat)
    requires Inv(s) && r < |s.regs| && s.regs[r].handler == Passing(pos) && pos !in s.regs[r].wrote
    ensures pos < |s.regs[r].log| && s.regs[r].log[pos] < |s.clients|
    ensures forall ok :: Enabled(s, HandlerMove(r, ok)) <==> s.clients[s.regs[r].log[pos]].pc.Answered?
  {
    hide LockInv, MapInv, PinInv;
    var g := s.regs[r];
    assert QueueInv(g);
    var c := g.log[pos];
    assert s.clients[c].ticket == Some(Ticket(r, pos));
    assert s.clients[c].results == VerdictsAt(g, pos) == [NoteFail];
  }

  /** The cleanup never blocks on telling a client that its server is gone. */
  lemma CleanupNeverBlocks(s: State, r: nat)
    requires Inv(s) && r < |s.regs| && s.regs[r].cleanup.Telling?
    ensures CleanupCanMove(s, r)
  {
    hide LockInv, MapInv, PinInv;
    var g := s.regs[r];
    assert s.clients[g.log[g.cleanup.pos]].ticket == Some(Ticket(r, g.cleanup.pos));
  }

  // ------------------------------------------------------- the map when ids are distinct

  ghost predicate DistinctIds(s: State) {
    forall r, q :: 0 <= r < q < |s.regs| && Advertised(s.regs[r]) && Advertised(s.regs[q])
        ==> s.regs[r].id != s.regs[q].id
  }

  /** Every registration that has been added and not yet removed can be found. */
  ghost predicate Complete(s: State) {
    forall r :: 0 <= r < |s.regs| && Advertised(s.regs[r]) ==> s.regs[r].id in s.servers && s.servers[s.regs[r].id] == r
  }

  lemma HandlerAdvertises(g: Reg, ok: bool)
    requires LifeInv(g)
    ensures var h := HandlerNext(g, ok);
            if g.handler.Adding? then !Advertised(g) && Advertised(h) else Advertised(h) == Advertised(g)
  {
  }

  lemma HandlerServers(s: State, r: nat, ok: bool)
    requires HandlerCanMove(s, r, ok)
    ensures HandlerMoved(s, r, ok).servers == if s.regs[r].handler.Adding? then s.servers[s.regs[r].id := r]
        else s.servers
  {
    hide HandlerNext;
  }

  lemma HandlerComplete(s: State, r: nat, ok: bool)
    requires RegsInv(s) && Complete(s) && HandlerCanMove(s, r, ok) && DistinctIds(s)
        && DistinctIds(HandlerMoved(s, r, ok))
    ensures Complete(HandlerMoved(s, r, ok))
  {
    RegOf(s, r);
    HandlerShape(s, r, ok);
    HandlerServers(s, r, ok);
    HandlerAdvertises(s.regs[r], ok);
    hide HandlerMoved, HandlerNext, Advertised, LifeInv, QueueInv, WriteInv;
    var t := HandlerMoved(s, r, ok);
    forall q | 0 <= q < |t.regs| && Advertised(t.regs[q])
      ensures t.regs[q].id in t.servers && t.servers[t.regs[q].id] == q
    {
      if q != r {
        assert t.regs[q] == s.regs[q];
        assert Advertised(t.regs[r]) ==> t.regs[q].id != t.regs[r].id;
      }
    }
  }

  lemma CleanupAdvertises(g: Reg)
    requires LifeInv(g)
    ensures var h := CleanupNext(g);
            if g.cleanup.Removing? then Advertised(g) && !Advertised(h) else Advertised(h) == Advertised(g)
  {
  }

  lemma CleanupServers(s: State, r: nat)
    requires CleanupCanMove(s, r)
    ensures CleanupMoved(s, r).servers == if s.regs[r].cleanup.Removing? then s.servers - {s.regs[r].id} else s.servers
  {
    hide CleanupNext;
  }

  lemma CleanupComplete(s: State, r: nat)
    requires RegsInv(s) && Complete(s) && CleanupCanMove(s, r) && DistinctIds(s)
    ensures Complete(CleanupMoved(s, r))
  {
    RegOf(s, r);
    CleanupShape(s, r);
    CleanupServers(s, r);
    CleanupAdvertises(s.regs[r]);
    hide CleanupMoved, CleanupNext, Advertised, LifeInv, QueueInv, WriteInv;
    var t := CleanupMoved(s, r);
    forall q | 0 <= q < |t.regs| && Advertised(t.regs[q])
      ensures t.regs[q].id in t.servers && t.servers[t.regs[q].id] == q
    {
      if q != r {
        assert t.regs[q] == s.regs[q];
        assert Advertised(s.regs[r]) ==> s.regs[q].id != s.regs[r].id;
      }
    }
  }

  lemma ClientServers(s: State, c: nat)
    requires ClientCanMove(s, c)
    ensures var t := ClientMoved(s, c);
            && t.servers == s.servers && |t.regs| == |s.regs|
            && forall r :: 0 <= r < |s.regs| ==>
                 Advertised(t.regs[r]) == Advertised(s.regs[r]) && t.regs[r].id == s.regs[r].id
  {
  }

  lemma StepComplete(s: State, step: Step)
    requires Inv(s) && Complete(s) && Enabled(s, step) && DistinctIds(s) && DistinctIds(Apply(s, step))
    ensures Complete(Apply(s, step))
  {
    hide LockInv, MapInv, PinInv, RegsInv, TicketInv, VerdictInv, AnswerInv, RouteInv;
    hide DistinctIds, Complete, ClientMoved, HandlerMoved, CleanupMoved;
    match step
    case ClientMove(c) =>
      ClientServers(s, c);
      SameAdvertised(s, Apply(s, step));
    case HandlerMove(r, ok) => HandlerComplete(s, r, ok);
    case CleanupMove(r) => CleanupComplete(s, r);
    case _ => SameAdvertised(s, Apply(s, step));
  }

  lemma SameAdvertised(s: State, t: State)
    requires Complete(s) && t.servers == s.servers && |s.regs| <= |t.regs|
    requires forall r :: 0 <= r < |s.regs| ==>
               Advertised(t.regs[r]) == Advertised(s.regs[r]) && t.regs[r].id == s.regs[r].id
    requires forall r :: |s.regs| <= r < |t.regs| ==> !Advertised(t.regs[r])
    ensures Complete(t)
  {
  }

  lemma {:induction false} RunComplete(steps: seq<Step>)
    requires forall n :: 0 <= n <= |steps| ==> DistinctIds(Run(Init, steps[..n]))
    ensures Complete(Run(Init, steps))
    decreases |steps|
  {
    hide Inv, DistinctIds, Apply, Enabled;
    assert steps[..|steps|] == steps;
    if steps != [] {
      hide Complete, Runs.Run, Init;
      var n := |steps| - 1;
      assert forall i :: 0 <= i <= n ==> steps[..n][..i] == steps[..i];
      RunComplete(steps[..n]);
      Reached(steps[..n]);
      Runs.RunLast(Next, Init, steps);
      var s := Run(Init, steps[..n]);
      if Enabled(s, steps[n]) {
        assert DistinctIds(s) && DistinctIds(Apply(s, steps[n]));
        StepComplete(s, steps[n]);
      }
    }
  }

  /** Every registration stays reachable under its id while it is advertised exactly if no id is ever
      advertised twice at once. */
  lemma CompleteIffDistinct(steps: seq<Step>)
    ensures (forall n :: 0 <= n <= |steps| ==> Complete(Run(Init, steps[..n])))
       <==> (forall n :: 0 <= n <= |steps| ==> DistinctIds(Run(Init, steps[..n])))
  {
    hide Run, Init, Advertised;
    if forall n :: 0 <= n <= |steps| ==> DistinctIds(Run(Init, steps[..n])) {
      hide Complete, DistinctIds;
      forall n | 0 <= n <= |steps|
        ensures Complete(Run(Init, steps[..n]))
      {
        assert forall i :: 0 <= i <= n ==> steps[..n][..i] == steps[..i];
        RunComplete(steps[..n]);
      }
    }
  }

  // ------------------------------------------------------- progress

  predicate ClientSettled(k: Client) {
    k.pc.Idle? || k.pc.Answered? || k.pc.NotFound?
  }

  /** A registration that is waiting for requests on a live connection, or finished with both its goroutines. */
  predicate RegSettled(g: Reg) {
    || (g.handler.Looping? && g.cleanup.AwaitDone? && !g.ctxDone && QueueEmpty(g))
    || (g.handler.HandlerDone? && g.cleanup.CleanupDone?)
  }

  ghost predicate Settled(s: State) {
    && (forall c :: 0 <= c < |s.clients| ==> ClientSettled(s.clients[c]))
    && (forall r :: 0 <= r < |s.regs| ==> RegSettled(s.regs[r]))
  }

  /** No goroutine can move. */
  ghost predicate Quiet(s: State) {
    forall step :: !External(step) ==> !Enabled(s, step)
  }

  lemma Moves(s: State, step: Step)
    requires Enabled(s, step) && !External(step)
    ensures !Quiet(s)
  {
  }

  /** A handler busy with a request is never the one everybody waits for: it can move, or its client can. */
  lemma BusyHandlerMoves(s: State, r: nat)
    requires RegsInv(s) && TicketInv(s) && VerdictInv(s) && AnswerInv(s) && r < |s.regs|
    requires s.regs[r].handler.Writing? || s.regs[r].handler.Failing? || s.regs[r].handler.Passing?
    ensures !Quiet(s)
  {
    hide Quiet, ClientMoved, HandlerMoved, CleanupMoved;
    var g := s.regs[r];
    if g.handler.Writing? {
      Moves(s, HandlerMove(r, false));
    } else {
      var c := g.log[g.handler.pos];
      assert s.clients[c].ticket == Some(Ticket(r, g.handler.pos));
      assert s.clients[c].results == VerdictsAt(g, g.handler.pos);
      if ResultRoom(s, c) {
        Moves(s, HandlerMove(r, false));
      } else {
        Moves(s, ClientMove(c));
      }
    }
  }

  /** A notifier blocked on a full queue waits for a handler that is in its loop, and so can receive. */
  lemma ReaderMoves(s: State, c: nat)
    requires Inv(s) && c in s.mx.readers
    ensures !Quiet(s)
  {
    hide Quiet, ClientMoved, HandlerMoved, CleanupMoved, TicketInv, VerdictInv, AnswerInv;
    assert c < |s.clients| && HoldsRead(s.clients[c].pc);
    if ClientCanMove(s, c) {
      Moves(s, ClientMove(c));
    } else {
      var r := s.clients[c].pc.reg;
      var g := s.regs[r];
      assert Advertised(g) && LifeInv(g) && !HoldsWrite(g);
      if g.handler.Looping? {
        Moves(s, HandlerMove(r, false));
      } else if g.handler.Spawning? {
        Moves(s, HandlerMove(r, false));
      } else {
        BusyHandlerMoves(s, r);
      }
    }
  }

  lemma WriterMoves(s: State)
    requires Inv(s) && s.mx.writer.Some? && s.mx.readers == {}
    ensures !Quiet(s)
  {
    hide Quiet, ClientMoved, HandlerMoved, CleanupMoved, MapInv, PinInv, RegsInv, TicketInv, VerdictInv, AnswerInv;
    var r := s.mx.writer.value.reg;
    if s.mx.writer.value.AddBy? {
      Moves(s, HandlerMove(r, false));
    } else {
      Moves(s, CleanupMove(r));
    }
  }

  lemma LockUserMoves(s: State)
    requires Inv(s) && s.mx != RWMutex(None, {})
    ensures !Quiet(s)
  {
    hide Quiet, Inv;
    if c :| c in s.mx.readers {
      ReaderMoves(s, c);
    } else {
      assert s.mx.readers == {};
      WriterMoves(s);
    }
  }

  /** With the lock free, a registration that has not settled has a move, or a busy handler. */
  lemma UnsettledRegMoves(s: State, r: nat)
    requires Inv(s) && r < |s.regs| && !RegSettled(s.regs[r])
    ensures !Quiet(s)
  {
    hide Quiet, ClientMoved, HandlerMoved, CleanupMoved, MapInv, PinInv, TicketInv, VerdictInv, AnswerInv;
    var g := s.regs[r];
    assert LifeInv(g);
    if s.mx != RWMutex(None, {}) {
      LockUserMoves(s);
    } else if g.handler.Writing? || g.handler.Failing? || g.handler.Passing? {
      BusyHandlerMoves(s, r);
    } else if g.cleanup.Telling? {
      CleanupNeverBlocks(s, r);
      Moves(s, CleanupMove(r));
    } else if HandlerCanMove(s, r, false) {
      Moves(s, HandlerMove(r, false));
    } else {
      Moves(s, CleanupMove(r));
    }
  }

  lemma UnsettledClientMoves(s: State, c: nat)
    requires Inv(s) && c < |s.clients| && !ClientSettled(s.clients[c])
    ensures !Quiet(s)
  {
    hide Quiet, ClientMoved, HandlerMoved, CleanupMoved, MapInv, PinInv, LockInv;
    if s.mx != RWMutex(None, {}) {
      LockUserMoves(s);
    } else if ClientCanMove(s, c) {
      Moves(s, ClientMove(c));
    } else if s.clients[c].pc.Sending? {
      SenderReads(s, c);
      ReaderMoves(s, c);
    } else {
      var t := s.clients[c].ticket.value;
      NoVerdictYet(s, c);
      UnsettledRegMoves(s, t.reg);
    }
  }

  lemma SenderReads(s: State, c: nat)
    requires LockInv(s) && c < |s.clients| && s.clients[c].pc.Sending?
    ensures c in s.mx.readers
  {
  }

  /** A client still waiting for its verdict is on a queue whose registration has not settled. */
  lemma NoVerdictYet(s: State, c: nat)
    requires RegsInv(s) && TicketInv(s) && VerdictInv(s) && AnswerInv(s)
    requires c < |s.clients| && s.clients[c].pc.Awaiting? && !ResultWaiting(s.clients[c])
    ensures s.clients[c].ticket.Some? && s.clients[c].ticket.value.reg < |s.regs|
        && !RegSettled(s.regs[s.clients[c].ticket.value.reg])
  {
    var t := s.clients[c].ticket.value;
    var g := s.regs[t.reg];
    assert s.clients[c].results == VerdictsAt(g, t.pos);
    assert QueueInv(g);
  }

  /** Deadlock freedom, exactly: forwarding comes to rest only when every client that asked has its
      answer, and every registration is idle on a live connection or completely wound up. */
  lemma QuietIffSettled(s: State)
    requires Inv(s)
    ensures Quiet(s) <==> Settled(s)
  {
    if Settled(s) {
      hide TicketInv, VerdictInv, AnswerInv, MapInv, PinInv, LockInv;
      forall step | !External(step)
        ensures !Enabled(s, step)
      {
        if step.HandlerMove? && step.reg < |s.regs| {
          assert RegSettled(s.regs[step.reg]) && LifeInv(s.regs[step.reg]);
        } else if step.CleanupMove? && step.reg < |s.regs| {
          assert RegSettled(s.regs[step.reg]);
        }
      }
    } else {
      hide Quiet, Inv;
      if c: nat :| c < |s.clients| && !ClientSettled(s.clients[c]) {
        UnsettledClientMoves(s, c);
      } else {
        var r: nat :| r < |s.regs| && !RegSettled(s.regs[r]);
        UnsettledRegMoves(s, r);
      }
    }
  }

  // ------------------------------------------------------- a bound on the work

  function ClientWork(k: Client): nat {
    match k.pc
    case Idle => 11
    case WantRead => 10
    case Reading => 9
    case Sending(_) => 8
    case Sent => 2
    case Missing => 1
    case Awaiting => 1
    case Answered(_) => 0
    case NotFound => 0
  }

  function HandlerWork(pc: HandlerPc): nat {
    match pc
    case WantAdd => 6
    case AddPending => 5
    case Adding => 4
    case Added => 3
    case Spawning => 2
    case Looping => 1
    case Writing(_) => 4
    case Failing(_) => 3
    case Passing(_) => 2
    case HandlerDone => 0
  }

  function CleanupWork(pc: CleanupPc): nat {
    match pc
    case Unstarted => 8
    case AwaitDone => 7
    case WantRemove => 6
    case RemovePending => 5
    case Removing => 4
    case Removed => 3
    case Closing => 2
    case Draining => 1
    case Telling(_) => 2
    case CleanupDone => 0
  }

  /** Five units for each request still queued, what the two goroutines have ahead of them, and the connection's end. */
  function RegWork(g: Reg): nat {
    (if g.ctxDone then 0 else 1) + 5 * (if QueueEmpty(g) then 0 else |g.log| - g.head) + HandlerWork(g.handler)
        + CleanupWork(g.cleanup)
  }

  function Work(s: State): nat {
    Total(ClientWork, s.clients) + Total(RegWork, s.regs)
  }

  lemma ClientWorks(s: State, c: nat)
    requires Inv(s) && ClientCanMove(s, c)
    ensures Work(ClientMoved(s, c)) < Work(s)
  {
    hide LockInv, MapInv, PinInv, RegsInv, TicketInv, VerdictInv, AnswerInv, Total;
    ClientRegs(s, c);
    var t := ClientMoved(s, c);
    if !t.panicked {
      TotalUpdate(ClientWork, s.clients, c, t.clients[c]);
    }
    if s.clients[c].pc.Sending? {
      var r := s.clients[c].pc.reg;
      TotalUpdate(RegWork, s.regs, r, t.regs[r]);
    }
  }

  lemma HandlerRegWork(g: Reg, ok: bool)
    requires QueueInv(g) && LifeInv(g)
    ensures var h := HandlerNext(g, ok);
            g.handler.HandlerDone? || RegWork(h) < RegWork(g)
  {
  }

  lemma CleanupRegWork(g: Reg)
    requires QueueInv(g) && LifeInv(g)
    ensures var h := CleanupNext(g);
            g.cleanup.Unstarted? || g.cleanup.CleanupDone? || RegWork(h) < RegWork(g)
  {
  }

  /** One registration gets on with its work and at most one client is told something. */
  lemma RegWorks(s: State, t: State, r: nat)
    requires r < |s.regs| && |t.regs| == |s.regs| && t.regs == s.regs[r := t.regs[r]]
        && RegWork(t.regs[r]) < RegWork(s.regs[r])
    requires |t.clients| == |s.clients| && forall c :: 0 <= c < |s.clients| ==> t.clients[c].pc == s.clients[c].pc
    ensures Work(t) < Work(s)
  {
    hide RegWork;
    TotalUpdate(RegWork, s.regs, r, t.regs[r]);
    TotalSame(ClientWork, s.clients, t.clients);
  }

  lemma HandlerWorks(s: State, r: nat, ok: bool)
    requires Inv(s) && HandlerCanMove(s, r, ok)
    ensures Work(HandlerMoved(s, r, ok)) < Work(s)
  {
    RegOf(s, r);
    HandlerShape(s, r, ok);
    HandlerRegWork(s.regs[r], ok);
    hide Inv, LifeInv, QueueInv, WriteInv, HandlerNext, HandlerMoved, RegWork, Work;
    RegWorks(s, HandlerMoved(s, r, ok), r);
  }

  lemma CleanupWorks(s: State, r: nat)
    requires Inv(s) && CleanupCanMove(s, r)
    ensures Work(CleanupMoved(s, r)) < Work(s)
  {
    RegOf(s, r);
    CleanupShape(s, r);
    CleanupRegWork(s.regs[r]);
    hide Inv, LifeInv, QueueInv, WriteInv, CleanupNext, CleanupMoved, RegWork, Work;
    RegWorks(s, CleanupMoved(s, r), r);
  }

  /** Every move of a goroutine uses up work; only arrivals add to it. */
  lemma MovesUseWork(s: State, step: Step)
    requires Inv(s) && Enabled(s, step) && !External(step)
    ensures Work(Apply(s, step)) < Work(s)
  {
    hide Inv, Work, ClientMoved, HandlerMoved, CleanupMoved, ClientCanMove, HandlerCanMove, CleanupCanMove;
    match step
    case ClientMove(c) => ClientWorks(s, c);
    case HandlerMove(r, ok) => HandlerWorks(s, r, ok);
    case CleanupMove(r) => CleanupWorks(s, r);
  }

  lemma NotifyUsesWork(s: State, c: nat)
    requires Enabled(s, Notify(c))
    ensures Work(Apply(s, Notify(c))) < Work(s)
  {
    TotalUpdate(ClientWork, s.clients, c, s.clients[c].(pc := WantRead));
  }

  lemma ContextDoneUsesWork(s: State, r: nat)
    requires Enabled(s, ContextDone(r))
    ensures Work(Apply(s, ContextDone(r))) < Work(s)
  {
    TotalUpdate(RegWork, s.regs, r, s.regs[r].(ctxDone := true));
  }

  /** How many steps of a schedule are enabled when their turn comes. */
  function Taken(s: State, steps: seq<Step>): nat
    decreases |steps|
  {
    if steps == [] then 0
    else if Enabled(s, steps[0]) then 1 + Taken(Apply(s, steps[0]), steps[1..])
    else Taken(s, steps[1..])
  }

  /** Without new arrivals, whatever the schedule, at most `Work(s)` moves happen; and some schedule brings
      everything to rest: all asked clients answered, every closed connection's handler and cleanup finished. */
  lemma {:induction false} BoundedWork(s: State, steps: seq<Step>)
    requires Inv(s) && forall i :: 0 <= i < |steps| ==> !External(steps[i])
    ensures Taken(s, steps) + Work(Run(s, steps)) <= Work(s)
    decreases |steps|
  {
    hide Inv, Work, Enabled, Apply;
    if steps != [] {
      if Enabled(s, steps[0]) {
        StepKeepsInv(s, steps[0]);
        MovesUseWork(s, steps[0]);
        BoundedWork(Apply(s, steps[0]), steps[1..]);
      } else {
        BoundedWork(s, steps[1..]);
      }
    }
  }

  lemma {:induction false} CanSettle(s: State) returns (steps: seq<Step>)
    requires Inv(s)
    ensures forall i :: 0 <= i < |steps| ==> !External(steps[i])
    ensures Settled(Run(s, steps))
    decreases Work(s)
  {
    hide Inv, Work, Enabled, Apply, Settled;
    if Quiet(s) {
      QuietIffSettled(s);
      steps := [];
    } else {
      var step :| !External(step) && Enabled(s, step);
      StepKeepsInv(s, step);
      MovesUseWork(s, step);
      var rest := CanSettle(Apply(s, step));
      steps := [step] + rest;
      assert steps[1..] == rest;
    }
  }

  // ------------------------------------------------------- order

  /** In every run, the events written to a registration's stream are, in order, part of what was sent on its
      queue, each of a request that named this registration's id. */
  lemma WrittenInOrder(steps: seq<Step>, r: nat)
    requires r < |Run(Init, steps).regs|
    ensures var s := Run(Init, steps);
            var g := s.regs[r];
            && Increasing(g.wrote)
            && forall i :: 0 <= i < |g.wrote| ==>
                 && g.wrote[i] < |g.log| && g.log[g.wrote[i]] < |s.clients|
                 && s.clients[g.log[g.wrote[i]]].msg.serverId == g.id
  {
    hide Run, Init, LockInv, MapInv, PinInv, VerdictInv, AnswerInv;
    Reached(steps);
    var s := Run(Init, steps);
    var g := s.regs[r];
    RegOf(s, r);
    forall i | 0 <= i < |g.wrote|
      ensures g.wrote[i] < |g.log| && g.log[g.wrote[i]] < |s.clients|
          && s.clients[g.log[g.wrote[i]]].msg.serverId == g.id
    {
      assert s.clients[g.log[g.wrote[i]]].ticket == Some(Ticket(r, g.wrote[i]));
    }
  }
}
