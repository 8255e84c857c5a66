/** What every step of forwarding keeps: who holds the lock, what the map points at, which queue is open,
    where each request is, and which verdicts its client has been sent. */
module ForwardingInv {
  import opened Options
  import opened Forwarding

  // ------------------------------------------------------- the lock

  predicate HoldsRead(pc: ClientPc) {
    pc.Reading? || pc.Sending? || pc.Sent? || pc.Missing?
  }

  predicate Adder(pc: HandlerPc) {
    pc.AddPending? || pc.Adding? || pc.Added?
  }

  predicate Remover(pc: CleanupPc) {
    pc.RemovePending? || pc.Removing? || pc.Removed?
  }

  /** Inside the write lock, not just waiting for it. */
  predicate HoldsWrite(g: Reg) {
    g.handler.Adding? || g.handler.Added? || g.cleanup.Removing? || g.cleanup.Removed?
  }

  ghost predicate LockInv(s: State) {
    && (forall c: nat :: c in s.mx.readers <==> c < |s.clients| && HoldsRead(s.clients[c].pc))
    && (s.mx.writer.Some? ==> s.mx.writer.value.reg < |s.regs|)
    && (forall r :: 0 <= r < |s.regs| ==> (Adder(s.regs[r].handler) <==> s.mx.writer == Some(AddBy(r))))
    && (forall r :: 0 <= r < |s.regs| ==> (Remover(s.regs[r].cleanup) <==> s.mx.writer == Some(RemoveBy(r))))
    && (forall r :: 0 <= r < |s.regs| && HoldsWrite(s.regs[r]) ==> s.mx.readers == {})
  }

  // ------------------------------------------------------- the map

  predicate Advertised(g: Reg) {
    && !g.handler.WantAdd? && !g.handler.AddPending? && !g.handler.Adding?
    && (g.cleanup.Unstarted? || g.cleanup.AwaitDone? || g.cleanup.WantRemove? || g.cleanup.RemovePending?
        || g.cleanup.Removing?)
  }

  /** A map entry belongs to a registration that added itself under that id and has not removed it. */
  ghost predicate MapInv(s: State) {
    forall id :: id in s.servers ==>
      s.servers[id] < |s.regs| && s.regs[s.servers[id]].id == id && Advertised(s.regs[s.servers[id]])
  }

  /** Between its lookup and its send, a notifier's server stays in the map. */
  ghost predicate PinInv(s: State) {
    forall c :: 0 <= c < |s.clients| && s.clients[c].pc.Sending? ==>
      s.clients[c].msg.serverId in s.servers && s.servers[s.clients[c].msg.serverId] == s.clients[c].pc.reg
  }

  // ------------------------------------------------------- one registration

  predicate Increasing(ps: seq<nat>) {
    forall i, j :: 0 <= i < j < |ps| ==> ps[i] < ps[j]
  }

  predicate Below(ps: seq<nat>, n: nat) {
    forall i :: 0 <= i < |ps| ==> ps[i] < n
  }

  predicate TakenByHandler(ps: seq<nat>, byHandler: seq<bool>) {
    forall i :: 0 <= i < |ps| ==> ps[i] < |byHandler| && byHandler[ps[i]]
  }

  /** The queue is closed exactly from the cleanup's close on; a handler is done only with a closed, empty queue. */
  ghost predicate LifeInv(g: Reg) {
    && g.id != ""
    && (g.closed <==> g.cleanup.Draining? || g.cleanup.Telling? || g.cleanup.CleanupDone?)
    && (g.cleanup.Unstarted? <==> g.handler.WantAdd? || Adder(g.handler) || g.handler.Spawning?)
    && (g.cleanup.Unstarted? || g.cleanup.AwaitDone? || g.ctxDone)
    && (g.handler.HandlerDone? ==> g.closed && QueueEmpty(g))
    && (g.cleanup.CleanupDone? ==> QueueEmpty(g))
  }

  /** Events are written in queue order, so what was written is a subsequence of what was enqueued. */
  ghost predicate WriteInv(g: Reg) {
    && Increasing(g.wrote)
    && Below(g.wrote, g.head)
    && TakenByHandler(g.wrote, g.byHandler)
    && (g.handler.Writing? ==> Below(g.wrote, g.handler.pos))
    && (g.handler.Failing? ==> Below(g.wrote, g.handler.pos) && g.broken.Some?)
    && (g.broken.Some? ==> g.broken.value < g.head && Below(g.wrote, g.broken.value))
  }

  ghost predicate QueueInv(g: Reg) {
    && g.head <= |g.log| <= g.head + QUEUE_CAPACITY
    && |g.byHandler| == g.head
    && (g.handler.Writing? || g.handler.Failing? || g.handler.Passing?
        ==> g.handler.pos < g.head && g.byHandler[g.handler.pos])
    && (g.cleanup.Telling? ==> g.cleanup.pos < g.head && !g.byHandler[g.cleanup.pos])
  }

  ghost predicate RegsInv(s: State) {
    forall r :: 0 <= r < |s.regs| ==> LifeInv(s.regs[r]) && QueueInv(s.regs[r]) && WriteInv(s.regs[r])
  }

  // ------------------------------------------------------- requests and verdicts

  predicate Unsent(pc: ClientPc) {
    pc.Idle? || pc.WantRead? || pc.Reading? || pc.Sending? || pc.Missing? || pc.NotFound?
  }

  /** Queue positions and tickets correspond one to one. */
  ghost predicate TicketInv(s: State) {
    && (forall r, pos :: 0 <= r < |s.regs| && 0 <= pos < |s.regs[r].log| ==>
          s.regs[r].log[pos] < |s.clients| && s.clients[s.regs[r].log[pos]].ticket == Some(Ticket(r, pos)))
    && (forall c :: 0 <= c < |s.clients| && s.clients[c].ticket.Some? ==>
          var t := s.clients[c].ticket.value;
          t.reg < |s.regs| && t.pos < |s.regs[t.reg].log| && s.regs[t.reg].log[t.pos] == c)
    && (forall c :: 0 <= c < |s.clients| ==> (s.clients[c].ticket.None? <==> Unsent(s.clients[c].pc)))
  }

  /** The verdicts sent so far for position `pos` of a queue. */
  function VerdictsAt(g: Reg, pos: nat): seq<Verdict> {
    if pos >= g.head || pos >= |g.byHandler| then []
    else if !g.byHandler[pos] then
      if g.cleanup == Telling(pos) then [] else [NoteServerConnLost]
    else if g.handler == Writing(pos) || g.handler == Failing(pos) then []
    else if g.handler == Passing(pos) then
      if pos in g.wrote then [] else [NoteFail]
    else
      if pos in g.wrote then [NotePassed] else [NoteFail, NotePassed]
  }

  function VerdictsFor(s: State, k: Client): seq<Verdict> {
    if k.ticket.None? || k.ticket.value.reg >= |s.regs| then []
    else VerdictsAt(s.regs[k.ticket.value.reg], k.ticket.value.pos)
  }

  ghost predicate VerdictInv(s: State) {
    forall c :: 0 <= c < |s.clients| ==> s.clients[c].results == VerdictsFor(s, s.clients[c])
  }

  /** A client takes exactly one verdict, the first. */
  ghost predicate AnswerInv(s: State) {
    forall c :: 0 <= c < |s.clients| ==>
      var k := s.clients[c];
      && k.received == (if k.pc.Answered? then 1 else 0)
      && k.received <= |k.results| <= k.received + RESULT_CAPACITY
      && (k.pc.Answered? ==> k.results[0] == k.pc.verdict)
  }

  /** A request is only ever put on a queue of the server it names. */
  ghost predicate RouteInv(s: State) {
    forall c :: 0 <= c < |s.clients| && s.clients[c].ticket.Some? ==>
      s.clients[c].ticket.value.reg < |s.regs| && s.regs[s.clients[c].ticket.value.reg].id == s.clients[c].msg.serverId
  }

  ghost predicate Inv(s: State) {
    && LockInv(s) && MapInv(s) && PinInv(s) && RegsInv(s) && TicketInv(s) && VerdictInv(s) && AnswerInv(s)
    && RouteInv(s) && !s.panicked
  }

  // ------------------------------------------------------- what a move touches

  lemma HandlerKeepsLog(g: Reg, ok: bool)
    ensures var h := HandlerNext(g, ok);
            h.log == g.log && h.id == g.id && h.ctxDone == g.ctxDone && h.closed == g.closed
  {
  }

  lemma CleanupKeepsLog(g: Reg)
    ensures var h := CleanupNext(g);
            && h.log == g.log && h.id == g.id && h.ctxDone == g.ctxDone
            && h.handler == g.handler && h.wrote == g.wrote
  {
  }

  /** A handler's move touches its own registration, and at most its current client's results. */
  lemma HandlerShape(s: State, r: nat, ok: bool)
    requires HandlerCanMove(s, r, ok)
    ensures var t, g := HandlerMoved(s, r, ok), s.regs[r];
            && |t.regs| == |s.regs| && t.regs == s.regs[r := HandlerNext(g, ok)]
            && t.regs[r].log == g.log && t.regs[r].id == g.id && t.panicked == s.panicked
            && t.clients == (if g.handler.Failing? then Tell(s, ClientAt(g, g.handler.pos), NoteFail).clients
                             else if g.handler.Passing? then Tell(s, ClientAt(g, g.handler.pos), NotePassed).clients
                             else s.clients)
  {
    HandlerKeepsLog(s.regs[r], ok);
    hide HandlerNext;
  }

  lemma CleanupShape(s: State, r: nat)
    requires CleanupCanMove(s, r)
    ensures var t, g := CleanupMoved(s, r), s.regs[r];
            && |t.regs| == |s.regs| && t.regs == s.regs[r := CleanupNext(g)]
            && t.regs[r].log == g.log && t.regs[r].id == g.id
            && t.panicked == (s.panicked || (g.cleanup.Closing? && g.closed))
            && t.clients == (if g.cleanup.Telling? then Tell(s, ClientAt(g, g.cleanup.pos), NoteServerConnLost).clients
                             else s.clients)
  {
    CleanupKeepsLog(s.regs[r]);
    hide CleanupNext;
  }

  // ------------------------------------------------------- lock and map

  lemma ClientLock(s: State, c: nat)
    requires LockInv(s) && ClientCanMove(s, c)
    ensures LockInv(ClientMoved(s, c))
  {
  }

  lemma ClientMap(s: State, c: nat)
    requires MapInv(s) && PinInv(s) && ClientCanMove(s, c)
    ensures MapInv(ClientMoved(s, c)) && PinInv(ClientMoved(s, c))
  {
  }

  /** A step that moves nobody in or out of the lock and leaves the map alone. */
  ghost predicate ControlKept(s: State, t: State) {
    && t.mx == s.mx && t.servers == s.servers && |t.regs| == |s.regs| && |t.clients| == |s.clients|
    && (forall c :: 0 <= c < |s.clients| ==> t.clients[c].pc == s.clients[c].pc && t.clients[c].msg == s.clients[c].msg)
    && (forall r :: 0 <= r < |s.regs| ==>
          && t.regs[r].id == s.regs[r].id
          && (Adder(t.regs[r].handler) <==> Adder(s.regs[r].handler))
          && (Remover(t.regs[r].cleanup) <==> Remover(s.regs[r].cleanup))
          && (HoldsWrite(t.regs[r]) <==> HoldsWrite(s.regs[r]))
          && (Advertised(t.regs[r]) <==> Advertised(s.regs[r])))
  }

  lemma ControlFrame(s: State, t: State)
    requires LockInv(s) && MapInv(s) && PinInv(s) && ControlKept(s, t)
    ensures LockInv(t) && MapInv(t) && PinInv(t)
  {
  }

  predicate HandlerLocks(pc: HandlerPc) {
    pc.WantAdd? || Adder(pc)
  }

  lemma HandlerLock(s: State, r: nat, ok: bool)
    requires LockInv(s) && HandlerCanMove(s, r, ok) && LifeInv(s.regs[r]) && HandlerLocks(s.regs[r].handler)
    ensures LockInv(HandlerMoved(s, r, ok))
  {
  }

  /** Only a goroutine inside the write lock changes the map, and then nobody is between lookup and send. */
  lemma HandlerMap(s: State, r: nat, ok: bool)
    requires LockInv(s) && MapInv(s) && PinInv(s) && HandlerCanMove(s, r, ok) && LifeInv(s.regs[r])
        && HandlerLocks(s.regs[r].handler)
    ensures MapInv(HandlerMoved(s, r, ok)) && PinInv(HandlerMoved(s, r, ok))
  {
  }

  /** Outside the lock, a move changes nothing the lock and map invariants speak of. */
  ghost predicate SameControl(g: Reg, h: Reg) {
    && h.id == g.id
    && (Adder(h.handler) <==> Adder(g.handler)) && (Remover(h.cleanup) <==> Remover(g.cleanup))
    && (HoldsWrite(h) <==> HoldsWrite(g)) && (Advertised(h) <==> Advertised(g))
  }

  lemma HandlerOutside(g: Reg, ok: bool)
    requires LifeInv(g) && !HandlerLocks(g.handler)
    ensures SameControl(g, HandlerNext(g, ok))
  {
  }

  lemma HandlerElsewhere(s: State, r: nat, ok: bool)
    requires HandlerCanMove(s, r, ok) && !HandlerLocks(s.regs[r].handler)
    ensures var t := HandlerMoved(s, r, ok); t.mx == s.mx && t.servers == s.servers
  {
    hide HandlerNext;
  }

  lemma HandlerControl(s: State, r: nat, ok: bool)
    requires LockInv(s) && MapInv(s) && PinInv(s) && HandlerCanMove(s, r, ok) && LifeInv(s.regs[r])
    ensures var t := HandlerMoved(s, r, ok); LockInv(t) && MapInv(t) && PinInv(t)
  {
    hide LockInv, MapInv, PinInv, LifeInv, HandlerMoved, HandlerNext, Adder, HoldsWrite, Advertised, Remover;
    if HandlerLocks(s.regs[r].handler) {
      HandlerLock(s, r, ok);
      HandlerMap(s, r, ok);
    } else {
      HandlerShape(s, r, ok);
      HandlerElsewhere(s, r, ok);
      HandlerOutside(s.regs[r], ok);
      ControlFrame(s, HandlerMoved(s, r, ok));
    }
  }

  predicate CleanupLocks(pc: CleanupPc) {
    pc.WantRemove? || Remover(pc)
  }

  lemma CleanupLock(s: State, r: nat)
    requires LockInv(s) && CleanupCanMove(s, r) && LifeInv(s.regs[r]) && CleanupLocks(s.regs[r].cleanup)
    ensures LockInv(CleanupMoved(s, r))
  {
  }

  lemma CleanupMap(s: State, r: nat)
    requires LockInv(s) && MapInv(s) && PinInv(s) && CleanupCanMove(s, r) && LifeInv(s.regs[r])
        && CleanupLocks(s.regs[r].cleanup)
    ensures MapInv(CleanupMoved(s, r)) && PinInv(CleanupMoved(s, r))
  {
  }

  lemma CleanupOutside(g: Reg)
    requires !CleanupLocks(g.cleanup)
    ensures SameControl(g, CleanupNext(g))
  {
  }

  lemma CleanupElsewhere(s: State, r: nat)
    requires CleanupCanMove(s, r) && !CleanupLocks(s.regs[r].cleanup)
    ensures var t := CleanupMoved(s, r); t.mx == s.mx && t.servers == s.servers
  {
    hide CleanupNext;
  }

  lemma CleanupControl(s: State, r: nat)
    requires LockInv(s) && MapInv(s) && PinInv(s) && CleanupCanMove(s, r) && LifeInv(s.regs[r])
    ensures var t := CleanupMoved(s, r); LockInv(t) && MapInv(t) && PinInv(t)
  {
    hide LockInv, MapInv, PinInv, LifeInv, CleanupMoved, CleanupNext, Adder, HoldsWrite, Advertised, Remover;
    if CleanupLocks(s.regs[r].cleanup) {
      CleanupLock(s, r);
      CleanupMap(s, r);
    } else {
      CleanupShape(s, r);
      CleanupElsewhere(s, r);
      CleanupOutside(s.regs[r]);
      ControlFrame(s, CleanupMoved(s, r));
    }
  }

  lemma ExternalLock(s: State, step: Step)
    requires LockInv(s) && Enabled(s, step) && External(step)
    ensures LockInv(Apply(s, step))
  {
  }

  lemma ExternalMap(s: State, step: Step)
    requires MapInv(s) && PinInv(s) && Enabled(s, step) && External(step)
    ensures MapInv(Apply(s, step)) && PinInv(Apply(s, step))
  {
  }

  // ------------------------------------------------------- registrations

  lemma ClientRegs(s: State, c: nat)
    requires LockInv(s) && MapInv(s) && PinInv(s) && RegsInv(s) && ClientCanMove(s, c)
    ensures RegsInv(ClientMoved(s, c))
    ensures !s.panicked ==> !ClientMoved(s, c).panicked
  {
  }

  lemma HandlerLife(g: Reg, ok: bool)
    requires LifeInv(g) && (g.handler.Looping? && QueueEmpty(g) ==> g.closed)
    ensures LifeInv(HandlerNext(g, ok))
  {
  }

  lemma HandlerQueue(g: Reg, ok: bool)
    requires QueueInv(g)
    ensures QueueInv(HandlerNext(g, ok))
  {
    var h := HandlerNext(g, ok);
    if g.handler.Looping? && !QueueEmpty(g) {
      assert h.byHandler == g.byHandler + [true] && h.byHandler[g.head];
      assert g.cleanup.Telling? ==> h.byHandler[g.cleanup.pos] == g.byHandler[g.cleanup.pos];
    } else {
      assert h.byHandler == g.byHandler && h.head == g.head && h.log == g.log;
    }
  }

  lemma OneMoreTaken(ps: seq<nat>, byHandler: seq<bool>, b: bool)
    requires TakenByHandler(ps, byHandler) && Below(ps, |byHandler|)
    ensures TakenByHandler(ps, byHandler + [b]) && Below(ps, |byHandler| + 1)
  {
  }

  lemma OneMoreWritten(ps: seq<nat>, pos: nat, byHandler: seq<bool>)
    requires Increasing(ps) && Below(ps, pos) && TakenByHandler(ps, byHandler) && Below(ps, |byHandler|)
    requires pos < |byHandler| && byHandler[pos]
    ensures Increasing(ps + [pos]) && TakenByHandler(ps + [pos], byHandler) && Below(ps + [pos], |byHandler|)
  {
  }

  lemma HandlerWrites(g: Reg, ok: bool)
    requires QueueInv(g) && WriteInv(g) && (g.handler.Writing? && ok ==> g.broken.None?)
    ensures WriteInv(HandlerNext(g, ok))
  {
    hide Increasing, Below, TakenByHandler;
    if g.handler.Looping? && !QueueEmpty(g) {
      OneMoreTaken(g.wrote, g.byHandler, true);
    } else if g.handler.Writing? && ok {
      OneMoreWritten(g.wrote, g.handler.pos, g.byHandler);
    }
  }

  lemma HandlerRegs(s: State, r: nat, ok: bool)
    requires RegsInv(s) && HandlerCanMove(s, r, ok)
    ensures RegsInv(HandlerMoved(s, r, ok))
    ensures HandlerMoved(s, r, ok).panicked == s.panicked
  {
    hide HandlerMoved, HandlerNext, LifeInv, QueueInv, WriteInv;
    var g := s.regs[r];
    HandlerShape(s, r, ok);
    HandlerLife(g, ok);
    HandlerQueue(g, ok);
    HandlerWrites(g, ok);
  }

  lemma CleanupLife(g: Reg)
    requires LifeInv(g) && (g.cleanup.AwaitDone? ==> g.ctxDone)
    ensures LifeInv(CleanupNext(g))
  {
  }

  lemma CleanupQueue(g: Reg)
    requires QueueInv(g)
    ensures QueueInv(CleanupNext(g))
  {
  }

  lemma CleanupWrites(g: Reg)
    requires QueueInv(g) && WriteInv(g)
    ensures WriteInv(CleanupNext(g))
  {
    hide Increasing, Below, TakenByHandler;
    if g.cleanup.Draining? && !QueueEmpty(g) {
      OneMoreTaken(g.wrote, g.byHandler, false);
    }
  }

  /** The one close of a queue finds it open. */
  lemma CleanupRegs(s: State, r: nat)
    requires RegsInv(s) && CleanupCanMove(s, r)
    ensures RegsInv(CleanupMoved(s, r))
    ensures CleanupMoved(s, r).panicked == s.panicked
  {
    var g := s.regs[r];
    CleanupShape(s, r);
    assert g.cleanup.Closing? ==> LifeInv(g) && !g.closed;
    hide CleanupMoved, CleanupNext, LifeInv, QueueInv, WriteInv;
    CleanupLife(g);
    CleanupQueue(g);
    CleanupWrites(g);
  }

  lemma ExternalRegs(s: State, step: Step)
    requires RegsInv(s) && Enabled(s, step) && External(step)
    ensures RegsInv(Apply(s, step))
    ensures Apply(s, step).panicked == s.panicked
  {
  }

  // ------------------------------------------------------- tickets

  /** Queues only grow and clients keep their tickets. */
  ghost predicate TicketsKept(s: State, t: State) {
    && |s.regs| == |t.regs| && |s.clients| == |t.clients|
    && (forall r :: 0 <= r < |s.regs| ==> t.regs[r].log == s.regs[r].log)
    && (forall c :: 0 <= c < |s.clients| ==>
          t.clients[c].ticket == s.clients[c].ticket && (Unsent(t.clients[c].pc) <==> Unsent(s.clients[c].pc)))
  }

  lemma TicketFrame(s: State, t: State)
    requires TicketInv(s) && TicketsKept(s, t)
    ensures TicketInv(t)
  {
  }

  lemma EnqueueTickets(s: State, c: nat, r: nat)
    requires TicketInv(s) && c < |s.clients| && r < |s.regs| && s.clients[c].pc == Sending(r)
    ensures TicketInv(Enqueue(s, c, r))
  {
    var t := Enqueue(s, c, r);
    if !s.regs[r].closed {
      forall q, pos | 0 <= q < |t.regs| && 0 <= pos < |t.regs[q].log|
        ensures t.regs[q].log[pos] < |t.clients| && t.clients[t.regs[q].log[pos]].ticket == Some(Ticket(q, pos))
      {
        if q != r || pos < |s.regs[r].log| {
          assert t.regs[q].log[pos] == s.regs[q].log[pos];
        }
      }
    }
  }

  lemma ClientTickets(s: State, c: nat)
    requires TicketInv(s) && ClientCanMove(s, c)
    ensures TicketInv(ClientMoved(s, c))
  {
    hide TicketInv;
    if s.clients[c].pc.Sending? {
      EnqueueTickets(s, c, s.clients[c].pc.reg);
    } else {
      assert TicketsKept(s, ClientMoved(s, c));
      TicketFrame(s, ClientMoved(s, c));
    }
  }

  lemma HandlerTickets(s: State, r: nat, ok: bool)
    requires TicketInv(s) && HandlerCanMove(s, r, ok)
    ensures TicketInv(HandlerMoved(s, r, ok))
  {
    hide TicketInv, HandlerMoved, HandlerNext;
    HandlerShape(s, r, ok);
    TicketFrame(s, HandlerMoved(s, r, ok));
  }

  lemma CleanupTickets(s: State, r: nat)
    requires TicketInv(s) && CleanupCanMove(s, r)
    ensures TicketInv(CleanupMoved(s, r))
  {
    hide TicketInv, CleanupMoved, CleanupNext;
    CleanupShape(s, r);
    TicketFrame(s, CleanupMoved(s, r));
  }

  lemma ExternalTickets(s: State, step: Step)
    requires TicketInv(s) && Enabled(s, step) && External(step)
    ensures TicketInv(Apply(s, step))
  {
    if step.Notify? || step.ContextDone? {
      hide TicketInv;
      TicketFrame(s, Apply(s, step));
    }
  }

  // ------------------------------------------------------- verdicts

  ghost predicate SameVerdicts(g: Reg, h: Reg) {
    forall pos: nat :: VerdictsAt(h, pos) == VerdictsAt(g, pos)
  }

  lemma VerdictsKept(s: State, r: nat, h: Reg)
    requires VerdictInv(s) && r < |s.regs| && SameVerdicts(s.regs[r], h)
    ensures VerdictInv(s.(regs := s.regs[r := h]))
  {
    hide VerdictsAt;
    var t := s.(regs := s.regs[r := h]);
    assert forall c :: 0 <= c < |s.clients| ==> VerdictsFor(t, s.clients[c]) == VerdictsFor(s, s.clients[c]);
  }

  /** Sending verdict `v` to the client at `pos` keeps the books when it is what that position calls for next. */
  lemma VerdictTold(s: State, r: nat, h: Reg, pos: nat, v: Verdict)
    requires VerdictInv(s) && TicketInv(s) && r < |s.regs| && pos < |s.regs[r].log| && h.log == s.regs[r].log
    requires VerdictsAt(h, pos) == VerdictsAt(s.regs[r], pos) + [v]
    requires forall q: nat :: q != pos ==> VerdictsAt(h, q) == VerdictsAt(s.regs[r], q)
    ensures s.regs[r].log[pos] < |s.clients|
    ensures VerdictInv(Tell(s.(regs := s.regs[r := h]), s.regs[r].log[pos], v))
  {
    hide VerdictsAt;
    var c := s.regs[r].log[pos];
    assert s.clients[c].ticket == Some(Ticket(r, pos));
    var t := Tell(s.(regs := s.regs[r := h]), c, v);
    forall k | 0 <= k < |t.clients|
      ensures t.clients[k].results == VerdictsFor(t, t.clients[k])
    {
      assert s.clients[k].results == VerdictsFor(s, s.clients[k]);
      if k != c && s.clients[k].ticket.Some? {
        assert s.clients[k].ticket.value != Ticket(r, pos);
      }
    }
  }

  lemma EnqueueVerdicts(s: State, c: nat, r: nat)
    requires VerdictInv(s) && TicketInv(s) && c < |s.clients| && r < |s.regs| && s.clients[c].pc == Sending(r)
    requires QueueInv(s.regs[r])
    ensures VerdictInv(Enqueue(s, c, r))
  {
    var g := s.regs[r];
    var t := Enqueue(s, c, r);
    if !g.closed {
      assert SameVerdicts(g, t.regs[r]);
      VerdictsKept(s, r, t.regs[r]);
    }
  }

  lemma ClientVerdicts(s: State, c: nat)
    requires RegsInv(s) && VerdictInv(s) && TicketInv(s) && ClientCanMove(s, c)
    ensures VerdictInv(ClientMoved(s, c))
  {
    if s.clients[c].pc.Sending? {
      hide VerdictInv, TicketInv;
      EnqueueVerdicts(s, c, s.clients[c].pc.reg);
    } else {
      hide VerdictsAt, VerdictInv, TicketInv, RegsInv;
      ClientPlain(s, c);
      hide ClientMoved;
      SameResults(s, ClientMoved(s, c));
    }
  }

  lemma ClientPlain(s: State, c: nat)
    requires ClientCanMove(s, c) && !s.clients[c].pc.Sending?
    ensures var k, t := s.clients[c], ClientMoved(s, c);
            && t.regs == s.regs && |t.clients| == |s.clients| && t.clients == s.clients[c := t.clients[c]]
            && t.clients[c].results == k.results && t.clients[c].ticket == k.ticket
  {
  }

  lemma SameResults(s: State, t: State)
    requires VerdictInv(s) && t.regs == s.regs && |t.clients| == |s.clients|
    requires forall c :: 0 <= c < |s.clients| ==>
               t.clients[c].results == s.clients[c].results && t.clients[c].ticket == s.clients[c].ticket
    ensures VerdictInv(t)
  {
    hide VerdictsAt;
    assert forall c :: 0 <= c < |s.clients| ==> VerdictsFor(t, t.clients[c]) == VerdictsFor(s, s.clients[c]);
  }

  lemma TakeVerdicts(g: Reg, h: Reg, byHandler: bool)
    requires QueueInv(g)
    requires h == if byHandler then TakeNext(g, true).(handler := Writing(g.head))
        else TakeNext(g, false).(cleanup := Telling(g.head))
    requires if byHandler then g.handler.Looping? else g.cleanup.Draining?
    ensures SameVerdicts(g, h)
  {
  }

  lemma WriteVerdicts(g: Reg, h: Reg, ok: bool)
    requires QueueInv(g) && WriteInv(g) && g.handler.Writing?
    requires h.log == g.log && h.head == g.head && h.byHandler == g.byHandler && h.cleanup == g.cleanup
    requires if ok then h.handler == Passing(g.handler.pos) && h.wrote == g.wrote + [g.handler.pos]
             else h.handler == Failing(g.handler.pos) && h.wrote == g.wrote
    ensures SameVerdicts(g, h)
  {
  }

  lemma HandlerQuiet(g: Reg, ok: bool)
    requires !g.handler.Failing? && !g.handler.Passing?
    requires LifeInv(g) && QueueInv(g) && WriteInv(g)
    ensures SameVerdicts(g, HandlerNext(g, ok))
  {
    var h := HandlerNext(g, ok);
    if g.handler.Looping? && !QueueEmpty(g) {
      TakeVerdicts(g, h, true);
    } else if g.handler.Writing? {
      WriteVerdicts(g, h, ok);
    }
  }

  lemma HandlerTells(g: Reg, ok: bool)
    requires g.handler.Failing? || g.handler.Passing?
    requires QueueInv(g) && WriteInv(g)
    ensures var h := HandlerNext(g, ok);
            && VerdictsAt(h, g.handler.pos)
            == VerdictsAt(g, g.handler.pos) + [if g.handler.Failing? then NoteFail else NotePassed]
            && forall q: nat :: q != g.handler.pos ==> VerdictsAt(h, q) == VerdictsAt(g, q)
  {
  }

  lemma HandlerVerdicts(s: State, r: nat, ok: bool)
    requires RegsInv(s) && VerdictInv(s) && TicketInv(s) && HandlerCanMove(s, r, ok)
    ensures VerdictInv(HandlerMoved(s, r, ok))
  {
    hide VerdictInv, TicketInv, SameVerdicts, HandlerMoved, HandlerNext, VerdictsAt;
    var g, t := s.regs[r], HandlerMoved(s, r, ok);
    HandlerShape(s, r, ok);
    if g.handler.Failing? || g.handler.Passing? {
      HandlerTells(g, ok);
      VerdictTold(s, r, t.regs[r], g.handler.pos, if g.handler.Failing? then NoteFail else NotePassed);
      var verdict := if g.handler.Failing? then NoteFail else NotePassed;
      VerdictsElsewhere(Tell(s.(regs := t.regs), ClientAt(g, g.handler.pos), verdict), t);
    } else {
      HandlerQuiet(g, ok);
      VerdictsKept(s, r, t.regs[r]);
      VerdictsElsewhere(s.(regs := t.regs), t);
    }
  }

  lemma VerdictsElsewhere(s: State, t: State)
    requires VerdictInv(s) && t.regs == s.regs && t.clients == s.clients
    ensures VerdictInv(t)
  {
    assert forall k :: 0 <= k < |s.clients| ==> VerdictsFor(t, s.clients[k]) == VerdictsFor(s, s.clients[k]);
  }

  lemma CleanupQuiet(g: Reg)
    requires !g.cleanup.Telling? && QueueInv(g)
    ensures SameVerdicts(g, CleanupNext(g))
  {
    if g.cleanup.Draining? && !QueueEmpty(g) {
      TakeVerdicts(g, CleanupNext(g), false);
    }
  }

  lemma CleanupTells(g: Reg)
    requires g.cleanup.Telling? && QueueInv(g)
    ensures var h := CleanupNext(g);
            && VerdictsAt(h, g.cleanup.pos) == VerdictsAt(g, g.cleanup.pos) + [NoteServerConnLost]
            && forall q: nat :: q != g.cleanup.pos ==> VerdictsAt(h, q) == VerdictsAt(g, q)
  {
  }

  lemma CleanupVerdicts(s: State, r: nat)
    requires RegsInv(s) && VerdictInv(s) && TicketInv(s) && CleanupCanMove(s, r)
    ensures VerdictInv(CleanupMoved(s, r))
  {
    hide VerdictInv, TicketInv, SameVerdicts, CleanupMoved, CleanupNext, VerdictsAt;
    var g, t := s.regs[r], CleanupMoved(s, r);
    CleanupShape(s, r);
    if g.cleanup.Telling? {
      CleanupTells(g);
      VerdictTold(s, r, t.regs[r], g.cleanup.pos, NoteServerConnLost);
      VerdictsElsewhere(Tell(s.(regs := t.regs), ClientAt(g, g.cleanup.pos), NoteServerConnLost), t);
    } else {
      CleanupQuiet(g);
      VerdictsKept(s, r, t.regs[r]);
      VerdictsElsewhere(s.(regs := t.regs), t);
    }
  }

  lemma ExternalVerdicts(s: State, step: Step)
    requires VerdictInv(s) && TicketInv(s) && Enabled(s, step) && External(step)
    ensures VerdictInv(Apply(s, step))
  {
    var t := Apply(s, step);
    if step.ContextDone? {
      hide TicketInv, VerdictInv;
      assert SameVerdicts(s.regs[step.reg], t.regs[step.reg]);
      VerdictsKept(s, step.reg, t.regs[step.reg]);
    } else {
      hide VerdictsAt;
      assert forall c :: 0 <= c < |s.clients| ==> VerdictsFor(t, t.clients[c]) == VerdictsFor(s, s.clients[c]);
    }
  }

  // ------------------------------------------------------- answers

  lemma ClientAnswers(s: State, c: nat)
    requires AnswerInv(s) && ClientCanMove(s, c)
    ensures AnswerInv(ClientMoved(s, c))
  {
  }

  lemma HandlerAnswers(s: State, r: nat, ok: bool)
    requires AnswerInv(s) && HandlerCanMove(s, r, ok)
    ensures AnswerInv(HandlerMoved(s, r, ok))
  {
  }

  lemma CleanupAnswers(s: State, r: nat)
    requires AnswerInv(s) && CleanupCanMove(s, r)
    ensures AnswerInv(CleanupMoved(s, r))
  {
  }

  lemma ExternalAnswers(s: State, step: Step)
    requires AnswerInv(s) && Enabled(s, step) && External(step)
    ensures AnswerInv(Apply(s, step))
  {
  }

  // ------------------------------------------------------- routes

  lemma ClientRoutes(s: State, c: nat)
    requires RouteInv(s) && MapInv(s) && PinInv(s) && ClientCanMove(s, c)
    ensures RouteInv(ClientMoved(s, c))
  {
  }

  lemma HandlerRoutes(s: State, r: nat, ok: bool)
    requires RouteInv(s) && HandlerCanMove(s, r, ok)
    ensures RouteInv(HandlerMoved(s, r, ok))
  {
    HandlerShape(s, r, ok);
    hide HandlerMoved, HandlerNext;
  }

  lemma CleanupRoutes(s: State, r: nat)
    requires RouteInv(s) && CleanupCanMove(s, r)
    ensures RouteInv(CleanupMoved(s, r))
  {
    CleanupShape(s, r);
    hide CleanupMoved, CleanupNext;
  }

  lemma ExternalRoutes(s: State, step: Step)
    requires RouteInv(s) && Enabled(s, step) && External(step)
    ensures RouteInv(Apply(s, step))
  {
  }

  // ------------------------------------------------------- every step of every run

  lemma RegOf(s: State, r: nat)
    requires RegsInv(s)
    ensures r < |s.regs| ==> LifeInv(s.regs[r]) && QueueInv(s.regs[r]) && WriteInv(s.regs[r])
  {
  }

  lemma StepKeepsInv(s: State, step: Step)
    requires Inv(s) && Enabled(s, step)
    ensures Inv(Apply(s, step))
  {
    hide LockInv, MapInv, PinInv, RegsInv, TicketInv, VerdictInv, AnswerInv, RouteInv;
    hide LifeInv, QueueInv, WriteInv, ClientMoved, HandlerMoved, CleanupMoved;
    match step
    case ClientMove(c) =>
      ClientLock(s, c);
      ClientMap(s, c);
      ClientRegs(s, c);
      ClientTickets(s, c);
      ClientVerdicts(s, c);
      ClientAnswers(s, c);
      ClientRoutes(s, c);
    case HandlerMove(r, ok) =>
      RegOf(s, r);
      HandlerControl(s, r, ok);
      HandlerRegs(s, r, ok);
      HandlerTickets(s, r, ok);
      HandlerVerdicts(s, r, ok);
      HandlerAnswers(s, r, ok);
      HandlerRoutes(s, r, ok);
    case CleanupMove(r) =>
      RegOf(s, r);
      CleanupControl(s, r);
      CleanupRegs(s, r);
      CleanupTickets(s, r);
      CleanupVerdicts(s, r);
      CleanupAnswers(s, r);
      CleanupRoutes(s, r);
    case _ =>
      ExternalLock(s, step);
      ExternalMap(s, step);
      ExternalRegs(s, step);
      ExternalTickets(s, step);
      ExternalVerdicts(s, step);
      ExternalAnswers(s, step);
      ExternalRoutes(s, step);
  }

  lemma {:induction false} RunKeepsInv(s: State, steps: seq<Step>)
    requires Inv(s)
    ensures Inv(Run(s, steps))
    decreases |steps|
  {
    hide Inv, Enabled, Apply;
    if steps != [] {
      if Enabled(s, steps[0]) {
        StepKeepsInv(s, steps[0]);
        RunKeepsInv(Apply(s, steps[0]), steps[1..]);
      } else {
        RunKeepsInv(s, steps[1..]);
      }
    }
  }
}
