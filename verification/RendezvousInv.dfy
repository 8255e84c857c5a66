/** What every step of the rendezvous keeps: who holds the lock, what the map points at, where each socket
    is, and who was paired with whom. */
module RendezvousInv {
  import opened Locks
  import opened Options
  import opened Rendezvous

  // ------------------------------------------------------- the lock

  predicate Writer(pc: ClientPc) {
    pc.AddPending? || pc.Adding? || pc.Added? || pc.LeavePending? || pc.Removing? || pc.Removed?
  }

  predicate HoldsWrite(pc: ClientPc) {
    pc.Adding? || pc.Added? || pc.Removing? || pc.Removed?
  }

  predicate HoldsRead(pc: CallPc) {
    pc.Reading? || pc.Found? || pc.Delivered? || pc.Rejected?
  }

  ghost predicate LockInv(s: State) {
    && (forall b: nat :: b in s.mx.readers <==> b < |s.calls| && HoldsRead(s.calls[b].pc))
    && (s.mx.writer.Some? ==> s.mx.writer.value < |s.clients|)
    && (forall c :: 0 <= c < |s.clients| ==> (Writer(s.clients[c].pc) <==> s.mx.writer == Some(c)))
    && (forall c :: 0 <= c < |s.clients| && HoldsWrite(s.clients[c].pc) ==> s.mx.readers == {})
  }

  // ------------------------------------------------------- the map

  /** The client has put itself in the map and has not deleted its key yet. */
  predicate Live(pc: ClientPc) {
    !pc.Start? && !pc.AddPending? && !pc.Adding? && !pc.Removed? && !pc.Draining? && !pc.Drained? && !pc.Gone?
  }

  /** Every entry points, under its own key, to a handler that has not removed itself. */
  ghost predicate MapInv(s: State) {
    forall k :: k in s.waiting ==>
      s.waiting[k] < |s.clients| && ClientKey(s.clients[s.waiting[k]]) == k && Live(s.clients[s.waiting[k]].pc)
  }

  /** Between its lookup and its send, a callback's client stays in the map. */
  ghost predicate FoundInv(s: State) {
    forall b :: 0 <= b < |s.calls| && s.calls[b].pc.Found? ==>
      CallKey(s.calls[b]) in s.waiting && s.waiting[CallKey(s.calls[b])] == s.calls[b].pc.client
  }

  // ------------------------------------------------------- mailboxes and sockets

  /** A mailbox is empty before its client is in the map, and once it has been drained for ever. */
  predicate MayHoldMail(pc: ClientPc) {
    !pc.Start? && !pc.AddPending? && !pc.Adding? && !pc.Drained? && !pc.Gone?
  }

  ghost predicate MailInv(s: State) {
    forall c :: 0 <= c < |s.clients| && s.clients[c].mailbox.Some? ==> MayHoldMail(s.clients[c].pc)
  }

  predicate CallHolds(pc: CallPc) {
    pc.WantRead? || pc.Reading? || pc.Found? || pc.Rejected? || pc.Rejecting?
  }

  /** The ledger agrees with the handlers' own state: each socket is where it says, and nowhere else. */
  ghost predicate CallPlaces(s: State) {
    forall b :: 0 <= b < |s.calls| ==>
      && (s.calls[b].place == Nowhere <==> !s.calls[b].hijacked)
      && (s.calls[b].place == AtCall <==> s.calls[b].hijacked && CallHolds(s.calls[b].pc))
      && (s.calls[b].pc.Arrived? ==> !s.calls[b].hijacked)
      && (s.calls[b].place.InMailbox? ==> s.calls[b].place.client < |s.clients|)
      && (s.calls[b].place.AtClient? ==> s.calls[b].place.client < |s.clients|)
  }

  ghost predicate MailPlaces(s: State) {
    && (forall c :: 0 <= c < |s.clients| && s.clients[c].mailbox.Some? && s.clients[c].mailbox.value.Sock? ==>
          s.clients[c].mailbox.value.call < |s.calls| && s.calls[s.clients[c].mailbox.value.call].place == InMailbox(c))
    && (forall b :: 0 <= b < |s.calls| && s.calls[b].place.InMailbox? && s.calls[b].place.client < |s.clients| ==>
          s.clients[s.calls[b].place.client].mailbox == Some(Sock(b)))
  }

  /** The socket a client's handler has in its hands. */
  function SockOf(pc: ClientPc): Option<nat> {
    match pc
    case Took(Sock(b)) => Some(b)
    case Joined(b) => Some(b)
    case Refusing(b) => Some(b)
    case Drained(Sock(b)) => Some(b)
    case _ => None
  }

  ghost predicate HandPlaces(s: State) {
    && (forall c :: 0 <= c < |s.clients| && SockOf(s.clients[c].pc).Some? ==>
          SockOf(s.clients[c].pc).value < |s.calls| && s.calls[SockOf(s.clients[c].pc).value].place == AtClient(c))
    && (forall b :: 0 <= b < |s.calls| && s.calls[b].place.AtClient? && s.calls[b].place.client < |s.clients| ==>
          SockOf(s.clients[s.calls[b].place.client].pc) == Some(b))
  }

  // ------------------------------------------------------- pairing

  /** Before its one receive from the mailbox, a client has not been united with anything. */
  predicate Unpaired(pc: ClientPc) {
    pc.Start? || pc.AddPending? || pc.Adding? || pc.Added? || pc.Asking? || pc.Waiting? || pc.Took?
  }

  /** Whoever holds or was united with a socket received it, and under its own key. */
  ghost predicate PairInv(s: State) {
    && (forall c :: 0 <= c < |s.clients| && s.clients[c].joined.Some? ==>
          && s.clients[c].joined.value < |s.calls|
          && s.calls[s.clients[c].joined.value].takenBy == Some(c)
          && !Unpaired(s.clients[c].pc))
    && (forall c :: 0 <= c < |s.clients| && s.clients[c].pc.Joined? ==>
          s.clients[c].joined == Some(s.clients[c].pc.sock))
    && (forall b :: 0 <= b < |s.calls| ==>
          && (s.calls[b].place.AtClient? ==> s.calls[b].takenBy == Some(s.calls[b].place.client))
          && (s.calls[b].place.Nowhere? || s.calls[b].place.AtCall? || s.calls[b].place.InMailbox?
              ==> s.calls[b].takenBy == None)
          && (s.calls[b].place.InMailbox? && s.calls[b].place.client < |s.clients| ==>
                CallKey(s.calls[b]) == ClientKey(s.clients[s.calls[b].place.client]))
          && (s.calls[b].takenBy.Some? ==>
                s.calls[b].takenBy.value < |s.clients| && CallKey(s.calls[b])
                    == ClientKey(s.clients[s.calls[b].takenBy.value])))
  }

  ghost predicate Inv(s: State) {
    LockInv(s) && MapInv(s) && FoundInv(s) && MailInv(s) && CallPlaces(s) && MailPlaces(s) && HandPlaces(s)
        && PairInv(s)
  }

  // ------------------------------------------------------- what a move touches

  /** A client's move touches its own record, and of the callbacks at most one ledger entry. */
  lemma ClientShape(s: State, c: nat, ok: bool)
    requires ClientCanMove(s, c)
    ensures var t := ClientMoved(s, c, ok);
            && |t.clients| == |s.clients| && t.clients == s.clients[c := t.clients[c]]
            && ClientKey(t.clients[c]) == ClientKey(s.clients[c])
            && |t.calls| == |s.calls|
            && forall b :: 0 <= b < |s.calls| ==>
                 CallKey(t.calls[b]) == CallKey(s.calls[b]) && t.calls[b].pc == s.calls[b].pc
  {
  }

  // ------------------------------------------------------- lock and map

  lemma ClientLock(s: State, c: nat, ok: bool)
    requires LockInv(s) && ClientCanMove(s, c)
    ensures LockInv(ClientMoved(s, c, ok))
  {
    var k, t := s.clients[c], ClientMoved(s, c, ok);
    assert Writer(k.pc) ==> s.mx.writer == Some(c);
    hide LockInv;
    ClientLocks(s, c, ok);
    hide ClientMoved;
    LockWalk(s, c, t.clients[c].pc, t.mx);
    LockFrame(SetPc(s, c, t.clients[c].pc).(mx := t.mx), t);
  }

  lemma ClientLocks(s: State, c: nat, ok: bool)
    requires ClientCanMove(s, c)
    ensures var k, t := s.clients[c], ClientMoved(s, c, ok);
            var pc := t.clients[c].pc;
            && |t.clients| == |s.clients| && |t.calls| == |s.calls| && t.mx.readers == s.mx.readers
            && (forall d :: 0 <= d < |s.clients| && d != c ==> t.clients[d].pc == s.clients[d].pc)
            && (forall b :: 0 <= b < |s.calls| ==> t.calls[b].pc == s.calls[b].pc)
            && (Writer(k.pc) && Writer(pc) ==> t.mx == s.mx)
            && (Writer(pc) && !Writer(k.pc) ==> s.mx.writer.None? && t.mx.writer == Some(c))
            && (!Writer(pc) ==> t.mx.writer == if Writer(k.pc) then None else s.mx.writer)
            && (HoldsWrite(pc) && !HoldsWrite(k.pc) ==> s.mx.readers == {})
  {
  }

  /** One client moves along its program; the writer field follows it. */
  lemma LockWalk(s: State, c: nat, pc: ClientPc, mx: RWMutex<nat>)
    requires LockInv(s) && c < |s.clients| && mx.readers == s.mx.readers
    requires mx.writer == if Writer(pc) then Some(c) else if Writer(s.clients[c].pc) then None else s.mx.writer
    requires Writer(pc) && !Writer(s.clients[c].pc) ==> s.mx.writer.None?
    requires HoldsWrite(pc) && !HoldsWrite(s.clients[c].pc) ==> s.mx.readers == {}
    ensures LockInv(SetPc(s, c, pc).(mx := mx))
  {
  }

  lemma LockFrame(s: State, t: State)
    requires LockInv(s) && t.mx == s.mx && |t.clients| == |s.clients| && |t.calls| == |s.calls|
    requires forall c :: 0 <= c < |s.clients| ==> t.clients[c].pc == s.clients[c].pc
    requires forall b :: 0 <= b < |s.calls| ==> t.calls[b].pc == s.calls[b].pc
    ensures LockInv(t)
  {
  }

  lemma CallLock(s: State, b: nat, ok: bool)
    requires LockInv(s) && CallCanMove(s, b)
    ensures LockInv(CallMoved(s, b, ok))
  {
  }

  lemma ExternalLock(s: State, step: Step)
    requires LockInv(s) && Enabled(s, step) && External(step)
    ensures LockInv(Apply(s, step))
  {
    if !step.DialIn? && !step.CallIn? {
      hide LockInv;
      var c, t := step.client, Apply(s, step);
      LockWalk(s, c, t.clients[c].pc, t.mx);
      LockFrame(SetPc(s, c, t.clients[c].pc).(mx := t.mx), t);
    }
  }

  ghost predicate MapKept(s: State, t: State) {
    && t.waiting == s.waiting && |t.clients| == |s.clients| && |t.calls| == |s.calls|
    && (forall c :: 0 <= c < |s.clients| ==>
          ClientKey(t.clients[c]) == ClientKey(s.clients[c]) && (Live(s.clients[c].pc) ==> Live(t.clients[c].pc)))
    && (forall b :: 0 <= b < |s.calls| ==>
          CallKey(t.calls[b]) == CallKey(s.calls[b]) && (t.calls[b].pc.Found? ==> t.calls[b].pc == s.calls[b].pc))
  }

  lemma MapFrame(s: State, t: State)
    requires MapInv(s) && FoundInv(s) && MapKept(s, t)
    ensures MapInv(t) && FoundInv(t)
  {
  }

  /** Only a client inside the write lock changes the map, and then no callback is between lookup and send. */
  lemma ClientMap(s: State, c: nat, ok: bool)
    requires LockInv(s) && MapInv(s) && FoundInv(s) && ClientCanMove(s, c)
    ensures MapInv(ClientMoved(s, c, ok)) && FoundInv(ClientMoved(s, c, ok))
  {
    if s.clients[c].pc.Adding? || s.clients[c].pc.Removing? {
      ClientMapChange(s, c, ok);
    } else {
      hide LockInv, MapInv, FoundInv, ClientMoved;
      ClientShape(s, c, ok);
      ClientMapSame(s, c, ok);
      MapFrame(s, ClientMoved(s, c, ok));
    }
  }

  lemma ClientMapChange(s: State, c: nat, ok: bool)
    requires LockInv(s) && MapInv(s) && FoundInv(s) && ClientCanMove(s, c)
    requires s.clients[c].pc.Adding? || s.clients[c].pc.Removing?
    ensures MapInv(ClientMoved(s, c, ok)) && FoundInv(ClientMoved(s, c, ok))
  {
    assert s.mx.readers == {};
  }

  lemma ClientMapSame(s: State, c: nat, ok: bool)
    requires ClientCanMove(s, c) && !s.clients[c].pc.Adding? && !s.clients[c].pc.Removing?
    ensures var t := ClientMoved(s, c, ok); t.waiting == s.waiting && (Live(s.clients[c].pc) ==> Live(t.clients[c].pc))
  {
  }

  lemma CallMap(s: State, b: nat, ok: bool)
    requires MapInv(s) && FoundInv(s) && CallCanMove(s, b)
    ensures MapInv(CallMoved(s, b, ok)) && FoundInv(CallMoved(s, b, ok))
  {
    if s.calls[b].pc.Reading? {
      hide MapInv;
      assert CallMoved(s, b, ok).clients == s.clients && CallMoved(s, b, ok).waiting == s.waiting;
      CallReads(s, b, ok);
    } else {
      hide MapInv, FoundInv;
      MapFrame(s, CallMoved(s, b, ok));
    }
  }

  lemma CallReads(s: State, b: nat, ok: bool)
    requires MapInv(s) && FoundInv(s) && CallCanMove(s, b) && s.calls[b].pc.Reading?
    ensures MapInv(CallMoved(s, b, ok)) && FoundInv(CallMoved(s, b, ok))
  {
  }

  lemma ExternalMap(s: State, step: Step)
    requires MapInv(s) && FoundInv(s) && Enabled(s, step) && External(step)
    ensures MapInv(Apply(s, step)) && FoundInv(Apply(s, step))
  {
    if !step.DialIn? && !step.CallIn? {
      hide MapInv, FoundInv;
      MapFrame(s, Apply(s, step));
    }
  }

  // ------------------------------------------------------- mail

  lemma ClientMail(s: State, c: nat, ok: bool)
    requires MailInv(s) && ClientCanMove(s, c)
    ensures MailInv(ClientMoved(s, c, ok))
  {
  }

  lemma CallMail(s: State, b: nat, ok: bool)
    requires MailInv(s) && MapInv(s) && FoundInv(s) && CallCanMove(s, b)
    ensures MailInv(CallMoved(s, b, ok))
  {
  }

  lemma ExternalMail(s: State, step: Step)
    requires MailInv(s) && Enabled(s, step) && External(step)
    ensures MailInv(Apply(s, step))
  {
  }

  // ------------------------------------------------------- sockets: five ways of moving on

  ghost predicate Sockets(s: State) {
    CallPlaces(s) && MailPlaces(s) && HandPlaces(s) && PairInv(s)
  }

  /** Handlers move along, but no socket, mailbox or pairing changes. */
  ghost predicate Walks(s: State, t: State) {
    && |t.clients| == |s.clients| && |t.calls| == |s.calls|
    && (forall c :: 0 <= c < |s.clients| ==>
          var k, l := s.clients[c], t.clients[c];
          && l.mailbox == k.mailbox && l.joined == k.joined && ClientKey(l) == ClientKey(k)
          && SockOf(l.pc) == SockOf(k.pc) && l.pc.Joined? == k.pc.Joined? && (Unpaired(l.pc) ==> Unpaired(k.pc)))
    && (forall b :: 0 <= b < |s.calls| ==>
          var k, l := s.calls[b], t.calls[b];
          && l.hijacked == k.hijacked && l.place == k.place && l.takenBy == k.takenBy && CallKey(l) == CallKey(k)
          && (l.hijacked ==> CallHolds(l.pc) == CallHolds(k.pc)) && (l.pc.Arrived? ==> k.pc.Arrived?))
  }

  lemma WalkPlaces(s: State, t: State)
    requires CallPlaces(s) && MailPlaces(s) && HandPlaces(s) && Walks(s, t)
    ensures CallPlaces(t) && MailPlaces(t) && HandPlaces(t)
  {
  }

  lemma WalkPairs(s: State, t: State)
    requires PairInv(s) && Walks(s, t)
    ensures PairInv(t)
  {
  }

  lemma WalkKeeps(s: State, t: State)
    requires Sockets(s) && Walks(s, t)
    ensures Sockets(t)
  {
    hide CallPlaces, MailPlaces, HandPlaces, PairInv, Walks;
    WalkPlaces(s, t);
    WalkPairs(s, t);
  }

  /** A client receives its mail. */
  ghost predicate Takes(s: State, c: nat, p: Parcel, pc: ClientPc) {
    && c < |s.clients| && s.clients[c].mailbox == Some(p) && SockOf(s.clients[c].pc) == None && !s.clients[c].pc.Joined?
    && SockOf(pc) == (if p.Sock? then Some(p.call) else None) && !pc.Joined?
    && (Unpaired(pc) ==> Unpaired(s.clients[c].pc))
  }

  lemma TakePlaces(s: State, c: nat, p: Parcel, pc: ClientPc)
    requires CallPlaces(s) && MailPlaces(s) && HandPlaces(s) && Takes(s, c, p, pc)
    ensures var t := Take(s, c, p, pc); CallPlaces(t) && MailPlaces(t) && HandPlaces(t)
  {
  }

  lemma TakePairs(s: State, c: nat, p: Parcel, pc: ClientPc)
    requires CallPlaces(s) && MailPlaces(s) && PairInv(s) && Takes(s, c, p, pc)
    ensures PairInv(Take(s, c, p, pc))
  {
    var t := Take(s, c, p, pc);
    TakeShape(s, c, p, pc);
    if p.Sock? {
      var b := p.call;
      assert s.calls[b].place == InMailbox(c);
      assert CallKey(s.calls[b]) == ClientKey(s.clients[c]);
    }
    hide Take, CallPlaces, MailPlaces, ClientKey, CallKey;
  }

  lemma TakeShape(s: State, c: nat, p: Parcel, pc: ClientPc)
    requires c < |s.clients|
    ensures var t := Take(s, c, p, pc);
            && |t.clients| == |s.clients| && |t.calls| == |s.calls|
            && (forall d :: 0 <= d < |s.clients| && d != c ==> t.clients[d] == s.clients[d])
            && t.clients[c].pc == pc && t.clients[c].joined == s.clients[c].joined
                && ClientKey(t.clients[c]) == ClientKey(s.clients[c])
            && (forall b :: 0 <= b < |s.calls| ==>
                  if p == Sock(b) then t.calls[b] == s.calls[b].(place := AtClient(c), takenBy := Some(c))
                      else t.calls[b] == s.calls[b])
            && (forall b :: 0 <= b < |s.calls| ==> CallKey(t.calls[b]) == CallKey(s.calls[b]))
  {
  }

  lemma TakeKeeps(s: State, c: nat, p: Parcel, pc: ClientPc)
    requires Sockets(s) && Takes(s, c, p, pc)
    ensures Sockets(Take(s, c, p, pc))
  {
    hide CallPlaces, MailPlaces, HandPlaces, PairInv, Take;
    TakePlaces(s, c, p, pc);
    TakePairs(s, c, p, pc);
  }

  /** A client closes the socket in its hands. */
  ghost predicate Closes(s: State, c: nat, b: nat, pc: ClientPc) {
    c < |s.clients| && SockOf(s.clients[c].pc) == Some(b) && SockOf(pc) == None && !pc.Joined? && !Unpaired(pc)
  }

  lemma ClosePlaces(s: State, c: nat, b: nat, pc: ClientPc)
    requires CallPlaces(s) && MailPlaces(s) && HandPlaces(s) && Closes(s, c, b, pc)
    ensures var t := SetPlace(SetPc(s, c, pc), Sock(b), Closed); CallPlaces(t) && MailPlaces(t) && HandPlaces(t)
  {
  }

  lemma CloseShape(s: State, c: nat, b: nat, pc: ClientPc)
    requires c < |s.clients|
    ensures var t := SetPlace(SetPc(s, c, pc), Sock(b), Closed);
            && |t.clients| == |s.clients| && |t.calls| == |s.calls|
            && (forall d :: 0 <= d < |s.clients| ==>
                  && t.clients[d].joined == s.clients[d].joined && ClientKey(t.clients[d]) == ClientKey(s.clients[d])
                  && (if d == c then t.clients[d].pc == pc else t.clients[d].pc == s.clients[d].pc))
            && (forall d :: 0 <= d < |s.calls| ==>
                  && t.calls[d].takenBy == s.calls[d].takenBy && CallKey(t.calls[d]) == CallKey(s.calls[d])
                  && (t.calls[d].place == if d == b then Closed else s.calls[d].place))
  {
  }

  lemma ClosePairs(s: State, c: nat, b: nat, pc: ClientPc)
    requires PairInv(s) && Closes(s, c, b, pc)
    ensures PairInv(SetPlace(SetPc(s, c, pc), Sock(b), Closed))
  {
    CloseShape(s, c, b, pc);
    hide SetPlace, SetPc, ClientKey, CallKey;
  }

  lemma CloseKeeps(s: State, c: nat, b: nat, pc: ClientPc)
    requires Sockets(s) && Closes(s, c, b, pc)
    ensures Sockets(SetPlace(SetPc(s, c, pc), Sock(b), Closed))
  {
    hide CallPlaces, MailPlaces, HandPlaces, PairInv, SetPlace, SetPc;
    ClosePlaces(s, c, b, pc);
    ClosePairs(s, c, b, pc);
  }

  function Join(s: State, c: nat, b: nat): State
    requires c < |s.clients|
  {
    s.(clients := s.clients[c := s.clients[c].(pc := Joined(b), joined := Some(b))])
  }

  lemma JoinPlaces(s: State, c: nat, b: nat)
    requires CallPlaces(s) && MailPlaces(s) && HandPlaces(s) && c < |s.clients| && s.clients[c].pc == Took(Sock(b))
    ensures CallPlaces(Join(s, c, b)) && MailPlaces(Join(s, c, b)) && HandPlaces(Join(s, c, b))
  {
  }

  lemma JoinPairs(s: State, c: nat, b: nat)
    requires HandPlaces(s) && PairInv(s) && c < |s.clients| && s.clients[c].pc == Took(Sock(b))
    ensures PairInv(Join(s, c, b))
  {
    assert SockOf(s.clients[c].pc) == Some(b);
    assert s.calls[b].place == AtClient(c);
    hide HandPlaces, SockOf;
  }

  lemma JoinKeeps(s: State, c: nat, b: nat)
    requires Sockets(s) && c < |s.clients| && s.clients[c].pc == Took(Sock(b))
    ensures Sockets(Join(s, c, b))
  {
    hide CallPlaces, MailPlaces, HandPlaces, PairInv, Join;
    JoinPlaces(s, c, b);
    JoinPairs(s, c, b);
  }

  /** A callback's hijack, its delivery, and the closing of a rejected socket. */
  lemma HijackKeeps(s: State, b: nat)
    requires Sockets(s) && b < |s.calls| && s.calls[b].pc == Arrived
    ensures Sockets(s.(calls := s.calls[b := s.calls[b].(pc := WantRead, hijacked := true, place := AtCall)]))
  {
  }

  function Deliver(s: State, b: nat, c: nat): State
    requires b < |s.calls| && c < |s.clients|
  {
    SetPlace(SetCall(s, b, Delivered), ParcelOf(s, b), InMailbox(c))
      .(clients := s.clients[c := s.clients[c].(mailbox := Some(ParcelOf(s, b)))])
  }

  ghost predicate Delivers(s: State, b: nat, c: nat) {
    b < |s.calls| && c < |s.clients| && s.calls[b].pc == Found(c) && s.clients[c].mailbox.None?
  }

  lemma DeliverCallPlaces(s: State, b: nat, c: nat)
    requires CallPlaces(s) && Delivers(s, b, c)
    ensures CallPlaces(Deliver(s, b, c))
  {
  }

  lemma DeliverMailPlaces(s: State, b: nat, c: nat)
    requires CallPlaces(s) && MailPlaces(s) && Delivers(s, b, c)
    ensures MailPlaces(Deliver(s, b, c))
  {
    var t, p := Deliver(s, b, c), ParcelOf(s, b);
    assert forall d :: 0 <= d < |s.clients| && d != c ==> t.clients[d] == s.clients[d];
    assert forall d :: 0 <= d < |s.calls| && d != b ==> t.calls[d] == s.calls[d];
    assert t.clients[c].mailbox == Some(p);
    hide Deliver;
  }

  lemma DeliverHandPlaces(s: State, b: nat, c: nat)
    requires CallPlaces(s) && HandPlaces(s) && Delivers(s, b, c)
    ensures HandPlaces(Deliver(s, b, c))
  {
    var t := Deliver(s, b, c);
    assert forall d :: 0 <= d < |s.clients| ==> t.clients[d].pc == s.clients[d].pc;
    assert forall d :: 0 <= d < |s.calls| && d != b ==> t.calls[d] == s.calls[d];
    assert !t.calls[b].place.AtClient?;
    hide Deliver, SockOf;
  }

  lemma DeliverPairs(s: State, b: nat, c: nat)
    requires CallPlaces(s) && PairInv(s) && Delivers(s, b, c)
    requires CallKey(s.calls[b]) == ClientKey(s.clients[c])
    ensures PairInv(Deliver(s, b, c))
  {
  }

  lemma DeliverKeeps(s: State, b: nat, c: nat)
    requires Sockets(s) && MapInv(s) && FoundInv(s) && Delivers(s, b, c)
    ensures Sockets(Deliver(s, b, c))
  {
    assert CallKey(s.calls[b]) == ClientKey(s.clients[c]);
    hide CallPlaces, MailPlaces, HandPlaces, PairInv, Deliver, MapInv, FoundInv;
    DeliverCallPlaces(s, b, c);
    DeliverMailPlaces(s, b, c);
    DeliverHandPlaces(s, b, c);
    DeliverPairs(s, b, c);
  }

  ghost predicate Rejects(s: State, b: nat) {
    b < |s.calls| && s.calls[b].pc == Rejecting
  }

  function Reject(s: State, b: nat): State
    requires b < |s.calls|
  {
    SetPlace(SetCall(s, b, CallDone), ParcelOf(s, b), Closed)
  }

  lemma RejectShape(s: State, b: nat)
    requires b < |s.calls|
    ensures var t, k := Reject(s, b), s.calls[b];
            && t.clients == s.clients && |t.calls| == |s.calls|
            && t.calls == s.calls[b := k.(pc := CallDone, place := if k.hijacked then Closed else k.place)]
  {
  }

  lemma RejectPlaces(s: State, b: nat)
    requires CallPlaces(s) && MailPlaces(s) && HandPlaces(s) && Rejects(s, b)
    ensures var t := Reject(s, b); CallPlaces(t) && MailPlaces(t) && HandPlaces(t)
  {
    RejectShape(s, b);
    hide Reject;
  }

  lemma RejectPairs(s: State, b: nat)
    requires CallPlaces(s) && PairInv(s) && Rejects(s, b)
    ensures PairInv(Reject(s, b))
  {
    RejectShape(s, b);
    hide Reject;
  }

  lemma RejectKeeps(s: State, b: nat)
    requires Sockets(s) && Rejects(s, b)
    ensures Sockets(Reject(s, b))
  {
    hide CallPlaces, MailPlaces, HandPlaces, PairInv, Reject;
    RejectPlaces(s, b);
    RejectPairs(s, b);
  }

  lemma ArrivalPlaces(s: State, step: Step)
    requires CallPlaces(s) && MailPlaces(s) && HandPlaces(s) && Enabled(s, step) && (step.DialIn? || step.CallIn?)
    ensures var t := Apply(s, step); CallPlaces(t) && MailPlaces(t) && HandPlaces(t)
  {
  }

  lemma ArrivalPairs(s: State, step: Step)
    requires PairInv(s) && CallPlaces(s) && Enabled(s, step) && (step.DialIn? || step.CallIn?)
    ensures PairInv(Apply(s, step))
  {
  }

  lemma ArrivalKeeps(s: State, step: Step)
    requires Sockets(s) && Enabled(s, step) && (step.DialIn? || step.CallIn?)
    ensures Sockets(Apply(s, step))
  {
    hide CallPlaces, MailPlaces, HandPlaces, PairInv, Apply;
    ArrivalPlaces(s, step);
    ArrivalPairs(s, step);
  }

  // ------------------------------------------------------- sockets, step by step

  predicate ClientOnlyWalks(k: Client, ok: bool) {
    && !k.pc.Waiting? && !(k.pc.Draining? && k.mailbox.Some?) && !k.pc.Refusing?
    && !(k.pc.Drained? && k.pc.parcel.Sock?) && !(k.pc.Took? && k.pc.parcel.Sock? && ok)
  }

  lemma ClientWalk(s: State, c: nat, ok: bool)
    requires ClientCanMove(s, c) && ClientOnlyWalks(s.clients[c], ok)
    ensures var k, t := s.clients[c], ClientMoved(s, c, ok);
            var l := t.clients[c];
            && t.calls == s.calls
            && l.mailbox == k.mailbox && l.joined == k.joined
            && SockOf(l.pc) == SockOf(k.pc) && !l.pc.Joined? && !k.pc.Joined? && (Unpaired(l.pc) ==> Unpaired(k.pc))
  {
  }

  lemma ClientSockets(s: State, c: nat, ok: bool)
    requires Sockets(s) && ClientCanMove(s, c)
    ensures Sockets(ClientMoved(s, c, ok))
  {
    hide Sockets;
    var k, t := s.clients[c], ClientMoved(s, c, ok);
    if ClientOnlyWalks(k, ok) {
      hide ClientMoved, SockOf, Unpaired;
      ClientShape(s, c, ok);
      ClientWalk(s, c, ok);
      WalkKeeps(s, t);
    } else if k.pc.Draining? {
      TakeKeeps(s, c, k.mailbox.value, Drained(k.mailbox.value));
    } else if k.pc.Waiting? {
      TakeKeeps(s, c, k.mailbox.value, Took(k.mailbox.value));
    } else if k.pc.Refusing? {
      CloseKeeps(s, c, k.pc.sock, Leaving);
    } else if k.pc.Drained? {
      CloseKeeps(s, c, k.pc.parcel.call, Gone);
    } else {
      JoinKeeps(s, c, k.pc.parcel.call);
    }
  }

  lemma CallSockets(s: State, b: nat, ok: bool)
    requires Sockets(s) && MapInv(s) && FoundInv(s) && CallCanMove(s, b)
    ensures Sockets(CallMoved(s, b, ok))
  {
    var k, t := s.calls[b], CallMoved(s, b, ok);
    hide Sockets, MapInv, FoundInv;
    if k.pc.Arrived? && ok {
      HijackKeeps(s, b);
    } else if k.pc.Found? && s.clients[k.pc.client].mailbox.None? {
      DeliverKeeps(s, b, k.pc.client);
    } else if k.pc.Rejecting? {
      RejectKeeps(s, b);
    } else {
      CallWalks(s, b, ok);
      WalkKeeps(s, t);
    }
  }

  lemma CallWalks(s: State, b: nat, ok: bool)
    requires Sockets(s) && CallCanMove(s, b) && !s.calls[b].pc.Rejecting?
    requires s.calls[b].pc.Arrived? ==> !ok
    requires s.calls[b].pc.Found? ==> s.clients[s.calls[b].pc.client].mailbox.Some?
    ensures Walks(s, CallMoved(s, b, ok))
  {
  }

  lemma ExternalSockets(s: State, step: Step)
    requires Sockets(s) && Enabled(s, step) && External(step)
    ensures Sockets(Apply(s, step))
  {
    hide Sockets;
    if step.DialIn? || step.CallIn? {
      ArrivalKeeps(s, step);
    } else if step.TunnelEnds? {
      CloseKeeps(s, step.client, s.clients[step.client].pc.sock, Leaving);
    } else {
      WalkKeeps(s, Apply(s, step));
    }
  }

  // ------------------------------------------------------- every step of every run

  lemma StepKeepsInv(s: State, step: Step)
    requires Inv(s) && Enabled(s, step)
    ensures Inv(Apply(s, step))
  {
    hide LockInv, MapInv, FoundInv, MailInv, CallPlaces, MailPlaces, HandPlaces, PairInv;
    hide ClientMoved, CallMoved;
    match step
    case ClientMove(c, ok) =>
      ClientLock(s, c, ok);
      ClientMap(s, c, ok);
      ClientMail(s, c, ok);
      ClientSockets(s, c, ok);
    case CallMove(b, ok) =>
      CallLock(s, b, ok);
      CallMap(s, b, ok);
      CallMail(s, b, ok);
      CallSockets(s, b, ok);
    case _ =>
      ExternalLock(s, step);
      ExternalMap(s, step);
      ExternalMail(s, step);
      ExternalSockets(s, step);
  }

  lemma {:induction false} RunKeepsInv(s: State, steps: seq<Step>)
    requires Inv(s)
    ensures Inv(Run(s, steps))
    decreases |steps|
  {
    hide Inv, Enabled, Apply;
    if steps != [] {
      if Enabled(s, steps[0]) {
        StepKeepsInv(s, steps[0]);
        RunKeepsInv(Apply(s, steps[0]), steps[1..]);
      } else {
        RunKeepsInv(s, steps[1..]);
      }
    }
  }
}
