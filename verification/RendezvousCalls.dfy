/** What one call does to the rendezvous system when its steps are taken in a row with the lock free. */
module RendezvousCalls {
  import opened Locks
  import opened Options
  import R = Rendezvous
  import RI = RendezvousInv
  import Runs

  predicate Free(s: R.State) {
    s.mx == RWMutex(None, {})
  }

  // ------------------------------------------------------- AddConnectingClient

  function EnrollSteps(s: R.State, clientId: string, serverId: string): seq<R.Step> {
    [R.DialIn(clientId, serverId)] + Runs.Times(4, R.ClientMove(|s.clients|, true))
  }

  /** A new client whose handler has got to `pc`. */
  function Enrolling(s: R.State, clientId: string, serverId: string, pc: R.ClientPc): R.State {
    s.(clients := s.clients + [R.Client(clientId, serverId, pc, None, None)])
  }

  function Enrolled(s: R.State, clientId: string, serverId: string): R.State {
    Enrolling(s, clientId, serverId, R.Asking).(waiting := s.waiting[clientId + serverId := |s.clients|])
  }

  lemma EnrollLocks(s: R.State, clientId: string, serverId: string)
    requires Free(s)
    ensures var c := |s.clients|;
            && Runs.Repeat(R.Next, Enrolling(s, clientId, serverId, R.Start), R.ClientMove(c, true), 2)
            == Enrolling(s, clientId, serverId, R.Adding).(mx := RWMutex(Some(c), {}))
  {
    hide R.CallMoved, R.CallCanMove;
    var c := |s.clients|;
    assert R.Next(Enrolling(s, clientId, serverId, R.Start), R.ClientMove(c, true))
        == Enrolling(s, clientId, serverId, R.AddPending).(mx := RWMutex(Some(c), {}));
  }

  lemma EnrollUnlocks(s: R.State, clientId: string, serverId: string)
    requires Free(s)
    ensures var c := |s.clients|;
            && Runs.Repeat(R.Next, Enrolling(s, clientId, serverId, R.Adding).(mx := RWMutex(Some(c), {})),
                R.ClientMove(c, true), 2)
            == Enrolled(s, clientId, serverId)
  {
    hide R.CallMoved, R.CallCanMove;
    var c := |s.clients|;
    assert R.Next(Enrolling(s, clientId, serverId, R.Adding).(mx := RWMutex(Some(c), {})), R.ClientMove(c, true))
        == Enrolled(s, clientId, serverId).(clients := Enrolling(s, clientId, serverId, R.Added).clients,
            mx := RWMutex(Some(c), {}));
  }

  /** The key now leads to the new client, whomever it led to before. */
  lemma EnrollAlone(s: R.State, clientId: string, serverId: string)
    requires Free(s)
    ensures R.Run(s, EnrollSteps(s, clientId, serverId)) == Enrolled(s, clientId, serverId)
  {
    var m, s1 := R.ClientMove(|s.clients|, true), Enrolling(s, clientId, serverId, R.Start);
    Runs.FirstThenTimes(R.Next, s, R.DialIn(clientId, serverId), m, 4);
    assert R.Next(s, R.DialIn(clientId, serverId)) == s1;
    hide Runs.Run, Runs.Repeat, R.Next;
    Runs.RepeatSum(R.Next, s1, m, 2, 2);
    EnrollLocks(s, clientId, serverId);
    EnrollUnlocks(s, clientId, serverId);
  }

  // ------------------------------------------------------- a callback

  function CallBackSteps(s: R.State, clientId: string, serverId: string, hijackOk: bool): seq<R.Step> {
    [R.CallIn(clientId, serverId)] + Runs.Times(6, R.CallMove(|s.calls|, hijackOk))
  }

  /** A new callback whose handler has got to `pc`. */
  function Calling(s: R.State, clientId: string, serverId: string, pc: R.CallPc, hijacked: bool): R.State {
    s.(calls := s.calls + [R.Call(clientId, serverId, pc, hijacked, if hijacked then R.AtCall else R.Nowhere, None)])
  }

  function Handed(s: R.State, hijacked: bool): R.Parcel {
    if hijacked then R.Sock(|s.calls|) else R.NoSock
  }

  /** A callback that was delivered to client `c`. */
  function DeliveredTo(s: R.State, clientId: string, serverId: string, hijacked: bool, c: nat): R.State
    requires c < |s.clients|
  {
    s.(calls := s.calls + [R.Call(clientId, serverId, R.CallDone, hijacked, if hijacked then R.InMailbox(c)
        else R.Nowhere, None)],
       clients := s.clients[c := s.clients[c].(mailbox := Some(Handed(s, hijacked)))])
  }

  /** A callback that was not, with its socket closed. */
  function RejectedAndClosed(s: R.State, clientId: string, serverId: string, hijacked: bool): R.State {
    s.(calls := s.calls + [R.Call(clientId, serverId, R.CallDone, hijacked, if hijacked then R.Closed
        else R.Nowhere, None)])
  }

  predicate Deliverable(s: R.State, key: string) {
    key in s.waiting && s.waiting[key] < |s.clients| && s.clients[s.waiting[key]].mailbox.None?
  }

  function CalledBack(s: R.State, clientId: string, serverId: string, hijacked: bool): R.State {
    if Deliverable(s, clientId + serverId) then DeliveredTo(s, clientId, serverId, hijacked,
        s.waiting[clientId + serverId])
    else RejectedAndClosed(s, clientId, serverId, hijacked)
  }

  /** The hijack, RLock and the lookup. */
  lemma LookUp(s: R.State, clientId: string, serverId: string, ok: bool)
    requires Free(s)
    ensures var b, key := |s.calls|, clientId + serverId;
            && Runs.Repeat(R.Next, Calling(s, clientId, serverId, R.Arrived, false), R.CallMove(b, ok), 3)
            == Calling(s, clientId, serverId, if key in s.waiting then R.Found(s.waiting[key])
                else R.Rejected, ok).(mx := RWMutex(None, {b}))
  {
    hide R.ClientMoved, R.ClientCanMove;
    var b := |s.calls|;
    var m := R.CallMove(b, ok);
    assert R.Next(Calling(s, clientId, serverId, R.Arrived, false), m)
        == Calling(s, clientId, serverId, R.WantRead, ok);
    assert R.Next(Calling(s, clientId, serverId, R.WantRead, ok), m)
        == Calling(s, clientId, serverId, R.Reading, ok).(mx := RWMutex(None, {b}));
  }

  /** The send that does not block, RUnlock, and the close of a socket that was not delivered. */
  lemma HandOver(s: R.State, clientId: string, serverId: string, ok: bool, c: nat)
    requires Free(s) && c < |s.clients|
    ensures var b := |s.calls|;
            && Runs.Repeat(R.Next, Calling(s, clientId, serverId, R.Found(c), ok).(mx := RWMutex(None, {b})),
                R.CallMove(b, ok), 3)
            == if s.clients[c].mailbox.None? then DeliveredTo(s, clientId, serverId, ok, c)
               else RejectedAndClosed(s, clientId, serverId, ok)
  {
    hide R.ClientMoved, R.ClientCanMove;
    var b := |s.calls|;
    var m, mx, found := R.CallMove(b, ok), RWMutex(None, {b}),
        Calling(s, clientId, serverId, R.Found(c), ok).(mx := RWMutex(None, {b}));
    if s.clients[c].mailbox.None? {
      var t := DeliveredTo(s, clientId, serverId, ok, c);
      assert R.Next(found, m) == t.(calls := s.calls + [t.calls[b].(pc := R.Delivered)], mx := mx);
      assert R.Next(t.(calls := s.calls + [t.calls[b].(pc := R.Delivered)], mx := mx), m) == t;
      assert R.Next(t, m) == t;
    } else {
      Runs.RepeatSum(R.Next, found, m, 1, 2);
      assert R.Next(found, m) == Calling(s, clientId, serverId, R.Rejected, ok).(mx := mx);
      FromRejected(s, clientId, serverId, ok);
    }
  }

  lemma FromRejected(s: R.State, clientId: string, serverId: string, ok: bool)
    requires Free(s)
    ensures var b := |s.calls|;
            var rejected := Calling(s, clientId, serverId, R.Rejected, ok).(mx := RWMutex(None, {b}));
            && Runs.Repeat(R.Next, rejected, R.CallMove(b, ok), 2) == RejectedAndClosed(s, clientId, serverId, ok)
            && Runs.Repeat(R.Next, rejected, R.CallMove(b, ok), 3) == RejectedAndClosed(s, clientId, serverId, ok)
  {
    hide R.ClientMoved, R.ClientCanMove;
    var b := |s.calls|;
    var m := R.CallMove(b, ok);
    assert R.Next(Calling(s, clientId, serverId, R.Rejected, ok).(mx := RWMutex(None, {b})), m)
        == Calling(s, clientId, serverId, R.Rejecting, ok);
    assert R.Next(Calling(s, clientId, serverId, R.Rejecting, ok), m) == RejectedAndClosed(s, clientId, serverId, ok);
    assert R.Next(RejectedAndClosed(s, clientId, serverId, ok), m) == RejectedAndClosed(s, clientId, serverId, ok);
  }

  /** A callback ends in the mailbox of the client under its key, if that is empty, and otherwise with its
      socket closed; nothing else changes. */
  lemma CallBackAlone(s: R.State, clientId: string, serverId: string, ok: bool)
    requires RI.MapInv(s) && Free(s) && clientId != "" && serverId != ""
    ensures R.Run(s, CallBackSteps(s, clientId, serverId, ok)) == CalledBack(s, clientId, serverId, ok)
  {
    var m, key, s1 := R.CallMove(|s.calls|, ok), clientId + serverId, Calling(s, clientId, serverId, R.Arrived, false);
    assert key in s.waiting ==> s.waiting[key] < |s.clients|;
    Runs.FirstThenTimes(R.Next, s, R.CallIn(clientId, serverId), m, 6);
    assert R.Next(s, R.CallIn(clientId, serverId)) == s1;
    hide Runs.Run, Runs.Repeat, R.Next, RI.MapInv;
    Runs.RepeatSum(R.Next, s1, m, 3, 3);
    LookUp(s, clientId, serverId, ok);
    if key in s.waiting {
      HandOver(s, clientId, serverId, ok, s.waiting[key]);
    } else {
      FromRejected(s, clientId, serverId, ok);
    }
  }

  // ------------------------------------------------------- a client takes its callback, and leaves

  function Joined(s: R.State, c: nat, b: nat): R.State
    requires c < |s.clients| && b < |s.calls|
  {
    s.(clients := s.clients[c := s.clients[c].(pc := R.Joined(b), mailbox := None, joined := Some(b))],
       calls := s.calls[b := s.calls[b].(place := R.AtClient(c), takenBy := Some(c))])
  }

  /** A client that was told its request was passed, with a socket in its mailbox, is united with it. */
  lemma JoinAlone(s: R.State, c: nat, b: nat)
    requires c < |s.clients| && b < |s.calls| && s.clients[c].pc.Waiting? && s.clients[c].mailbox == Some(R.Sock(b))
    ensures R.Run(s, Runs.Times(2, R.ClientMove(c, true))) == Joined(s, c, b)
  {
    hide R.CallMoved, R.CallCanMove;
    var m := R.ClientMove(c, true);
    Runs.RunTimes(R.Next, s, m, 2);
    Runs.RepeatTwo(R.Next, s, m);
    assert R.Next(s, m) == s.(clients := s.clients[c := s.clients[c].(pc := R.Took(R.Sock(b)), mailbox := None)],
                             calls := s.calls[b := s.calls[b].(place := R.AtClient(c), takenBy := Some(c))]);
  }

  /** What becomes of the sockets when client `c` closes what is in its mailbox. */
  function CallsDrained(s: R.State, c: nat): seq<R.Call>
    requires c < |s.clients|
  {
    match s.clients[c].mailbox
    case Some(Sock(b)) =>
      if b < |s.calls| then s.calls[b := s.calls[b].(place := R.Closed, takenBy := Some(c))] else s.calls
    case _ => s.calls
  }

  function Left(s: R.State, c: nat): R.State
    requires c < |s.clients|
  {
    s.(clients := s.clients[c := s.clients[c].(pc := R.Gone, mailbox := None)],
       calls := CallsDrained(s, c), waiting := s.waiting - {R.ClientKey(s.clients[c])})
  }

  lemma LeaveLocks(s: R.State, c: nat)
    requires Free(s) && c < |s.clients| && s.clients[c].pc.Leaving?
    ensures Runs.Repeat(R.Next, s, R.ClientMove(c, true), 4)
         == R.SetPc(s, c, R.Draining).(waiting := s.waiting - {R.ClientKey(s.clients[c])})
  {
    hide R.CallMoved, R.CallCanMove;
    var m, held := R.ClientMove(c, true), RWMutex(Some(c), {});
    var removed := s.waiting - {R.ClientKey(s.clients[c])};
    assert R.Next(s, m) == R.SetPc(s, c, R.LeavePending).(mx := held);
    assert R.Next(R.SetPc(s, c, R.LeavePending).(mx := held), m) == R.SetPc(s, c, R.Removing).(mx := held);
    assert R.Next(R.SetPc(s, c, R.Removing).(mx := held), m)
        == R.SetPc(s, c, R.Removed).(waiting := removed, mx := held);
    assert R.Next(R.SetPc(s, c, R.Removed).(waiting := removed, mx := held), m)
        == R.SetPc(s, c, R.Draining).(waiting := removed);
  }

  lemma TakesMail(s: R.State, c: nat)
    requires c < |s.clients| && s.clients[c].pc.Draining?
    ensures R.Next(s, R.ClientMove(c, true))
         == if s.clients[c].mailbox.Some? then R.Take(s, c, s.clients[c].mailbox.value,
             R.Drained(s.clients[c].mailbox.value))
            else R.SetPc(s, c, R.Gone)
  {
    hide R.CallMoved, R.CallCanMove, R.Take, R.SetPlace;
  }

  lemma ClosesMail(s: R.State, c: nat)
    requires c < |s.clients| && (s.clients[c].pc.Drained? || s.clients[c].pc.Gone?)
    ensures R.Next(s, R.ClientMove(c, true))
         == if s.clients[c].pc.Drained? then R.SetPlace(R.SetPc(s, c, R.Gone), s.clients[c].pc.parcel, R.Closed) else s
  {
    hide R.CallMoved, R.CallCanMove, R.Take, R.SetPlace;
  }

  lemma MailClosed(s: R.State, c: nat, p: R.Parcel)
    requires c < |s.clients| && s.clients[c].mailbox == Some(p)
    ensures R.SetPlace(R.SetPc(R.Take(s, c, p, R.Drained(p)), c, R.Gone), p, R.Closed)
        == Left(s, c).(waiting := s.waiting)
  {
    var t := R.SetPlace(R.SetPc(R.Take(s, c, p, R.Drained(p)), c, R.Gone), p, R.Closed);
    assert t.clients == Left(s, c).clients;
    assert t.calls == CallsDrained(s, c);
  }

  lemma DrainMailbox(s: R.State, c: nat)
    requires c < |s.clients| && s.clients[c].pc.Draining?
    ensures Runs.Repeat(R.Next, s, R.ClientMove(c, true), 2) == Left(s, c).(waiting := s.waiting)
  {
    var m := R.ClientMove(c, true);
    Runs.RepeatTwo(R.Next, s, m);
    TakesMail(s, c);
    if s.clients[c].mailbox.Some? {
      MailClosed(s, c, s.clients[c].mailbox.value);
    }
    hide R.Next, Runs.Repeat;
    ClosesMail(R.Next(s, m), c);
  }

  /** Its key leads nowhere any more, whomever it led to, and a socket in its mailbox is closed. */
  lemma LeaveAlone(s: R.State, c: nat)
    requires Free(s) && c < |s.clients| && s.clients[c].pc.Leaving?
    ensures R.Run(s, Runs.Times(6, R.ClientMove(c, true))) == Left(s, c)
  {
    var m := R.ClientMove(c, true);
    Runs.RunTimes(R.Next, s, m, 6);
    hide R.Next, Runs.Run, Runs.Repeat;
    Runs.RepeatSum(R.Next, s, m, 4, 2);
    LeaveLocks(s, c);
    DrainMailbox(Runs.Repeat(R.Next, s, m, 4), c);
  }
}
