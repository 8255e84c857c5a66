/** What holds of every run of the rendezvous. */
module RendezvousTheorems {
  import opened Locks
  import opened Options
  import opened Sums
  import opened Rendezvous
  import opened RendezvousInv
  import Runs

  lemma InitInv()
    ensures Inv(Init)
  {
  }

  lemma Reached(steps: seq<Step>)
    ensures Inv(Run(Init, steps))
  {
    hide Inv, Run, Init;
    InitInv();
    RunKeepsInv(Init, steps);
  }

  // ------------------------------------------------------- sockets

  /** In every reachable state a hijacked socket is in exactly one place: with its callback handler, in one
      client's mailbox, in one client handler's hands, or closed. */
  lemma SocketConservation(steps: seq<Step>, b: nat)
    requires var s := Run(Init, steps); b < |s.calls| && s.calls[b].hijacked
    ensures var s := Run(Init, steps);
            var p := s.calls[b].place;
            && p != Nowhere
            && (p == AtCall <==> CallHolds(s.calls[b].pc))
            && (forall c: nat :: p == InMailbox(c) <==> c < |s.clients| && s.clients[c].mailbox == Some(Sock(b)))
            && (forall c: nat :: p == AtClient(c) <==> c < |s.clients| && SockOf(s.clients[c].pc) == Some(b))
  {
    hide Run, Init, LockInv, MapInv, FoundInv, MailInv, PairInv;
    Reached(steps);
  }

  /** Once all handlers have exited, in whatever way, every socket is closed and every mailbox is empty,
      even if clients with equal keys overlapped. */
  lemma AllSocketsClosed(steps: seq<Step>)
    requires var s := Run(Init, steps);
             && (forall c :: 0 <= c < |s.clients| ==> s.clients[c].pc == Gone)
             && (forall b :: 0 <= b < |s.calls| ==> s.calls[b].pc == CallDone)
    ensures var s := Run(Init, steps);
            && (forall b :: 0 <= b < |s.calls| && s.calls[b].hijacked ==> s.calls[b].place == Closed)
            && (forall c :: 0 <= c < |s.clients| ==> s.clients[c].mailbox == None)
  {
    hide Run, Init, LockInv, MapInv, FoundInv, PairInv;
    Reached(steps);
  }

  // ------------------------------------------------------- pairing

  /** Each client is united with at most one socket and each socket with at most one client, always
      under equal keys. */
  lemma PairingIsInjective(steps: seq<Step>, c: nat, c': nat)
    requires var s := Run(Init, steps); c < |s.clients| && c' < |s.clients| && s.clients[c].joined.Some?
    ensures var s := Run(Init, steps);
            var b := s.clients[c].joined.value;
            && b < |s.calls| && CallKey(s.calls[b]) == ClientKey(s.clients[c])
            && (s.clients[c'].joined == Some(b) ==> c' == c)
            && (s.clients[c].pc.Joined? ==> s.clients[c].pc.sock == b)
  {
    hide Run, Init, LockInv, MapInv, FoundInv, MailInv, CallPlaces, MailPlaces, HandPlaces;
    Reached(steps);
  }

  predicate ProperSuffix(s: string, t: string) {
    |s| < |t| && t[|t| - |s|..] == s
  }

  lemma ConcatSplit(c1: string, s1: string, c2: string, s2: string)
    requires c1 + s1 == c2 + s2 && |s1| <= |s2|
    ensures |s1| == |s2| ==> c1 == c2 && s1 == s2
    ensures |s1| < |s2| ==> ProperSuffix(s1, s2)
  {
    var k, n := c1 + s1, |c1| + |s1|;
    assert k[n - |s1|..] == s1 && k[..n - |s1|] == c1;
    assert k[n - |s2|..] == s2 && k[..n - |s2|] == c2;
    assert s2[|s2| - |s1|..] == k[n - |s1|..];
  }

  /** Concatenated keys confuse two servers exactly when one's id is a proper suffix of the other's. */
  lemma KeysConfuse(s1: string, s2: string)
    ensures (exists c1, c2 :: c1 != "" && c2 != "" && c1 + s1 == c2 + s2 && (c1 != c2 || s1 != s2))
       <==> ProperSuffix(s1, s2) || ProperSuffix(s2, s1)
  {
    if c1, c2 :| c1 != "" && c2 != "" && c1 + s1 == c2 + s2 && (c1 != c2 || s1 != s2) {
      if |s1| <= |s2| {
        ConcatSplit(c1, s1, c2, s2);
      } else {
        ConcatSplit(c2, s2, c1, s1);
      }
    }
    if ProperSuffix(s1, s2) {
      Confused(s1, s2);
    }
    if ProperSuffix(s2, s1) {
      Confused(s2, s1);
      var t := s1[..|s1| - |s2|];
      assert "x" + s1 == ("x" + t) + s2;
    }
  }

  lemma Confused(s: string, t: string)
    requires ProperSuffix(s, t)
    ensures ("x" + t[..|t| - |s|]) + s == "x" + t && "x" + t[..|t| - |s|] != "x"
  {
    assert t == t[..|t| - |s|] + s;
    assert |"x" + t[..|t| - |s|]| > 1;
  }

  /** If no server id in play is a proper suffix of another, both ends of a pairing named the same client and server. */
  lemma PairingRespectsIds(steps: seq<Step>, c: nat)
    requires var s := Run(Init, steps); c < |s.clients| && s.clients[c].joined.Some?
    requires var s := Run(Init, steps);
             forall b :: 0 <= b < |s.calls| ==>
               !ProperSuffix(s.clients[c].serverId, s.calls[b].serverId)
                   && !ProperSuffix(s.calls[b].serverId, s.clients[c].serverId)
    ensures var s := Run(Init, steps);
            var b := s.clients[c].joined.value;
            b < |s.calls| && s.calls[b].clientId == s.clients[c].clientId
                && s.calls[b].serverId == s.clients[c].serverId
  {
    PairingIsInjective(steps, c, c);
    hide Run;
    var s := Run(Init, steps);
    var k, b := s.clients[c], s.calls[s.clients[c].joined.value];
    if |k.serverId| <= |b.serverId| {
      ConcatSplit(k.clientId, k.serverId, b.clientId, b.serverId);
    } else {
      ConcatSplit(b.clientId, b.serverId, k.clientId, k.serverId);
    }
  }

  // ------------------------------------------------------- the map

  /** In every run, also with colliding keys, a map entry points under its own key to a handler that has not
      removed itself, and once a handler has drained its mailbox nothing arrives there any more. */
  lemma EntriesAgree(steps: seq<Step>)
    ensures var s := Run(Init, steps);
            && (forall k :: k in s.waiting ==>
                  s.waiting[k] < |s.clients| && ClientKey(s.clients[s.waiting[k]]) == k
                      && Live(s.clients[s.waiting[k]].pc))
            && (forall c :: 0 <= c < |s.clients| && (s.clients[c].pc.Drained? || s.clients[c].pc.Gone?) ==>
                  s.clients[c].mailbox == None)
  {
    hide Run, Init, LockInv, FoundInv, CallPlaces, MailPlaces, HandPlaces, PairInv;
    Reached(steps);
  }

  // ------------------------------------------------------- the map when keys are distinct

  ghost predicate DistinctLive(s: State) {
    forall c, d :: 0 <= c < d < |s.clients| && Live(s.clients[c].pc) && Live(s.clients[d].pc) ==>
      ClientKey(s.clients[c]) != ClientKey(s.clients[d])
  }

  /** Every live handler is in the map, under its key. */
  ghost predicate Complete(s: State) {
    forall c :: 0 <= c < |s.clients| && Live(s.clients[c].pc) ==>
      ClientKey(s.clients[c]) in s.waiting && s.waiting[ClientKey(s.clients[c])] == c
  }

  lemma ClientComplete(s: State, c: nat, ok: bool)
    requires Inv(s) && Complete(s) && ClientCanMove(s, c) && DistinctLive(s) && DistinctLive(ClientMoved(s, c, ok))
    ensures Complete(ClientMoved(s, c, ok))
  {
    hide LockInv, FoundInv, MailInv, CallPlaces, MailPlaces, HandPlaces, PairInv;
    var t := ClientMoved(s, c, ok);
    ClientShape(s, c, ok);
    ClientLives(s, c, ok);
    hide ClientMoved;
    forall d | 0 <= d < |t.clients| && Live(t.clients[d].pc)
      ensures ClientKey(t.clients[d]) in t.waiting && t.waiting[ClientKey(t.clients[d])] == d
    {
      if d != c {
        assert t.clients[d] == s.clients[d];
        assert ClientKey(s.clients[d]) != ClientKey(s.clients[c]) || !Live(s.clients[c].pc);
        assert ClientKey(t.clients[d]) != ClientKey(t.clients[c]) || !Live(t.clients[c].pc);
      }
    }
  }

  lemma ClientLives(s: State, c: nat, ok: bool)
    requires ClientCanMove(s, c)
    ensures var k, t := s.clients[c], ClientMoved(s, c, ok);
            && t.waiting == (if k.pc.Adding? then s.waiting[ClientKey(k) := c]
                             else if k.pc.Removing? then s.waiting - {ClientKey(k)} else s.waiting)
            && (if k.pc.Adding? then !Live(k.pc) && Live(t.clients[c].pc)
                else if k.pc.Removing? then Live(k.pc) && !Live(t.clients[c].pc)
                else Live(t.clients[c].pc) == Live(k.pc))
  {
  }

  lemma StepComplete(s: State, step: Step)
    requires Inv(s) && Complete(s) && Enabled(s, step) && DistinctLive(s) && DistinctLive(Apply(s, step))
    ensures Complete(Apply(s, step))
  {
    hide Inv, DistinctLive;
    if step.ClientMove? {
      hide Complete, ClientMoved, ClientCanMove;
      ClientComplete(s, step.client, step.hijackOk);
    }
  }

  lemma {:induction false} RunComplete(steps: seq<Step>)
    requires forall n :: 0 <= n <= |steps| ==> DistinctLive(Run(Init, steps[..n]))
    ensures Complete(Run(Init, steps))
    decreases |steps|
  {
    hide Inv, DistinctLive, Apply, Enabled;
    assert steps[..|steps|] == steps;
    if steps != [] {
      hide Complete, Runs.Run, Init;
      var n := |steps| - 1;
      assert forall i :: 0 <= i <= n ==> steps[..n][..i] == steps[..i];
      RunComplete(steps[..n]);
      Reached(steps[..n]);
      Runs.RunLast(Next, Init, steps);
      var s := Run(Init, steps[..n]);
      if Enabled(s, steps[n]) {
        assert DistinctLive(s) && DistinctLive(Apply(s, steps[n]));
        StepComplete(s, steps[n]);
      }
    }
  }

  /** In a run whose live keys are distinct throughout, the map is exactly the set of live handlers. */
  lemma MapIsLiveSet(steps: seq<Step>)
    requires forall n :: 0 <= n <= |steps| ==> DistinctLive(Run(Init, steps[..n]))
    ensures var s := Run(Init, steps);
            Complete(s) && forall k :: k in s.waiting <==>
              exists c :: 0 <= c < |s.clients| && Live(s.clients[c].pc) && ClientKey(s.clients[c]) == k
  {
    hide Run, Init, Inv, DistinctLive, Complete;
    RunComplete(steps);
    Reached(steps);
    EntriesAreLive(Run(Init, steps));
  }

  /** And only then: the map is complete in every state of a run exactly if live keys are distinct in every state. */
  lemma CompleteIffDistinct(steps: seq<Step>)
    ensures (forall n :: 0 <= n <= |steps| ==> Complete(Run(Init, steps[..n])))
       <==> (forall n :: 0 <= n <= |steps| ==> DistinctLive(Run(Init, steps[..n])))
  {
    hide Run;
    if forall n :: 0 <= n <= |steps| ==> DistinctLive(Run(Init, steps[..n])) {
      hide Complete, DistinctLive;
      forall n | 0 <= n <= |steps|
        ensures Complete(Run(Init, steps[..n]))
      {
        assert forall i :: 0 <= i <= n ==> steps[..n][..i] == steps[..i];
        RunComplete(steps[..n]);
      }
    }
  }

  lemma EntriesAreLive(s: State)
    requires Inv(s) && Complete(s)
    ensures forall k :: k in s.waiting <==>
              exists c :: 0 <= c < |s.clients| && Live(s.clients[c].pc) && ClientKey(s.clients[c]) == k
  {
    hide LockInv, FoundInv, MailInv, CallPlaces, MailPlaces, HandPlaces, PairInv;
  }

  // ------------------------------------------------------- progress

  /** A client waits for its verdict, for its callback, in its tunnel, or has left. */
  predicate ClientSettled(k: Client) {
    k.pc.Asking? || (k.pc.Waiting? && k.mailbox.None?) || k.pc.Joined? || k.pc.Gone?
  }

  ghost predicate Settled(s: State) {
    && (forall c :: 0 <= c < |s.clients| ==> ClientSettled(s.clients[c]))
    && (forall b :: 0 <= b < |s.calls| ==> s.calls[b].pc == CallDone)
  }

  ghost predicate Quiet(s: State) {
    forall step :: !External(step) ==> !Enabled(s, step)
  }

  lemma Moves(s: State, step: Step)
    requires Enabled(s, step) && !External(step)
    ensures !Quiet(s)
  {
  }

  /** Whoever holds the lock, or waits for it with nobody inside, can move. */
  lemma LockUserMoves(s: State)
    requires LockInv(s) && MapInv(s) && FoundInv(s) && s.mx != RWMutex(None, {})
    ensures !Quiet(s)
  {
    hide Quiet, ClientMoved, CallMoved;
    if b :| b in s.mx.readers {
      assert HoldsRead(s.calls[b].pc);
      Moves(s, CallMove(b, true));
    } else {
      assert s.mx.readers == {};
      Moves(s, ClientMove(s.mx.writer.value, true));
    }
  }

  lemma UnsettledClientMoves(s: State, c: nat)
    requires Inv(s) && c < |s.clients| && !ClientSettled(s.clients[c])
    ensures !Quiet(s)
  {
    hide Quiet, ClientMoved, CallMoved, MailInv, CallPlaces, MailPlaces, HandPlaces, PairInv;
    if s.mx != RWMutex(None, {}) {
      LockUserMoves(s);
    } else {
      Moves(s, ClientMove(c, true));
    }
  }

  lemma UnsettledCallMoves(s: State, b: nat)
    requires Inv(s) && b < |s.calls| && s.calls[b].pc != CallDone
    ensures !Quiet(s)
  {
    hide Quiet, ClientMoved, CallMoved, MailInv, CallPlaces, MailPlaces, HandPlaces, PairInv;
    if s.mx != RWMutex(None, {}) {
      LockUserMoves(s);
    } else {
      Moves(s, CallMove(b, true));
    }
  }

  /** The waiting-client lock never deadlocks: the rendezvous comes to rest only when every callback is
      done and every client waits for something outside, or has left. */
  lemma QuietIffSettled(s: State)
    requires Inv(s)
    ensures Quiet(s) <==> Settled(s)
  {
    hide Inv;
    if Settled(s) {
      forall step | !External(step)
        ensures !Enabled(s, step)
      {
        if step.ClientMove? && step.client < |s.clients| {
          assert ClientSettled(s.clients[step.client]);
        }
      }
    } else {
      hide Quiet;
      if c: nat :| c < |s.clients| && !ClientSettled(s.clients[c]) {
        UnsettledClientMoves(s, c);
      } else {
        var b: nat :| b < |s.calls| && s.calls[b].pc != CallDone;
        UnsettledCallMoves(s, b);
      }
    }
  }

  function ClientWork(k: Client): nat {
    match k.pc
    case Start => 15
    case AddPending => 14
    case Adding => 13
    case Added => 12
    case Asking => 11
    case Waiting => 10
    case Took(_) => 9
    case Joined(_) => 8
    case Refusing(_) => 8
    case Leaving => 7
    case LeavePending => 6
    case Removing => 5
    case Removed => 4
    case Draining => 3
    case Drained(_) => 2
    case Gone => 0
  }

  function CallWork(b: Call): nat {
    match b.pc
    case Arrived => 7
    case WantRead => 6
    case Reading => 5
    case Found(_) => 4
    case Delivered => 3
    case Rejected => 3
    case Rejecting => 2
    case CallDone => 0
  }

  function Work(s: State): nat {
    Total(ClientWork, s.clients) + Total(CallWork, s.calls)
  }

  /** The work of a state in which one client, or one callback and its client's mailbox, moved along. */
  lemma ClientWorkChange(s: State, t: State, c: nat)
    requires c < |s.clients| && |t.clients| == |s.clients| && t.clients == s.clients[c := t.clients[c]]
    requires ClientWork(t.clients[c]) < ClientWork(s.clients[c])
    requires |t.calls| == |s.calls| && forall b :: 0 <= b < |s.calls| ==> CallWork(t.calls[b]) == CallWork(s.calls[b])
    ensures Work(t) < Work(s)
  {
    hide ClientWork, CallWork;
    TotalUpdate(ClientWork, s.clients, c, t.clients[c]);
    TotalSame(CallWork, s.calls, t.calls);
  }

  lemma CallWorkChange(s: State, t: State, b: nat)
    requires b < |s.calls| && |t.calls| == |s.calls| && CallWork(t.calls[b]) < CallWork(s.calls[b])
    requires forall i :: 0 <= i < |s.calls| && i != b ==> t.calls[i] == s.calls[i]
    requires |t.clients| == |s.clients|
    requires forall c :: 0 <= c < |s.clients| ==> ClientWork(t.clients[c]) == ClientWork(s.clients[c])
    ensures Work(t) < Work(s)
  {
    hide ClientWork, CallWork;
    assert t.calls == s.calls[b := t.calls[b]];
    TotalUpdate(CallWork, s.calls, b, t.calls[b]);
    TotalSame(ClientWork, s.clients, t.clients);
  }

  lemma ClientMoveWorks(s: State, c: nat, ok: bool)
    requires ClientCanMove(s, c)
    ensures ClientWork(ClientMoved(s, c, ok).clients[c]) < ClientWork(s.clients[c])
  {
  }

  lemma ClientMoveLeavesCalls(s: State, c: nat, ok: bool)
    requires ClientCanMove(s, c)
    ensures forall b :: 0 <= b < |s.calls| ==> CallWork(ClientMoved(s, c, ok).calls[b]) == CallWork(s.calls[b])
  {
  }

  lemma CallMoveWorks(s: State, b: nat, ok: bool)
    requires CallCanMove(s, b)
    ensures Work(CallMoved(s, b, ok)) < Work(s)
  {
    CallWorkChange(s, CallMoved(s, b, ok), b);
  }

  /** Every move uses up work, and so do verdicts, time-outs and ending tunnels; only arrivals add to it. */
  lemma StepsUseWork(s: State, step: Step)
    requires Enabled(s, step) && !step.DialIn? && !step.CallIn?
    ensures Work(Apply(s, step)) < Work(s)
  {
    hide Work, ClientMoved, CallMoved, CallWork;
    if step.CallMove? {
      CallMoveWorks(s, step.call, step.hijackOk);
    } else {
      if step.ClientMove? {
        ClientShape(s, step.client, step.hijackOk);
        ClientMoveWorks(s, step.client, step.hijackOk);
        ClientMoveLeavesCalls(s, step.client, step.hijackOk);
        hide ClientWork;
        ClientWorkChange(s, Apply(s, step), step.client);
      } else {
        WaitEndsWorks(s, step);
      }
    }
  }

  lemma WaitEndsWorks(s: State, step: Step)
    requires Enabled(s, step) && (step.Verdict? || step.GiveUp? || step.TunnelEnds?)
    ensures Work(Apply(s, step)) < Work(s)
  {
    hide Work;
    ClientWorkChange(s, Apply(s, step), step.client);
  }
}
