/** The registries' objects and the transition systems are two views of one thing. Each method here calls a
    method of `Registries` as its handler does, and shows that the objects then look as the system does
    after the steps of that call: the objects refine the systems. */
module Refinement {
  import opened Json
  import opened Options
  import opened Registries
  import F = Forwarding
  import FC = ForwardingCalls
  import FI = ForwardingInv
  import R = Rendezvous
  import RC = RendezvousCalls
  import RI = RendezvousInv
  import Runs

  // ------------------------------------------------------- listening servers

  ghost predicate ShowsAll(queue: seq<ClientData>, requests: seq<ClientData>, pending: seq<nat>) {
    && |queue| == |pending|
    && forall i :: 0 <= i < |queue| ==> pending[i] < |requests| && queue[i] == requests[pending[i]]
  }

  /** A channel shows the part of a registration's queue that has not been received. */
  ghost predicate ShowsQueue(queue: seq<ClientData>, requests: seq<ClientData>, g: F.Reg) {
    g.head <= |g.log| && ShowsAll(queue, requests, g.log[g.head..])
  }

  ghost predicate ShowsRegs(servers: seq<ListeningServer>, requests: seq<ClientData>, regs: seq<F.Reg>)
    reads servers
  {
    && |servers| == |regs|
    && (forall i, j :: 0 <= i < j < |servers| ==> servers[i] != servers[j])
    && forall r :: 0 <= r < |servers| ==>
         servers[r].closed == regs[r].closed && ShowsQueue(servers[r].queue, requests, regs[r])
  }

  ghost predicate ShowsRequests(requests: seq<ClientData>, clients: seq<F.Client>)
    reads requests
  {
    && |requests| == |clients| && Distinct(requests)
    && forall c :: 0 <= c < |requests| ==>
         requests[c].msg == clients[c].msg && requests[c].results == clients[c].results
  }

  ghost predicate ShowsMap(db: ListeningServerDB, servers: seq<ListeningServer>, ids: map<string, nat>)
    reads db
  {
    && (forall id :: id in db.listeningServers <==> id in ids)
    && (forall id :: id in ids ==> ids[id] < |servers| && db.listeningServers[id] == servers[ids[id]])
  }

  /** The registry, its registrations and their requests show state `s`; index `r` in `servers` is registration
      `r` of the system, and index `c` in `requests` is client `c`. */
  ghost predicate Shows(db: ListeningServerDB, servers: seq<ListeningServer>, requests: seq<ClientData>, s: F.State)
    reads db, servers, requests
  {
    ShowsMap(db, servers, s.servers) && ShowsRegs(servers, requests, s.regs) && ShowsRequests(requests, s.clients)
  }

  /** `AddListeningServer`, as called for a new registration. */
  method Register(db: ListeningServerDB, ghost servers: seq<ListeningServer>, ghost requests: seq<ClientData>,
                  ghost s: F.State, id: string)
    returns (exp: ListeningServer)
    requires Shows(db, servers, requests, s) && FC.Free(s) && id != ""
    modifies db
    ensures fresh(exp) && Shows(db, servers + [exp], requests, F.Run(s, FC.RegisterSteps(s, id)))
  {
    exp := new ListeningServer();
    db.AddListeningServer(id, exp);
    FC.RegisterAlone(s, id);
    hide F.Run;
  }

  function NotifySteps(s: F.State, msg: Request): seq<F.Step> {
    [F.Dial(msg)] + FC.NotifySteps(|s.clients|)
  }

  /** What `NotifyListeningServer` makes of the queues when client `c` calls it. */
  function QueuesAfter(ids: map<string, nat>, regs: seq<F.Reg>, id: string, c: nat): seq<F.Reg> {
    if id in ids && ids[id] < |regs| && F.QueueRoom(regs[ids[id]]) then
      var r := ids[id];
      regs[r := regs[r].(log := regs[r].log + [c])]
    else regs
  }

  lemma NotifyRun(s: F.State, msg: Request)
    requires FI.Inv(s) && FC.Free(s)
    ensures var t, c, id := F.Run(s, NotifySteps(s, msg)), |s.clients|, msg.serverId;
            && t.servers == s.servers && t.regs == QueuesAfter(s.servers, s.regs, id, c)
            && |t.clients| == c + 1 && t.clients[..c] == s.clients && t.clients[c].msg == msg
                && t.clients[c].results == []
            && (id !in s.servers ==> t.clients[c].pc.NotFound?)
            && (id in s.servers ==>
                  && s.servers[id] < |s.regs| && !s.regs[s.servers[id]].closed
                  && if F.QueueRoom(s.regs[s.servers[id]]) then t.clients[c].pc.Awaiting? else t.clients[c].pc.Sending?)
  {
    var c, dial := |s.clients|, F.Dial(msg);
    Runs.RunConcat(F.Next, s, [dial], FC.NotifySteps(c));
    Runs.RunOne(F.Next, s, dial);
    FI.StepKeepsInv(s, dial);
    var d := s.(clients := s.clients + [F.Client(msg, F.Idle, None, [], 0)]);
    assert F.Next(s, dial) == d;
    hide FI.Inv, Runs.Run, F.Next;
    FC.NotifyAlone(d, c);
    assert FC.Notified(d, c).clients[..c] == s.clients;
  }

  lemma QueueWithMore(queue: seq<ClientData>, requests: seq<ClientData>, msg: ClientData, g: F.Reg)
    requires ShowsQueue(queue, requests, g)
    ensures ShowsQueue(queue, requests + [msg], g)
    ensures ShowsQueue(queue + [msg], requests + [msg], g.(log := g.log + [|requests|]))
  {
    assert (g.log + [|requests|])[g.head..] == g.log[g.head..] + [|requests|];
  }

  ghost function Queues(servers: seq<ListeningServer>): (qs: seq<seq<ClientData>>)
    reads servers
    ensures |qs| == |servers| && forall r :: 0 <= r < |servers| ==> qs[r] == servers[r].queue
  {
    seq(|servers|, r requires 0 <= r < |servers| reads servers => servers[r].queue)
  }

  method Enqueue(db: ListeningServerDB, ghost servers: seq<ListeningServer>, ghost requests: seq<ClientData>,
                 ghost ids: map<string, nat>, ghost regs: seq<F.Reg>, msg: ClientData)
    returns (result: NotifyResult)
    requires ShowsMap(db, servers, ids) && ShowsRegs(servers, requests, regs)
    requires msg.msg.serverId in ids ==> !regs[ids[msg.msg.serverId]].closed
    modifies servers
    ensures ShowsMap(db, servers, ids)
    ensures ShowsRegs(servers, requests + [msg], QueuesAfter(ids, regs, msg.msg.serverId, |requests|))
    ensures result == if msg.msg.serverId !in ids then NotFound else if F.QueueRoom(regs[ids[msg.msg.serverId]]) then
        Sent else Blocks
  {
    ghost var id := msg.msg.serverId;
    ghost var was, known := Queues(servers), id in ids;
    ghost var r0 := if known then ids[id] else 0;
    assert known ==> |servers[r0].queue| == |regs[r0].log| - regs[r0].head;
    hide ShowsQueue;
    result := db.NotifyListeningServer(msg.msg.serverId, msg);
    forall r | 0 <= r < |servers|
      ensures ShowsQueue(servers[r].queue, requests + [msg], QueuesAfter(ids, regs, id, |requests|)[r])
    {
      QueueWithMore(was[r], requests, msg, regs[r]);
      assert servers[r].queue == if result == Sent && r == r0 then was[r] + [msg] else was[r];
    }
  }

  /** `NotifyListeningServer`, as called with the request of a new client. It never panics. */
  method Notify(db: ListeningServerDB, ghost servers: seq<ListeningServer>, ghost requests: seq<ClientData>,
                ghost s: F.State, msg: ClientData)
    returns (result: NotifyResult)
    requires Shows(db, servers, requests, s) && FI.Inv(s) && FC.Free(s)
    requires msg !in requests && msg.results == []
    modifies servers
    ensures var t := F.Run(s, NotifySteps(s, msg.msg));
            && Shows(db, servers, requests + [msg], t)
            && result != Panics
            && (result == Sent <==> t.clients[|s.clients|].pc.Awaiting?)
            && (result == NotFound <==> t.clients[|s.clients|].pc.NotFound?)
            && (result == Blocks <==> t.clients[|s.clients|].pc.Sending?)
  {
    hide F.Run, FI.Inv, FC.Free, NotifySteps, ShowsRegs, ShowsMap, QueuesAfter;
    NotifyRun(s, msg.msg);
    ghost var t := F.Run(s, NotifySteps(s, msg.msg));
    assert ShowsRequests(requests + [msg], t.clients) by {
      assert forall c :: 0 <= c < |requests| ==> t.clients[c] == t.clients[..|requests|][c];
    }
    assert |requests| == |s.clients|;
    hide ShowsRequests;
    result := Enqueue(db, servers, requests, s.servers, s.regs, msg);
  }

  // ------------------------------------------------------- the two receivers of a queue

  lemma QueueTail(queue: seq<ClientData>, requests: seq<ClientData>, g: F.Reg, h: F.Reg)
    requires ShowsQueue(queue, requests, g) && queue != [] && h.log == g.log && h.head == g.head + 1
    ensures g.head < |g.log| && g.log[g.head] < |requests| && queue[0] == requests[g.log[g.head]]
    ensures ShowsQueue(queue[1..], requests, h)
  {
    var pending := g.log[g.head..];
    assert pending[0] == g.log[g.head] && queue[0] == requests[pending[0]];
    assert h.log[h.head..] == pending[1..];
  }

  /** What a turn of the handler's loop does to its registration and to the client at the head of its queue. */
  lemma ForwardRun(s: F.State, r: nat, ok: bool)
    requires FI.Inv(s) && FC.Free(s) && FC.HasNext(s, r) && (ok ==> s.regs[r].broken.None?)
    ensures var t, g, c := F.Run(s, FC.ForwardSteps(s, r, ok)), s.regs[r], FC.NextClient(s, r);
            && t.servers == s.servers && |t.regs| == |s.regs| && |t.clients| == |s.clients|
            && (forall q :: 0 <= q < |s.regs| && q != r ==> t.regs[q] == s.regs[q])
            && t.regs[r].log == g.log && t.regs[r].head == g.head + 1 && t.regs[r].closed == g.closed
            && (t.regs[r].broken.Some? <==> g.broken.Some? || !ok)
            && (forall d :: 0 <= d < |s.clients| && d != c ==> t.clients[d] == s.clients[d])
            && t.clients[c].msg == s.clients[c].msg && t.clients[c].results == s.clients[c].results + Outcome(ok)
  {
    FC.ForwardAlone(s, r, ok);
    hide F.Run, FI.Inv;
  }

  lemma NextShown(queue: seq<ClientData>, requests: seq<ClientData>, s: F.State, r: nat)
    requires r < |s.regs| && ShowsQueue(queue, requests, s.regs[r]) && |requests| == |s.clients|
        && s.regs[r].handler.Looping?
    ensures FC.HasNext(s, r) <==> queue != []
  {
    if queue != [] {
      QueueTail(queue, requests, s.regs[r], s.regs[r].(head := s.regs[r].head + 1));
    }
  }

  /** One turn of a registration handler's loop over its queue. */
  method ForwardTurn(db: ListeningServerDB, server: ListeningServer, w: EventStream,
                     ghost servers: seq<ListeningServer>, ghost requests: seq<ClientData>, ghost s: F.State,
                     ghost r: nat)
    returns (turn: Turn, ghost ok: bool)
    requires Shows(db, servers, requests, s) && FI.Inv(s) && FC.Free(s)
    requires r < |servers| && server == servers[r] && s.regs[r].handler.Looping?
        && (w.broken <==> s.regs[r].broken.Some?)
    modifies server, w, if server.queue != [] then {server.queue[0]} else {}
    ensures turn == if FC.HasNext(s, r) then Turned else if s.regs[r].closed then Returns else Waits
    ensures turn == Turned ==>
              var t := F.Run(s, FC.ForwardSteps(s, r, ok));
              Shows(db, servers, requests, t) && r < |t.regs| && (w.broken <==> t.regs[r].broken.Some?)
    ensures turn != Turned ==> Shows(db, servers, requests, s) && (w.broken <==> s.regs[r].broken.Some?)
  {
    hide F.Run, FI.Inv, FC.ForwardSteps, WriteOutcome, ShowsQueue, Outcome;
    NextShown(server.queue, requests, s, r);
    ghost var queue := server.queue;
    turn, ok := ForwardNext(server, w);
    if turn == Turned {
      ForwardRun(s, r, ok);
      ghost var t := F.Run(s, FC.ForwardSteps(s, r, ok));
      QueueTail(queue, requests, s.regs[r], t.regs[r]);
    }
  }

  function StopSteps(g: F.Reg, r: nat): seq<F.Step> {
    Runs.Times(6, F.CleanupMove(r)) + Runs.Times(FC.DrainLength(g), F.CleanupMove(r))
  }

  /** What the cleanup does, from the end of its context to its return. */
  lemma StopRun(s: F.State, r: nat)
    requires FI.Inv(s) && FC.Free(s) && r < |s.regs| && s.regs[r].cleanup.AwaitDone? && s.regs[r].ctxDone
    ensures var t, g := F.Run(s, StopSteps(s.regs[r], r)), s.regs[r];
            && t.servers == s.servers - {g.id} && |t.regs| == |s.regs| && |t.clients| == |s.clients|
            && (forall q :: 0 <= q < |s.regs| && q != r ==> t.regs[q] == s.regs[q])
            && t.regs[r].log == g.log && t.regs[r].closed && g.head <= t.regs[r].head == |g.log|
            && forall c :: 0 <= c < |s.clients| ==>
                 && t.clients[c].msg == s.clients[c].msg
                 && t.clients[c].results == s.clients[c].results + if c in g.log[g.head..] then [F.NoteServerConnLost]
                     else []
  {
    var m, g := F.CleanupMove(r), s.regs[r];
    StillOpen(s, r);
    hide FI.Inv, Runs.Run, F.Next;
    FC.RemoveAlone(s, r);
    FI.RunKeepsInv(s, Runs.Times(6, m));
    Runs.RunConcat(F.Next, s, Runs.Times(6, m), Runs.Times(FC.DrainLength(g), m));
    FC.DrainAlone(FC.Stopped(s, r), r);
  }

  lemma StillOpen(s: F.State, r: nat)
    requires FI.Inv(s) && r < |s.regs| && s.regs[r].cleanup.AwaitDone?
    ensures !s.regs[r].closed && s.regs[r].head <= |s.regs[r].log|
  {
    FI.RegOf(s, r);
    hide FI.Inv;
  }

  lemma QueueDistinct(queue: seq<ClientData>, requests: seq<ClientData>, s: F.State, r: nat)
    requires FI.Inv(s) && r < |s.regs| && |requests| == |s.clients| && Distinct(requests)
    requires ShowsQueue(queue, requests, s.regs[r])
    ensures Distinct(queue)
  {
    hide FI.LockInv, FI.MapInv, FI.PinInv, FI.RegsInv, FI.VerdictInv, FI.AnswerInv, FI.RouteInv;
    var g := s.regs[r];
    var pending := g.log[g.head..];
    forall i, j | 0 <= i < j < |queue|
      ensures queue[i] != queue[j]
    {
      assert pending[i] == g.log[g.head + i] && pending[j] == g.log[g.head + j];
      assert s.clients[g.log[g.head + i]].ticket == Some(F.Ticket(r, g.head + i));
      assert s.clients[g.log[g.head + j]].ticket == Some(F.Ticket(r, g.head + j));
    }
  }

  /** A client is waiting on a queue exactly if the channel shows its request. */
  lemma OnQueue(queue: seq<ClientData>, requests: seq<ClientData>, g: F.Reg, c: nat)
    requires ShowsQueue(queue, requests, g) && Distinct(requests) && c < |requests|
    ensures c in g.log[g.head..] <==> requests[c] in queue
  {
    var pending := g.log[g.head..];
    if c in pending {
      var i: nat :| i < |pending| && pending[i] == c;
      assert queue[i] == requests[c];
    }
    if requests[c] in queue {
      var i: nat :| i < |queue| && queue[i] == requests[c];
      assert pending[i] == c;
    }
  }

  lemma NothingShown(requests: seq<ClientData>, g: F.Reg)
    requires g.head == |g.log|
    ensures ShowsQueue([], requests, g)
  {
  }

  /** The cleanup goroutine of a registration whose connection has ended, with nobody else receiving. */
  method Stop(db: ListeningServerDB, id: string, server: ListeningServer, ghost servers: seq<ListeningServer>,
              ghost requests: seq<ClientData>, ghost s: F.State, ghost r: nat)
    requires Shows(db, servers, requests, s) && FI.Inv(s) && FC.Free(s)
    requires r < |servers| && server == servers[r] && id == s.regs[r].id && s.regs[r].cleanup.AwaitDone?
        && s.regs[r].ctxDone
    modifies db, server, server.queue
    ensures Shows(db, servers, requests, F.Run(s, StopSteps(s.regs[r], r)))
  {
    hide F.Run, FC.Free, StopSteps, ShowsQueue, FI.Inv;
    StopRun(s, r);
    StillOpen(s, r);
    QueueDistinct(server.queue, requests, s, r);
    ghost var queue, t, g := server.queue, F.Run(s, StopSteps(s.regs[r], r)), s.regs[r];
    forall c | 0 <= c < |requests|
      ensures c in g.log[g.head..] <==> requests[c] in queue
    {
      OnQueue(queue, requests, g, c);
    }
    StopListening(db, id, server);
    NothingShown(requests, t.regs[r]);
  }

  // ------------------------------------------------------- waiting clients

  /** A mailbox holds what the system's mailbox names; index `b` in `conns` is the socket of callback `b`. */
  ghost predicate ShowsMail(mail: Option<ServerConn>, conns: seq<ServerConn>, mailbox: Option<R.Parcel>) {
    match mailbox
    case None => mail == None
    case Some(NoSock) => mail == Some(None)
    case Some(Sock(b)) => b < |conns| && conns[b].Some? && mail == Some(conns[b])
  }

  function Sockets(conns: seq<ServerConn>): set<Conn> {
    set b | 0 <= b < |conns| && conns[b].Some? :: conns[b].value
  }

  ghost predicate ShowsConns(conns: seq<ServerConn>, calls: seq<R.Call>)
    reads Sockets(conns)
  {
    && |conns| == |calls|
    && (forall i, j :: 0 <= i < j < |conns| && conns[i].Some? && conns[j].Some? ==> conns[i].value != conns[j].value)
    && (forall b :: 0 <= b < |conns| ==> (conns[b].Some? <==> calls[b].hijacked))
    && forall b :: 0 <= b < |conns| && conns[b].Some? ==>
         conns[b].value in Sockets(conns) && (conns[b].value.open <==> calls[b].place != R.Closed)
  }

  ghost predicate ShowsMailboxes(clients: seq<ConnectingClient>, conns: seq<ServerConn>, ks: seq<R.Client>)
    reads clients
  {
    && |clients| == |ks|
    && (forall i, j :: 0 <= i < j < |clients| ==> clients[i] != clients[j])
    && forall c :: 0 <= c < |clients| ==> ShowsMail(clients[c].sockPassCh, conns, ks[c].mailbox)
  }

  ghost predicate ShowsWaiting(db: ConnectingClientDB, clients: seq<ConnectingClient>, waiting: map<string, nat>)
    reads db
  {
    && (forall key :: key in db.connectingClients <==> key in waiting)
    && (forall key :: key in waiting ==> waiting[key] < |clients| && db.connectingClients[key] == clients[waiting[key]])
  }

  /** The registry of waiting clients, their mailboxes and the sockets show state `s`. */
  ghost predicate Mirrors(db: ConnectingClientDB, clients: seq<ConnectingClient>, conns: seq<ServerConn>, s: R.State)
    reads db, clients, Sockets(conns)
  {
    ShowsWaiting(db, clients, s.waiting) && ShowsMailboxes(clients, conns, s.clients) && ShowsConns(conns, s.calls)
  }

  /** `AddConnectingClient`, as called for a new client. */
  method Enroll(db: ConnectingClientDB, ghost clients: seq<ConnectingClient>, ghost conns: seq<ServerConn>,
                ghost s: R.State, clientId: string, serverId: string)
    returns (imp: ConnectingClient)
    requires Mirrors(db, clients, conns, s) && RC.Free(s)
    modifies db
    ensures fresh(imp) && Mirrors(db, clients + [imp], conns, R.Run(s, RC.EnrollSteps(s, clientId, serverId)))
  {
    hide R.Run, RC.EnrollSteps;
    RC.EnrollAlone(s, clientId, serverId);
    imp := new ConnectingClient();
    db.AddConnectingClient(clientId + serverId, imp);
    ghost var t := R.Run(s, RC.EnrollSteps(s, clientId, serverId));
    assert ShowsWaiting(db, clients + [imp], t.waiting);
    assert ShowsMailboxes(clients + [imp], conns, t.clients);
    assert ShowsConns(conns, t.calls);
  }

  lemma MailWithMore(mail: Option<ServerConn>, conns: seq<ServerConn>, conn: ServerConn, mailbox: Option<R.Parcel>)
    requires ShowsMail(mail, conns, mailbox)
    ensures ShowsMail(mail, conns + [conn], mailbox)
  {
  }

  lemma SocketsOf(conns: seq<ServerConn>, b: nat)
    requires b < |conns| && conns[b].Some?
    ensures conns[b].value in Sockets(conns)
  {
  }

  ghost function Mails(clients: seq<ConnectingClient>): (ms: seq<Option<ServerConn>>)
    reads clients
    ensures |ms| == |clients| && forall c :: 0 <= c < |clients| ==> ms[c] == clients[c].sockPassCh
  {
    seq(|clients|, c requires 0 <= c < |clients| reads clients => clients[c].sockPassCh)
  }

  /** The object side of a callback: one more socket, in the mailbox of client `c` or closed. */
  method HandOver(db: ConnectingClientDB, ghost clients: seq<ConnectingClient>, ghost conns: seq<ServerConn>,
                  ghost waiting: map<string, nat>, ghost ks: seq<R.Client>, clientId: string, serverId: string,
                  conn: ServerConn)
    returns (result: CallbackResult)
    requires ShowsWaiting(db, clients, waiting) && ShowsMailboxes(clients, conns, ks)
    requires clientId != "" && serverId != "" && (conn.Some? ==> conn.value.open)
    modifies clients, if conn.Some? then {conn.value} else {}
    ensures var key, parcel := clientId + serverId, if conn.Some? then R.Sock(|conns|) else R.NoSock;
            && result == (if key in waiting && ks[waiting[key]].mailbox.None? then Delivered else Rejected)
            && ShowsWaiting(db, clients, waiting)
            && ShowsMailboxes(clients, conns + [conn],
                              if result == Delivered then ks[waiting[key] :=
                                  ks[waiting[key]].(mailbox := Some(parcel))] else ks)
    ensures conn.Some? ==> (conn.value.open <==> result == Delivered)
  {
    ghost var key, was := clientId + serverId, Mails(clients);
    forall c | 0 <= c < |clients|
      ensures ShowsMail(was[c], conns + [conn], ks[c].mailbox)
    {
      MailWithMore(was[c], conns, conn, ks[c].mailbox);
    }
    result := HandleServerCallBackConnection(db, clientId, serverId, conn);
    ghost var c0 := if result == Delivered then waiting[key] else |clients|;
    assert forall c :: 0 <= c < |clients| && c != c0 ==> clients[c].sockPassCh == was[c];
  }

  /** One more socket, open or closed, beside sockets that stay as they are. */
  lemma OneMoreConn(conns: seq<ServerConn>, calls: seq<R.Call>, conn: ServerConn, call: R.Call)
    requires ShowsConns(conns, calls) && (conn.Some? ==> conn.value !in Sockets(conns))
    requires (conn.Some? <==> call.hijacked) && (conn.Some? ==> (conn.value.open <==> call.place != R.Closed))
    ensures ShowsConns(conns + [conn], calls + [call])
  {
    var more := conns + [conn];
    forall b | 0 <= b < |more| && more[b].Some?
      ensures more[b].value in Sockets(more)
    {
      SocketsOf(more, b);
    }
  }

  /** The object side of a whole callback. */
  method TakeCall(db: ConnectingClientDB, ghost clients: seq<ConnectingClient>, ghost conns: seq<ServerConn>,
                  ghost s: R.State, clientId: string, serverId: string, conn: ServerConn)
    returns (result: CallbackResult)
    requires Mirrors(db, clients, conns, s)
    requires conn.Some? ==> conn.value.open && conn.value !in Sockets(conns)
    requires clientId != "" && serverId != ""
    modifies clients, if conn.Some? then {conn.value} else {}
    ensures Mirrors(db, clients, conns + [conn], RC.CalledBack(s, clientId, serverId, conn.Some?))
    ensures result == if RC.Deliverable(s, clientId + serverId) then Delivered else Rejected
  {
    hide ShowsMail;
    result := HandOver(db, clients, conns, s.waiting, s.clients, clientId, serverId, conn);
    assert ShowsConns(conns, s.calls);
    ghost var t := RC.CalledBack(s, clientId, serverId, conn.Some?);
    hide ShowsConns, ShowsMailboxes, ShowsWaiting;
    OneMoreConn(conns, s.calls, conn, t.calls[|s.calls|]);
    assert t.calls == s.calls + [t.calls[|s.calls|]];
  }

  /** A whole callback, with ids, whose hijack yields `conn`. */
  method CallBack(db: ConnectingClientDB, ghost clients: seq<ConnectingClient>, ghost conns: seq<ServerConn>,
                  ghost s: R.State, clientId: string, serverId: string, conn: ServerConn)
    returns (result: CallbackResult)
    requires Mirrors(db, clients, conns, s) && RI.Inv(s) && RC.Free(s)
    requires conn.Some? ==> conn.value.open && conn.value !in Sockets(conns)
    requires clientId != "" && serverId != ""
    modifies clients, if conn.Some? then {conn.value} else {}
    ensures Mirrors(db, clients, conns + [conn], R.Run(s, RC.CallBackSteps(s, clientId, serverId, conn.Some?)))
    ensures result == if RC.Deliverable(s, clientId + serverId) then Delivered else Rejected
  {
    RC.CallBackAlone(s, clientId, serverId, conn.Some?);
    hide R.Run, RC.CallBackSteps, RC.CalledBack, RC.Deliverable, RI.Inv, RC.Free, Mirrors;
    result := TakeCall(db, clients, conns, s, clientId, serverId, conn);
  }

  // ------------------------------------------------------- a client leaves

  /** `removeAndDrainConnectingClient`, as deferred by the handler of client `c`. */
  method Leave(db: ConnectingClientDB, id: string, imp: ConnectingClient, ghost clients: seq<ConnectingClient>,
               ghost conns: seq<ServerConn>, ghost s: R.State, ghost c: nat)
    requires Mirrors(db, clients, conns, s) && RI.Inv(s) && RC.Free(s)
    requires c < |clients| && imp == clients[c] && s.clients[c].pc.Leaving? && id == R.ClientKey(s.clients[c])
    modifies db, imp, PendingConn(imp)
    ensures Mirrors(db, clients, conns, R.Run(s, Runs.Times(6, R.ClientMove(c, true))))
  {
    RC.LeaveAlone(s, c);
    MailOnlyHere(s, c);
    hide R.Run, RI.Inv, RC.Free;
    Drain(db, id, imp, clients, conns, s, c);
  }

  /** The object side of leaving. */
  method Drain(db: ConnectingClientDB, id: string, imp: ConnectingClient, ghost clients: seq<ConnectingClient>,
               ghost conns: seq<ServerConn>, ghost s: R.State, ghost c: nat)
    requires Mirrors(db, clients, conns, s)
    requires c < |clients| && imp == clients[c] && id == R.ClientKey(s.clients[c])
    requires var m := s.clients[c].mailbox; m.Some? && m.value.Sock? ==> m.value.call < |s.calls|
    modifies db, imp, PendingConn(imp)
    ensures Mirrors(db, clients, conns, RC.Left(s, c))
  {
    ghost var was, pending := Mails(clients), PendingConn(imp);
    assert ShowsMail(was[c], conns, s.clients[c].mailbox);
    ClosingOne(conns, s, c, pending);
    db.RemoveAndDrainConnectingClient(id, imp);
    assert forall d :: 0 <= d < |clients| && d != c ==> clients[d].sockPassCh == was[d];
    assert ShowsMailboxes(clients, conns, RC.Left(s, c).clients);
    hide ShowsMail;
    assert ShowsWaiting(db, clients, RC.Left(s, c).waiting);
    hide ShowsMailboxes, ShowsWaiting;
    assert ShowsConns(conns, RC.CallsDrained(s, c));
  }

  /** Which sockets a leaving client closes. */
  lemma ClosingOne(conns: seq<ServerConn>, s: R.State, c: nat, pending: set<Conn>)
    requires c < |s.clients| && ShowsConns(conns, s.calls)
    requires var m := s.clients[c].mailbox; m.Some? && m.value.Sock? ==> m.value.call < |s.calls|
    requires pending == match s.clients[c].mailbox
                        case Some(Sock(b)) => if conns[b].Some? then {conns[b].value} else {}
                        case _ => {}
    ensures forall b :: 0 <= b < |conns| && conns[b].Some? ==>
              (RC.CallsDrained(s, c)[b].place == R.Closed <==>
                 s.calls[b].place == R.Closed || conns[b].value in pending)
  {
  }

  /** The socket in a client's mailbox is nowhere else, and not closed. */
  lemma MailOnlyHere(s: R.State, c: nat)
    requires RI.Inv(s) && c < |s.clients|
    ensures var m := s.clients[c].mailbox;
            m.Some? && m.value.Sock? ==> m.value.call < |s.calls| && s.calls[m.value.call].place == R.InMailbox(c)
  {
  }
}
