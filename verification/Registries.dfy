/** The relay's two registries, and the handlers' own loops over them, in the form the program has: objects
    updated in place, one call at a time. `Forwarding` and `Rendezvous` break these operations into steps and
    interleave them; calls that would block there are called here only when they would not. */
module Registries {
  import opened Options
  import opened Json
  import opened Events
  import opened StreamTheorems
  import F = Forwarding

  // ------------------------------------------------------- listening servers

  /** A message for a server; `results` holds every verdict sent to the result channel so far. */
  class ClientData {
    const msg: Request
    var results: seq<F.Verdict>

    constructor (msg: Request)
      ensures this.msg == msg && results == []
    {
      this.msg := msg;
      results := [];
    }

    method Report(v: F.Verdict)
      modifies this
      ensures results == old(results) + [v]
    {
      results := results + [v];
    }
  }

  /** A registration; `queue` is the buffer of its channel. */
  class ListeningServer {
    var queue: seq<ClientData>
    var closed: bool

    constructor ()
      ensures queue == [] && !closed
    {
      queue, closed := [], false;
    }
  }

  datatype NotifyResult = Sent | NotFound | Blocks | Panics

  class ListeningServerDB {
    var listeningServers: map<string, ListeningServer>

    constructor ()
      ensures listeningServers == map[]
    {
      listeningServers := map[];
    }

    /** A later registration of an id replaces an earlier one. */
    method AddListeningServer(id: string, exp: ListeningServer)
      modifies this
      ensures listeningServers == old(listeningServers)[id := exp]
    {
      listeningServers := listeningServers[id := exp];
    }

    /** Whichever registration is under `id` goes. */
    method RemoveListeningServer(id: string)
      modifies this
      ensures listeningServers == old(listeningServers) - {id}
    {
      listeningServers := listeningServers - {id};
    }

    /** Sends on the queue under `id`. A full queue blocks the caller, with nothing changed yet. */
    method NotifyListeningServer(id: string, msg: ClientData) returns (r: NotifyResult)
      modifies if id in listeningServers then {listeningServers[id]} else {}
      ensures r == NotFound <==> id !in listeningServers
      ensures id in listeningServers ==>
                var server := listeningServers[id];
                && server.closed == old(server.closed)
                && (r == Panics <==> server.closed)
                && (r == Blocks <==> !server.closed && |old(server.queue)| >= 100)
                && server.queue == old(server.queue) + if r == Sent then [msg] else []
    {
      if id in listeningServers {
        var listeningServer := listeningServers[id];
        if listeningServer.closed {
          return Panics;
        }
        if |listeningServer.queue| >= F.QUEUE_CAPACITY {
          return Blocks;
        }
        listeningServer.queue := listeningServer.queue + [msg];
        return Sent;
      }
      return NotFound;
    }
  }

  // ------------------------------------------------------- the two receivers of a queue

  /** The response a registration's events go to. After a failed write, which may get part of its bytes
      out, nothing more is written. */
  class EventStream {
    var written: string
    var broken: bool

    constructor ()
      ensures written == "" && !broken
    {
      written, broken := "", false;
    }

    method Write(event: string) returns (ok: bool)
      modifies this
      ensures ok ==> !old(broken) && !broken && written == old(written) + event
      ensures !ok ==>
                broken && old(written) <= written <= old(written) + event && (old(broken) ==> written == old(written))
    {
      if broken {
        return false;
      }
      var fails: bool := *;
      if fails {
        var n: nat :| n <= |event|;
        written, broken := written + event[..n], true;
        return false;
      }
      written := written + event;
      return true;
    }
  }

  predicate Distinct(cs: seq<ClientData>) {
    forall i, j :: 0 <= i < j < |cs| ==> cs[i] != cs[j]
  }

  function Messages(cs: seq<ClientData>): (rs: seq<Request>)
    ensures |rs| == |cs|
  {
    seq(|cs|, i requires 0 <= i < |cs| => cs[i].msg)
  }

  lemma StreamNext(cs: seq<ClientData>, k: nat)
    requires k < |cs|
    ensures Stream(Messages(cs[..k + 1])) == Stream(Messages(cs[..k])) + Marshal(cs[k].msg)
  {
    hide Marshal;
    assert Messages(cs[..k + 1]) == Messages(cs[..k]) + [cs[k].msg];
    StreamConcat(Messages(cs[..k]), [cs[k].msg]);
    assert [cs[k].msg][1..] == [];
    assert Marshal(cs[k].msg) + "" == Marshal(cs[k].msg);
  }

  /** The bytes after forwarding `cs`, the first `passed` without error and the rest not at all or, the first of
      them, in part. */
  ghost predicate Carries(before: string, after: string, cs: seq<ClientData>, passed: nat)
    requires passed <= |cs|
  {
    && before + Stream(Messages(cs[..passed])) <= after
    && after <= before + Stream(Messages(cs[..if passed < |cs| then passed + 1 else passed]))
  }

  /** What a client hears from the handler: `NotePassed` follows `NoteFail`, but comes second. */
  function Outcome(passed: bool): seq<F.Verdict> {
    if passed then [F.NotePassed] else [F.NoteFail, F.NotePassed]
  }

  /** One turn of a registration handler's loop: a request taken and its client told, nothing to take yet, or
      nothing to take ever again. */
  datatype Turn = Turned | Waits | Returns

  /** Takes the next request and writes its event. `ok` says that the event was written without error. */
  method ForwardNext(server: ListeningServer, w: EventStream) returns (turn: Turn, ghost ok: bool)
    modifies server, w, if server.queue != [] then {server.queue[0]} else {}
    ensures server.closed == old(server.closed)
    ensures old(server.queue) == [] ==>
              && turn == (if server.closed then Returns else Waits)
              && server.queue == [] && w.written == old(w.written) && w.broken == old(w.broken)
    ensures old(server.queue) != [] ==>
              var importer := old(server.queue)[0];
              && turn == Turned && server.queue == old(server.queue)[1..]
              && importer.results == old(importer.results) + Outcome(ok)
              && w.broken == !ok && (ok ==> !old(w.broken))
              && WriteOutcome(old(w.written), w.written, importer.msg, old(w.broken), ok)
  {
    if server.queue == [] {
      return if server.closed then Returns else Waits, false;
    }
    var importer := server.queue[0];
    server.queue := server.queue[1..];
    var passed := w.Write(Marshal(importer.msg));
    if !passed {
      importer.Report(F.NoteFail);
    }
    importer.Report(F.NotePassed);
    return Turned, passed;
  }

  /** What writing one event adds to a stream. */
  predicate WriteOutcome(before: string, after: string, msg: Request, broken: bool, ok: bool) {
    if ok then after == before + Marshal(msg)
    else before <= after <= before + Marshal(msg) && (broken ==> after == before)
  }

  /** A registration handler's loop until its queue is empty: events go out in order until one write fails, and
      everybody is told, the truth first. */
  method ForwardRequests(server: ListeningServer, w: EventStream) returns (turn: Turn, ghost passed: nat)
    requires Distinct(server.queue)
    modifies server, w, server.queue
    ensures server.queue == [] && server.closed == old(server.closed) && turn == if server.closed then Returns
        else Waits
    ensures passed <= |old(server.queue)| && Carries(old(w.written), w.written, old(server.queue), passed)
    ensures w.broken <==> old(w.broken) || passed < |old(server.queue)|
    ensures old(w.broken) ==> passed == 0 && w.written == old(w.written)
    ensures forall i :: 0 <= i < |old(server.queue)| ==>
              old(server.queue)[i].results == old(server.queue[i].results) + Outcome(i < passed)
  {
    hide Marshal, Messages, Carries, Outcome, Stream, WriteOutcome;
    ghost var q, before := server.queue, w.written;
    ghost var k := 0;
    passed := 0;
    turn := Turned;
    CarriesNothing(before, q);
    while turn == Turned
      invariant k <= |q| && server.queue == q[k..] && server.closed == old(server.closed)
      invariant turn != Turned ==> k == |q| && turn == if server.closed then Returns else Waits
      invariant passed <= k && (w.broken <==> old(w.broken) || passed < k)
          && (old(w.broken) ==> passed == 0 && w.written == before)
      invariant Carries(before, w.written, q[..k], passed) && (!w.broken
          ==> w.written == before + Stream(Messages(q[..k])))
      invariant forall i :: 0 <= i < k ==> q[i].results == old(server.queue[i].results) + Outcome(i < passed)
      invariant forall i :: k <= i < |q| ==> q[i].results == old(server.queue[i].results)
      decreases |q| - k, turn == Turned
    {
      ghost var sent, wasBroken := w.written, w.broken;
      ghost var ok;
      assert forall i :: 0 <= i < |q| && i != k && k < |q| ==> q[i] != q[k];
      turn, ok := ForwardNext(server, w);
      if turn == Turned {
        CarriesNext(before, sent, w.written, q, k, passed, wasBroken, ok);
        passed := if ok then passed + 1 else passed;
        k := k + 1;
      }
    }
    assert q[..k] == q;
  }

  lemma CarriesNothing(before: string, cs: seq<ClientData>)
    ensures Carries(before, before, cs[..0], 0) && before == before + Stream(Messages(cs[..0]))
  {
    assert cs[..0] == [] && Messages([]) == [];
  }

  lemma CarriesNext(before: string, sent: string, after: string, q: seq<ClientData>, k: nat, passed: nat,
      broken: bool, ok: bool)
    requires k < |q| && passed <= k && Carries(before, sent, q[..k], passed)
    requires WriteOutcome(sent, after, q[k].msg, broken, ok) && (ok ==> !broken)
    requires passed < k ==> broken
    requires !broken ==> sent == before + Stream(Messages(q[..k]))
    requires broken && passed == k ==> k == 0 && sent == before
    ensures Carries(before, after, q[..k + 1], if ok then passed + 1 else passed)
    ensures ok ==> after == before + Stream(Messages(q[..k + 1]))
    ensures broken ==> after == sent
  {
    hide Stream, Marshal;
    StreamNext(q, k);
    assert q[..k][..passed] == q[..k + 1][..passed] == q[..passed];
    if passed < k {
      assert q[..k][..passed + 1] == q[..k + 1][..passed + 1];
    } else {
      assert q[..k + 1][..k + 1] == q[..k + 1];
    }
  }

  /** The cleanup of a registration whose connection has ended: nobody finds its queue any more, and whoever
      is still on it is told so. */
  method StopListening(db: ListeningServerDB, id: string, server: ListeningServer)
    requires !server.closed && Distinct(server.queue)
    modifies db, server, server.queue
    ensures db.listeningServers == old(db.listeningServers) - {id}
    ensures server.closed && server.queue == []
    ensures forall i :: 0 <= i < |old(server.queue)| ==>
              old(server.queue)[i].results == old(server.queue[i].results) + [F.NoteServerConnLost]
  {
    db.RemoveListeningServer(id);
    server.closed := true;
    ghost var q, k := server.queue, 0;
    while server.queue != []
      invariant k <= |q| && server.queue == q[k..] && server.closed
      invariant db.listeningServers == old(db.listeningServers) - {id}
      invariant forall i :: 0 <= i < |q| ==> q[i].results == old(server.queue[i].results) + if i < k then
          [F.NoteServerConnLost] else []
      decreases |q| - k
    {
      var connectionRequest := server.queue[0];
      server.queue := server.queue[1..];
      assert connectionRequest == q[k] && forall i :: 0 <= i < |q| && i != k ==> q[i] != q[k];
      connectionRequest.Report(F.NoteServerConnLost);
      k := k + 1;
    }
  }

  // ------------------------------------------------------- waiting clients

  class Conn {
    var open: bool

    constructor ()
      ensures open
    {
      open := true;
    }

    method Close()
      modifies this
      ensures !open
    {
      open := false;
    }
  }

  /** A hijacked callback socket, or none when the hijack failed. */
  type ServerConn = Option<Conn>

  /** `sockPassCh` is the buffer of the client's mailbox. */
  class ConnectingClient {
    var sockPassCh: Option<ServerConn>

    constructor ()
      ensures sockPassCh == None
    {
      sockPassCh := None;
    }
  }

  class ConnectingClientDB {
    var connectingClients: map<string, ConnectingClient>

    constructor ()
      ensures connectingClients == map[]
    {
      connectingClients := map[];
    }

    method AddConnectingClient(id: string, imp: ConnectingClient)
      modifies this
      ensures connectingClients == old(connectingClients)[id := imp]
    {
      connectingClients := connectingClients[id := imp];
    }

    method RemoveConnectingClient(id: string)
      modifies this
      ensures connectingClients == old(connectingClients) - {id}
    {
      connectingClients := connectingClients - {id};
    }

    /** Hands a socket over if a client is registered under `id` and has none pending; otherwise changes nothing. */
    method NotifyConnectingClient(id: string, connection: ServerConn) returns (delivered: bool)
      modifies if id in connectingClients then {connectingClients[id]} else {}
      ensures delivered <==> id in connectingClients && old(connectingClients[id].sockPassCh).None?
      ensures id in connectingClients ==>
                connectingClients[id].sockPassCh == if delivered then Some(connection)
                    else old(connectingClients[id].sockPassCh)
    {
      if id in connectingClients {
        var importer := connectingClients[id];
        if importer.sockPassCh.None? {
          importer.sockPassCh := Some(connection);
          return true;
        }
        return false;
      }
      return false;
    }

    /** A client leaves: its key goes, and a socket it never took is closed. */
    method RemoveAndDrainConnectingClient(id: string, imp: ConnectingClient)
      modifies this, imp, PendingConn(imp)
      ensures connectingClients == old(connectingClients) - {id}
      ensures imp.sockPassCh == None
      ensures forall conn <- old(PendingConn(imp)) :: !conn.open
    {
      RemoveConnectingClient(id);
      if imp.sockPassCh.Some? {
        var sc := imp.sockPassCh.value;
        imp.sockPassCh := None;
        if sc.Some? {
          sc.value.Close();
        }
      }
    }
  }

  /** The socket in a client's mailbox. */
  function PendingConn(imp: ConnectingClient): set<Conn>
    reads imp
  {
    if imp.sockPassCh.Some? && imp.sockPassCh.value.Some? then {imp.sockPassCh.value.value} else {}
  }

  datatype CallbackResult = Refused | Delivered | Rejected

  /** A callback whose hijack yields `conn`: afterwards its socket is open in the mailbox of the client
      registered under the callback's key, or it is closed; a callback without ids is never hijacked. */
  method HandleServerCallBackConnection(db: ConnectingClientDB, clientId: string, serverId: string, conn: ServerConn)
    returns (r: CallbackResult)
    requires conn.Some? ==> conn.value.open
    modifies if clientId + serverId in db.connectingClients then {db.connectingClients[clientId + serverId]} else {}
    modifies if conn.Some? then {conn.value} else {}
    ensures r == Refused <==> clientId == "" || serverId == ""
    ensures r == Delivered <==>
              && clientId != "" && serverId != "" && clientId + serverId in db.connectingClients
              && old(db.connectingClients[clientId + serverId].sockPassCh).None?
    ensures r == Delivered ==> db.connectingClients[clientId + serverId].sockPassCh == Some(conn)
    ensures r != Delivered && clientId + serverId in db.connectingClients ==>
              db.connectingClients[clientId + serverId].sockPassCh
                  == old(db.connectingClients[clientId + serverId].sockPassCh)
    ensures conn.Some? ==> (conn.value.open <==> r != Rejected)
  {
    if serverId == "" || clientId == "" {
      return Refused;
    }
    var delivered := db.NotifyConnectingClient(clientId + serverId, conn);
    if !delivered {
      if conn.Some? {
        conn.value.Close();
      }
      return Rejected;
    }
    return Delivered;
  }
}
