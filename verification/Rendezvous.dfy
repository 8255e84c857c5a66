/** How a server's callback socket reaches the client that waits for it, as a transition system: client dial
    handlers, server callback handlers, the map of waiting clients and its read-write lock, one mailbox of
    capacity one per client, and the sockets. Every lock operation, map access, send, receive and close is
    a step of its own, and any number of each kind of handler may run. */
module Rendezvous {
  import opened Locks
  import opened Options
  import Runs

  /** `ServerConn`: a hijacked callback socket, named after its callback, or the error of a failed hijack. */
  datatype Parcel = Sock(call: nat) | NoSock

  /** Where a client's dial handler stands. */
  datatype ClientPc =
    | Start | AddPending | Adding | Added          // Lock called, Lock held, map written
    | Asking                                       // inside NotifyListeningServer, or waiting for its verdict
    | Waiting                                      // at the select on mailbox, context and timer
    | Took(parcel: Parcel)                         // received a parcel
    | Joined(sock: nat)                            // inside uniteConnections
    | Refusing(sock: nat)                          // its own hijack failed, about to close the socket
    | Leaving | LeavePending | Removing | Removed  // deferred: Lock called, Lock held, key deleted
    | Draining                                     // unlocked, at the select on its mailbox
    | Drained(parcel: Parcel)
    | Gone

  /** `joined` records the socket this client was united with. */
  datatype Client = Client(clientId: string, serverId: string, pc: ClientPc, mailbox: Option<Parcel>,
      joined: Option<nat>)

  /** Where a callback handler stands. From `Reading` to `Delivered` or `Rejected` it holds the read lock. */
  datatype CallPc =
    | Arrived
    | WantRead | Reading | Found(client: nat) | Delivered | Rejected
    | Rejecting                                    // unlocked with an error, about to close its socket
    | CallDone

  /** The ledger of one callback's socket. */
  datatype Place = Nowhere | AtCall | InMailbox(client: nat) | AtClient(client: nat) | Closed

  /** `takenBy` records the client that received this callback's socket from its mailbox. */
  datatype Call = Call(clientId: string, serverId: string, pc: CallPc, hijacked: bool, place: Place,
      takenBy: Option<nat>)

  /** The lock's writers are clients, and its readers callbacks. */
  datatype State = State(clients: seq<Client>, calls: seq<Call>, waiting: map<string, nat>, mx: RWMutex<nat>)

  const Init := State([], [], map[], RWMutex(None, {}))

  /** `getWaitingClientId`. */
  function ClientKey(k: Client): string {
    k.clientId + k.serverId
  }

  /** `getCallingServerId`. */
  function CallKey(b: Call): string {
    b.clientId + b.serverId
  }

  datatype Step =
    | DialIn(clientId: string, serverId: string)
    | CallIn(clientId: string, serverId: string)
    | Verdict(client: nat, passed: bool)          // of forwarding; not passed: an error, or the panic on a lost server
    | GiveUp(client: nat)                         // context done, or timer
    | TunnelEnds(client: nat)
    | ClientMove(client: nat, hijackOk: bool)
    | CallMove(call: nat, hijackOk: bool)

  predicate External(step: Step) {
    !step.ClientMove? && !step.CallMove?
  }

  // ------------------------------------------------------- sockets

  function SetPlace(s: State, p: Parcel, place: Place): State {
    match p
    case NoSock => s
    case Sock(b) => if b < |s.calls| then s.(calls := s.calls[b := s.calls[b].(place := place)]) else s
  }

  /** Client `c` receives parcel `p` from its mailbox. */
  function Take(s: State, c: nat, p: Parcel, pc: ClientPc): State
    requires c < |s.clients|
  {
    var t := s.(clients := s.clients[c := s.clients[c].(mailbox := None, pc := pc)]);
    match p
    case NoSock => t
    case Sock(b) =>
      if b < |s.calls| then t.(calls := t.calls[b := t.calls[b].(place := AtClient(c), takenBy := Some(c))]) else t
  }

  function SetPc(s: State, c: nat, pc: ClientPc): State
    requires c < |s.clients|
  {
    s.(clients := s.clients[c := s.clients[c].(pc := pc)])
  }

  // ------------------------------------------------------- client handlers

  predicate ClientCanMove(s: State, c: nat) {
    c < |s.clients| &&
    match s.clients[c].pc
    case Start => s.mx.writer.None?
    case AddPending => s.mx.readers == {}
    case Adding => true
    case Added => true
    case Asking => false
    case Waiting => s.clients[c].mailbox.Some?
    case Took(_) => true
    case Joined(_) => false
    case Refusing(_) => true
    case Leaving => s.mx.writer.None?
    case LeavePending => s.mx.readers == {}
    case Removing => true
    case Removed => true
    case Draining => true
    case Drained(_) => true
    case Gone => false
  }

  function ClientMoved(s: State, c: nat, hijackOk: bool): State
    requires ClientCanMove(s, c)
  {
    var k := s.clients[c];
    match k.pc
    case Start => SetPc(s, c, AddPending).(mx := s.mx.(writer := Some(c)))
    case AddPending => SetPc(s, c, Adding)
    case Adding => SetPc(s, c, Added).(waiting := s.waiting[ClientKey(k) := c])
    case Added => SetPc(s, c, Asking).(mx := s.mx.(writer := None))
    case Waiting => Take(s, c, k.mailbox.value, Took(k.mailbox.value))
    case Took(p) =>
      (match p
       case NoSock => SetPc(s, c, Leaving)
       case Sock(b) =>
         if hijackOk then s.(clients := s.clients[c := k.(pc := Joined(b), joined := Some(b))])
         else SetPc(s, c, Refusing(b)))
    case Refusing(b) => SetPlace(SetPc(s, c, Leaving), Sock(b), Closed)
    case Leaving => SetPc(s, c, LeavePending).(mx := s.mx.(writer := Some(c)))
    case LeavePending => SetPc(s, c, Removing)
    case Removing => SetPc(s, c, Removed).(waiting := s.waiting - {ClientKey(k)})
    case Removed => SetPc(s, c, Draining).(mx := s.mx.(writer := None))
    case Draining => if k.mailbox.Some? then Take(s, c, k.mailbox.value, Drained(k.mailbox.value))
        else SetPc(s, c, Gone)
    case Drained(p) => SetPlace(SetPc(s, c, Gone), p, Closed)
    case _ => s
  }

  // ------------------------------------------------------- callback handlers

  predicate CallCanMove(s: State, b: nat) {
    b < |s.calls| &&
    match s.calls[b].pc
    case WantRead => s.mx.writer.None?
    case Found(c) => c < |s.clients|
    case CallDone => false
    case _ => true
  }

  function SetCall(s: State, b: nat, pc: CallPc): State
    requires b < |s.calls|
  {
    s.(calls := s.calls[b := s.calls[b].(pc := pc)])
  }

  /** What a callback hands to the waiting client. */
  function ParcelOf(s: State, b: nat): Parcel
    requires b < |s.calls|
  {
    if s.calls[b].hijacked then Sock(b) else NoSock
  }

  function CallMoved(s: State, b: nat, hijackOk: bool): State
    requires CallCanMove(s, b)
  {
    var k := s.calls[b];
    match k.pc
    case Arrived =>
      if hijackOk then s.(calls := s.calls[b := k.(pc := WantRead, hijacked := true, place := AtCall)])
      else SetCall(s, b, WantRead)
    case WantRead => SetCall(s, b, Reading).(mx := s.mx.(readers := s.mx.readers + {b}))
    case Reading => SetCall(s, b, if CallKey(k) in s.waiting then Found(s.waiting[CallKey(k)]) else Rejected)
    case Found(c) =>
      if s.clients[c].mailbox.None? then
        SetPlace(SetCall(s, b, Delivered), ParcelOf(s, b), InMailbox(c))
          .(clients := s.clients[c := s.clients[c].(mailbox := Some(ParcelOf(s, b)))])
      else SetCall(s, b, Rejected)
    case Delivered => SetCall(s, b, CallDone).(mx := s.mx.(readers := s.mx.readers - {b}))
    case Rejected => SetCall(s, b, Rejecting).(mx := s.mx.(readers := s.mx.readers - {b}))
    case Rejecting => SetPlace(SetCall(s, b, CallDone), ParcelOf(s, b), Closed)
    case CallDone => s
  }

  // ------------------------------------------------------- steps and runs

  predicate Enabled(s: State, step: Step) {
    match step
    case DialIn(_, _) => true
    case CallIn(client, server) => client != "" && server != ""
    case Verdict(c, _) => c < |s.clients| && s.clients[c].pc == Asking
    case GiveUp(c) => c < |s.clients| && s.clients[c].pc == Waiting
    case TunnelEnds(c) => c < |s.clients| && s.clients[c].pc.Joined?
    case ClientMove(c, _) => ClientCanMove(s, c)
    case CallMove(b, _) => CallCanMove(s, b)
  }

  function Apply(s: State, step: Step): State
    requires Enabled(s, step)
  {
    match step
    case DialIn(client, server) => s.(clients := s.clients + [Client(client, server, Start, None, None)])
    case CallIn(client, server) => s.(calls := s.calls + [Call(client, server, Arrived, false, Nowhere, None)])
    case Verdict(c, passed) => SetPc(s, c, if passed then Waiting else Leaving)
    case GiveUp(c) => SetPc(s, c, Leaving)
    case TunnelEnds(c) => SetPlace(SetPc(s, c, Leaving), Sock(s.clients[c].pc.sock), Closed)
    case ClientMove(c, ok) => ClientMoved(s, c, ok)
    case CallMove(b, ok) => CallMoved(s, b, ok)
  }

  /** A step that is not enabled when its turn comes is passed over. */
  function Next(s: State, step: Step): State {
    if Enabled(s, step) then Apply(s, step) else s
  }

  /** The state after a schedule. */
  function Run(s: State, steps: seq<Step>): State {
    Runs.Run(Next, s, steps)
  }
}
