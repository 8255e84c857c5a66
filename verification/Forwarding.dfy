/** How the relay forwards a client's request to a listening server, as a transition system: client
    handlers inside `NotifyListeningServer` and waiting for their verdict, registration handlers, their
    cleanup goroutines, the shared map and its read-write lock. Every lock operation, map access, send,
    receive and close is a step of its own, and any number of each kind of goroutine may run. */
module Forwarding {
  import opened Options
  import opened Json
  import opened Locks
  import Runs

  const QUEUE_CAPACITY: nat := 100
  const RESULT_CAPACITY: nat := 1

  datatype Verdict = NotePassed | NoteServerConnLost | NoteFail

  /** Where a client handler stands. From `Reading` to `Sent` or `Missing` it holds the read lock. */
  datatype ClientPc =
    | Idle                     // has not called NotifyListeningServer
    | WantRead
    | Reading                  // about to look its server up
    | Sending(reg: nat)        // about to send on, or blocked on, the queue it found
    | Sent
    | Missing
    | Awaiting                 // at the receive from its result channel
    | Answered(verdict: Verdict)
    | NotFound

  /** The place a request got in the queue it was sent on. */
  datatype Ticket = Ticket(reg: nat, pos: nat)

  /** `results` holds every verdict ever sent to this client's result channel and `received` counts those
      taken out, so the channel's buffer is `results[received..]`. */
  datatype Client = Client(msg: Request, pc: ClientPc, ticket: Option<Ticket>, results: seq<Verdict>, received: nat)

  datatype HandlerPc =
    | WantAdd | AddPending | Adding | Added  // Lock called, Lock held, map written
    | Spawning                               // unlocked, about to start the cleanup goroutine
    | Looping                                // at the receive of the range loop
    | Writing(pos: nat) | Failing(pos: nat) | Passing(pos: nat)
    | HandlerDone

  datatype CleanupPc =
    | Unstarted
    | AwaitDone                                           // at the receive from the context
    | WantRemove | RemovePending | Removing | Removed     // Lock called, Lock held, key deleted
    | Closing                                             // unlocked, about to close the queue
    | Draining | Telling(pos: nat)
    | CleanupDone

  /** One registration. `log` holds every client ever sent on its queue and `head` counts those received, so
      the queue's buffer is `log[head..]`; `byHandler[i]` says whether the handler or the cleanup received
      the i-th. `wrote` lists the positions whose events were written without error, in writing order, and
      `broken` the position of the first failed write. */
  datatype Reg = Reg(
    id: string,
    log: seq<nat>, head: nat, closed: bool,
    byHandler: seq<bool>,
    ctxDone: bool,
    handler: HandlerPc, cleanup: CleanupPc,
    wrote: seq<nat>, broken: Option<nat>)

  datatype Tid = AddBy(reg: nat) | RemoveBy(reg: nat)

  datatype State = State(
    regs: seq<Reg>,
    clients: seq<Client>,
    servers: map<string, nat>,
    mx: RWMutex<Tid>,
    panicked: bool)

  const Init := State([], [], map[], RWMutex(None, {}), false)

  datatype Step =
    | Register(id: string)                    // a server connects
    | Dial(msg: Request)                      // a client connects
    | Notify(client: nat)                     // its handler calls NotifyListeningServer
    | ContextDone(reg: nat)                   // a registration's connection ends
    | ClientMove(client: nat)
    | HandlerMove(reg: nat, writeOk: bool)    // writeOk is the outcome if the move is a stream write
    | CleanupMove(reg: nat)

  predicate External(step: Step) {
    step.Register? || step.Dial? || step.Notify? || step.ContextDone?
  }

  // ------------------------------------------------------- channels

  predicate QueueRoom(g: Reg) {
    |g.log| < g.head + QUEUE_CAPACITY
  }

  predicate QueueEmpty(g: Reg) {
    |g.log| <= g.head
  }

  predicate ResultRoom(s: State, c: nat) {
    c < |s.clients| && |s.clients[c].results| < s.clients[c].received + RESULT_CAPACITY
  }

  predicate ResultWaiting(k: Client) {
    k.received < |k.results|
  }

  function Tell(s: State, c: nat, v: Verdict): State
    requires c < |s.clients|
  {
    s.(clients := s.clients[c := s.clients[c].(results := s.clients[c].results + [v])])
  }

  /** The client whose request is at position `pos` of a queue. */
  function ClientAt(g: Reg, pos: nat): nat {
    if pos < |g.log| then g.log[pos] else 0
  }

  function TakeNext(g: Reg, byHandler: bool): Reg {
    g.(head := g.head + 1, byHandler := g.byHandler + [byHandler])
  }

  /** The queue positions whose events may be on a registration's stream: those written without error, and then
      the one whose write failed, or is still going on, and may have got through in part or in whole. */
  function Attempts(g: Reg): seq<nat> {
    g.wrote + (if g.broken.Some? then [g.broken.value] else if g.handler.Writing? then [g.handler.pos] else [])
  }

  // ------------------------------------------------------- client handlers

  predicate ClientCanMove(s: State, c: nat) {
    c < |s.clients| &&
    match s.clients[c].pc
    case Idle => false
    case WantRead => s.mx.writer.None?
    case Reading => true
    case Sending(r) => r < |s.regs| && (s.regs[r].closed || QueueRoom(s.regs[r]))
    case Sent => true
    case Missing => true
    case Awaiting => ResultWaiting(s.clients[c])
    case Answered(_) => false
    case NotFound => false
  }

  function SetPc(s: State, c: nat, pc: ClientPc): State
    requires c < |s.clients|
  {
    s.(clients := s.clients[c := s.clients[c].(pc := pc)])
  }

  function Enqueue(s: State, c: nat, r: nat): State
    requires c < |s.clients| && r < |s.regs|
  {
    var g := s.regs[r];
    if g.closed then s.(panicked := true)
    else s.(regs := s.regs[r := g.(log := g.log + [c])],
            clients := s.clients[c := s.clients[c].(pc := Sent, ticket := Some(Ticket(r, |g.log|)))])
  }

  function ClientMoved(s: State, c: nat): State
    requires ClientCanMove(s, c)
  {
    var k := s.clients[c];
    match k.pc
    case WantRead => SetPc(s, c, Reading).(mx := s.mx.(readers := s.mx.readers + {c}))
    case Reading =>
      SetPc(s, c, if k.msg.serverId in s.servers then Sending(s.servers[k.msg.serverId]) else Missing)
    case Sending(r) => Enqueue(s, c, r)
    case Sent => SetPc(s, c, Awaiting).(mx := s.mx.(readers := s.mx.readers - {c}))
    case Missing => SetPc(s, c, NotFound).(mx := s.mx.(readers := s.mx.readers - {c}))
    case Awaiting =>
      s.(clients := s.clients[c := k.(pc := Answered(k.results[k.received]), received := k.received + 1)])
    case _ => s
  }

  // ------------------------------------------------------- registration handlers

  predicate HandlerCanMove(s: State, r: nat, writeOk: bool) {
    r < |s.regs| &&
    var g := s.regs[r];
    match g.handler
    case WantAdd => s.mx.writer.None?
    case AddPending => s.mx.readers == {}
    case Adding => true
    case Added => true
    case Spawning => true
    case Looping => !QueueEmpty(g) || g.closed
    case Writing(_) => writeOk ==> g.broken.None?
    case Failing(pos) => ResultRoom(s, ClientAt(g, pos))
    case Passing(pos) => ResultRoom(s, ClientAt(g, pos))
    case HandlerDone => false
  }

  /** What a handler's move makes of its own registration. */
  function HandlerNext(g: Reg, writeOk: bool): Reg {
    match g.handler
    case WantAdd => g.(handler := AddPending)
    case AddPending => g.(handler := Adding)
    case Adding => g.(handler := Added)
    case Added => g.(handler := Spawning)
    case Spawning => g.(handler := Looping, cleanup := AwaitDone)
    case Looping => if QueueEmpty(g) then g.(handler := HandlerDone) else TakeNext(g, true).(handler := Writing(g.head))
    case Writing(pos) =>
      if writeOk then g.(handler := Passing(pos), wrote := g.wrote + [pos])
      else g.(handler := Failing(pos), broken := if g.broken.None? then Some(pos) else g.broken)
    case Failing(pos) => g.(handler := Passing(pos))
    case Passing(pos) => g.(handler := Looping)
    case HandlerDone => g
  }

  function HandlerMoved(s: State, r: nat, writeOk: bool): State
    requires HandlerCanMove(s, r, writeOk)
  {
    var g := s.regs[r];
    var t := s.(regs := s.regs[r := HandlerNext(g, writeOk)]);
    match g.handler
    case WantAdd => t.(mx := s.mx.(writer := Some(AddBy(r))))
    case Adding => t.(servers := s.servers[g.id := r])
    case Added => t.(mx := s.mx.(writer := None))
    case Failing(pos) => Tell(t, ClientAt(g, pos), NoteFail)
    case Passing(pos) => Tell(t, ClientAt(g, pos), NotePassed)
    case _ => t
  }

  // ------------------------------------------------------- cleanup goroutines

  predicate CleanupCanMove(s: State, r: nat) {
    r < |s.regs| &&
    var g := s.regs[r];
    match g.cleanup
    case Unstarted => false
    case AwaitDone => g.ctxDone
    case WantRemove => s.mx.writer.None?
    case RemovePending => s.mx.readers == {}
    case Removing => true
    case Removed => true
    case Closing => true
    case Draining => !QueueEmpty(g) || g.closed
    case Telling(pos) => ResultRoom(s, ClientAt(g, pos))
    case CleanupDone => false
  }

  /** What a cleanup's move makes of its registration. */
  function CleanupNext(g: Reg): Reg {
    match g.cleanup
    case Unstarted => g
    case AwaitDone => g.(cleanup := WantRemove)
    case WantRemove => g.(cleanup := RemovePending)
    case RemovePending => g.(cleanup := Removing)
    case Removing => g.(cleanup := Removed)
    case Removed => g.(cleanup := Closing)
    case Closing => if g.closed then g else g.(cleanup := Draining, closed := true)
    case Draining => if QueueEmpty(g) then g.(cleanup := CleanupDone)
        else TakeNext(g, false).(cleanup := Telling(g.head))
    case Telling(pos) => g.(cleanup := Draining)
    case CleanupDone => g
  }

  function CleanupMoved(s: State, r: nat): State
    requires CleanupCanMove(s, r)
  {
    var g := s.regs[r];
    var t := s.(regs := s.regs[r := CleanupNext(g)]);
    match g.cleanup
    case WantRemove => t.(mx := s.mx.(writer := Some(RemoveBy(r))))
    case Removing => t.(servers := s.servers - {g.id})
    case Removed => t.(mx := s.mx.(writer := None))
    case Closing => if g.closed then t.(panicked := true) else t
    case Telling(pos) => Tell(t, ClientAt(g, pos), NoteServerConnLost)
    case _ => t
  }

  // ------------------------------------------------------- steps and runs

  function NewReg(id: string): Reg {
    Reg(id, [], 0, false, [], false, WantAdd, Unstarted, [], None)
  }

  predicate Enabled(s: State, step: Step) {
    match step
    case Register(id) => id != ""
    case Dial(_) => true
    case Notify(c) => c < |s.clients| && s.clients[c].pc == Idle
    case ContextDone(r) => r < |s.regs| && !s.regs[r].ctxDone
    case ClientMove(c) => ClientCanMove(s, c)
    case HandlerMove(r, ok) => HandlerCanMove(s, r, ok)
    case CleanupMove(r) => CleanupCanMove(s, r)
  }

  function Apply(s: State, step: Step): State
    requires Enabled(s, step)
  {
    match step
    case Register(id) => s.(regs := s.regs + [NewReg(id)])
    case Dial(msg) => s.(clients := s.clients + [Client(msg, Idle, None, [], 0)])
    case Notify(c) => SetPc(s, c, WantRead)
    case ContextDone(r) => s.(regs := s.regs[r := s.regs[r].(ctxDone := true)])
    case ClientMove(c) => ClientMoved(s, c)
    case HandlerMove(r, ok) => HandlerMoved(s, r, ok)
    case CleanupMove(r) => CleanupMoved(s, r)
  }

  /** A step that is not enabled when its turn comes is passed over. */
  function Next(s: State, step: Step): State {
    if Enabled(s, step) then Apply(s, step) else s
  }

  /** The state after a schedule. */
  function Run(s: State, steps: seq<Step>): State {
    Runs.Run(Next, s, steps)
  }
}
