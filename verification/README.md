# Verification of the data link relay

The relay lets a client reach a server that can only make outgoing connections. A server keeps a
long-lived event stream open to the relay. A client dials; the relay writes an event to the server's
stream; the server calls back; the relay glues the two sockets together. This project models the control
logic of that protocol and proves it in Dafny. `dafny verify dfyconfig.toml` checks everything.

## How the model is laid out

| files | what they model |
|---|---|
| `Utf8`, `Json`, `JsonTheorems`, `JsonGrammar` | Go's JSON string escaping and the object with three string fields, and its decoder, checked against the texts and meanings that RFC 3629 and RFC 8259 define |
| `Events`, `EventTheorems`, `EventReader`, `StreamTheorems` | the printed event, the scanner with its fixed buffer as a class, the reader goroutine, and what a reader makes of whole and cut streams |
| `Listener` | `Accept`, `Close` and the goroutine over two channels, under every schedule |
| `Forwarding`, `ForwardingInv`, `ForwardingTheorems` | `NotifyListeningServer`, registration handlers and their cleanup goroutines as a transition system |
| `Rendezvous`, `RendezvousInv`, `RendezvousTheorems` | dial handlers, callback handlers, mailboxes and sockets as a transition system |
| `Broker` | the two systems side by side, meeting in the dial handler |
| `EndToEnd` | queue, stream, reader and `Accept` composed |
| `Tunnel`, `Connections` | the glued tunnel with read-ahead at both ends, as a transition system and as one goroutine's own code |
| `Routing` | sealed routing messages and trial opening over a keyring that is replaced while serving |
| `Registries` | the two registries and the loops over them as classes and methods |
| `ForwardingCalls`, `RendezvousCalls`, `Refinement` | the effect of whole calls on the transition systems, and the proof that the registries' objects refine these systems |
| `Collisions` | runs in which ids or keys collide |
| `Runs`, `Sums`, `Sequences`, `Locks`, `Options` | what several of these share |

Concurrency is modelled by transition systems in which every lock operation, map access, send, receive and
close is a step of its own and any number of goroutines of each kind may run. A schedule is any sequence of
steps; a step that is not enabled when its turn comes is passed over, so a theorem about `Run(Init, steps)`
for all `steps` is a theorem about every reachable state. `StepKeepsInv` and `RunKeepsInv` in each system
carry theorems stated for states with `Inv` to every reachable state.

`sync.RWMutex` is modelled with writer preference: a writer that has called `Lock` keeps new readers out and
enters once the readers inside have left. Channels are modelled with their capacities: 100 for a registration's queue
and for the listener's requests, 1 for results, mailboxes and the listener's errors. A byte string is a Dafny `string`;
characters over 255, which no Go byte can be, behave like bytes that belong to no valid encoding.

What the environment is assumed to do: once a write on an event stream has failed, later writes on it fail;
a connection's read answers with at least one byte, its end or an error; bytes on a closed connection may be
thrown away; once a read or a write of a tunnel's connection has failed by itself, so do later ones; only a
sealed box's own key opens it, and the bytes of a box are never a JSON text. Time-outs, context cancellation,
hijack failures, read and write failures and the arrival of connections are steps that may happen at any time. In
the tunnel a read blocks while there is nothing to read and the writer has not ended, and a write while a fixed
number of bytes, whatever it is, is on its way; progress there never counts on a failure.

## What the code does that a reader may not expect

- On a failed event write the handler sends `NoteFail` and then also `NotePassed` for the same request. The
  client takes only the first, so it still learns the truth (`ForwardingTheorems.TruthfulVerdict`).
- The cleanup's verdict carries no error value, and the dial handler dereferences it. The model treats that as
  an exit of the handler that still runs its deferred removal and drain.
- `Add` and `Remove` act on whatever is under the key. So the registries hold every live handler exactly as long
  as live keys are distinct (`ForwardingTheorems.CompleteIffDistinct`, `RendezvousTheorems.CompleteIffDistinct`).
  There are runs in which a registration or a client is lost behind a later one under the same key, and in which
  the removal of the earlier takes the later out of the map (`Collisions.RegisteredTwice` to
  `Collisions.LeavesForTheOther`).
- Waiting clients are keyed by the two ids run together. A client can end up with the callback that another
  client's event has caused, and that this other client still waits for, exactly if the two pairs of ids run
  together alike (`Collisions.RequestsMixedUp`). Two servers can be mixed up in this way exactly if one id is a
  proper suffix of the other (`Collisions.ServersMixedUp`).
- Distinct live keys do not prevent it, but restrict it to callbacks that come after their own client has left
  (`Broker.CallbackUnitesItsClient`). A later client can get such a callback exactly if its two ids run together
  like those of the client that left, whether it names the same server or another (`Collisions.LateCallback`).
- A client that was told that its request failed may still have it accepted: exactly if the failed write got all
  its lines through (`EndToEnd.FailedWriteAccepted`, `EndToEnd.AcceptedVerdict`).
- The comment on `listenInternal` says that cancelling the context closes both channels. Both get closed exactly if
  `Accept` is called for all but a channel's worth of what there is to accept, and there are runs in which they
  never do (`Listener.RestsClosedIffAccepted`, `Listener.UnacceptedBlocks`).
- The comment on `Close` says that it fails if the listener was already closed. It can fail the first time, when
  the stream ended by itself (`Listener.FirstCloseCanFail`). Once `Accept` has returned `net.ErrClosed`, a first
  `Close` returns nil exactly if no `Accept` returned another stream error than a cancellation
  (`Listener.FirstCloseForeseen`).

## Model

| member | source | states |
|---|---|---|
| `Utf8.SanitizeIdentity` | pkg/api/marshal.go:20 | text goes through the JSON encoder's coercion unchanged exactly if it is valid UTF-8 |
| `Utf8.EncodeRuneEncodes` | pkg/api/marshal.go:20 | a code point has one encoding, the shortest whose bits, laid out as in section 3 of RFC 3629, spell it, and the coder finds it |
| `Utf8.RuneIsEncoding` | pkg/api/marshal.go:20 | what is recognised as one rune is exactly the encoding of a code point |
| `Utf8.ValidIffSpells` | pkg/api/marshal.go:20 | text is valid exactly if it is made of encodings of code points other than surrogates |
| `Utf8.SanitizeFirstBad` | pkg/api/marshal.go:20 | coercion keeps valid text and turns the first byte at which no encoding starts into U+FFFD, and goes on behind it |
| `JsonTheorems.EscapePrintable` | pkg/api/marshal.go:20-25 | the escaper never emits a raw control character, so never a newline, nor `<`, `>`, `&`, U+2028 or U+2029, and grows text at most sixfold |
| `JsonTheorems.EscapeIdentity` | pkg/api/marshal.go:20-25 | it leaves text as it is exactly if this is valid and holds none of these, no quote and no backslash |
| `EventTheorems.PrintText` | pkg/api/message_api.go:4-8 | a printed request is `{"Data":"…","ClientID":"…","ServerID":"…"}` around its escaped fields, byte for byte |
| `JsonTheorems.RoundTrip` | pkg/api/marshal.go:11-17 | decoding a printed request gives it back with invalid bytes replaced, and itself exactly if it is valid text |
| `JsonTheorems.DecodedIsValid` | pkg/api/marshal.go:15-17 | whatever decodes is valid text, so it prints and decodes unaltered from then on |
| `JsonTheorems.ParseObjectExtends` | pkg/api/marshal.go:42 | an object that parses still parses to the same value when more bytes follow |
| `JsonTheorems.PrefixRejected` | pkg/api/marshal.go:41-45 | no strict prefix of a printed request decodes |
| `JsonGrammar.UnquoteIffLiteral` | pkg/api/marshal.go:15-17 | the contents of a string literal are read exactly if they are pieces of section 7 of RFC 8259: plain code points, short escapes, `\uXXXX`, surrogate pairs, and, read as U+FFFD, lone surrogates and bad bytes |
| `JsonGrammar.ValueSpells` | pkg/api/marshal.go:15-17 | the text read spells the code points that the pieces stand for, one each |
| `JsonGrammar.FoldMatches` | pkg/api/message_api.go:4-8 | a member's name matches exactly if its code points are the letters of the field's name in either case, a long s or a Kelvin sign |
| `JsonGrammar.DecodeIffDocument` | pkg/api/marshal.go:15-17 | a text decodes to a request exactly if it is an object of string members, with white space anywhere between tokens, in which each field is the value of the last member of its name, or empty |
| `Events.Index` | pkg/api/marshal.go:33 | the first place where a pattern occurs, or that it occurs nowhere |
| `EventTheorems.LinesShape` | pkg/api/marshal.go:25 | an event's lines hold exactly one newline, at the start of the Data field |
| `EventTheorems.FirstBlank` | pkg/api/marshal.go:25 | from an event on, the first blank line of a stream is the one that ends this event |
| `EventTheorems.EventLength` | pkg/api/marshal.go:25 | an event is 65 bytes longer than its three escaped fields, so at most 65 and six per byte |
| `EventTheorems.MarshalText` | pkg/api/marshal.go:25 | the bytes of an event, literally; with fields that need no escape, with these in the clear |
| `EventTheorems.UnmarshalWhole` | pkg/api/marshal.go:29-48 | an event reads back as its request, also with any part of the final blank line missing |
| `EventTheorems.UnmarshalCut` | pkg/api/marshal.go:29-48 | an event cut before its closing brace is an error |
| `EventTheorems.UnmarshalField` | pkg/api/marshal.go:29-48 | whatever precedes an event's first Data field, and with any Unicode white space around what it holds, it is read as that decodes |
| `EventTheorems.UnmarshalNoField` | pkg/api/marshal.go:33-36 | the error of a missing Data field is returned exactly if there is none |
| `EventReader.TokenTaken` | pkg/tcp_endpoints/event_reader.go:27-42 | whatever the split function hands out of a buffer is what the whole stream calls for |
| `EventReader.Scanner.Shift` | pkg/tcp_endpoints/event_reader.go:23-24 | moving the unread bytes to the front of the buffer loses none |
| `EventReader.Scanner.Fill` | pkg/tcp_endpoints/event_reader.go:23-24 | a read appends to the buffer, in order and without loss |
| `EventReader.Scanner.Scan` | pkg/tcp_endpoints/event_reader.go:54-60 | under any chunking, an event is handed out exactly if it and its blank line fit the buffer; otherwise the scanner stops with the right error |
| `EventReader.EventStreamReader.ReadEvent` | pkg/tcp_endpoints/event_reader.go:53-75 | under any chunking, one call reads the stream's next event or reports why there is none |
| `EventReader.ReaderGoroutine` | pkg/tcp_endpoints/listener_manager.go:83-114 | under any chunking, the goroutine sends exactly the requests of the stream, in order, and how it ended; if a pass of its loop finds the context cancelled, exactly those read before and the cancellation |
| `StreamTheorems.StreamRoundTrip` | pkg/tcp_endpoints/event_reader.go:22-75 | a completely written stream yields its requests up to the first event that does not fit, and then its end, or an error at that event |
| `StreamTheorems.GoroutineRoundTrip` | pkg/tcp_endpoints/listener_manager.go:83-114 | for fitting events of valid text the goroutine sends exactly the requests printed, then end of file; cancelled at its n-th pass it sends exactly the first n, then the cancellation |
| `StreamTheorems.CutStream` | pkg/tcp_endpoints/event_reader.go:27-42 | a stream of fitting events cut at any byte yields exactly the requests whose lines survived, in order and unaltered |
| `StreamTheorems.CutStreamPrefix` | pkg/tcp_endpoints/event_reader.go:27-42 | any stream cut at any byte yields a prefix of its requests |
| `StreamTheorems.SmallRequestFits` | pkg/tcp_endpoints/listener_manager.go:34 | a request of at most 10911 bytes always fits the reader's buffer |
| `StreamTheorems.BoundIsTight` | pkg/tcp_endpoints/listener_manager.go:34 | a request of 10912 bytes exists that is never delivered |
| `Listener.RelayListener.constructor` | pkg/tcp_endpoints/listener.go:84-96 | a new listener has empty open channels and is not cancelled |
| `Listener.RelayListener.Accept` | pkg/tcp_endpoints/listener.go:31-43 | takes the next value off the request channel and answers with a callback, the stream's error, or `net.ErrClosed`; waits, with nothing changed, while there is none |
| `Listener.RelayListener.Close` | pkg/tcp_endpoints/listener.go:47-62 | cancels the context, takes one value off the error channel, and answers nil only for a cancellation; waits, having cancelled, while there is none |
| `Listener.CallsInOrder` | pkg/tcp_endpoints/listener.go:31-62 | in every schedule, the i-th receive of either kind of call gets the i-th value sent, and the closed answer for ever after |
| `Listener.ScriptCarries` | pkg/tcp_endpoints/listener_manager.go:89-113 | over the request channel go the requests read and at most one error; over the error channel at most one cancellation |
| `Listener.AcceptSequence` | pkg/tcp_endpoints/listener.go:29-43 | over any number of `Accept` calls: the requests in stream order, at most one stream error, then `net.ErrClosed` for ever |
| `Listener.OneCloseSucceeds` | pkg/tcp_endpoints/listener.go:45-62 | over any number of `Close` calls, the first returns nil exactly if the goroutine observed the cancellation, and all others fail |
| `Listener.FirstCloseForeseen` | pkg/tcp_endpoints/listener.go:45-62 | once an `Accept` has returned `net.ErrClosed`, the first `Close` returns nil exactly if every stream error that `Accept` returned was a cancellation |
| `Listener.FirstCloseCanFail` | pkg/tcp_endpoints/listener.go:45-62 | a run in which the first `Close` fails: the stream ended by itself |
| `Listener.ReasonNeverBlocks` | pkg/tcp_endpoints/listener_manager.go:91-101 | sending the reason for closing never blocks |
| `Listener.ClosingProgress` | pkg/tcp_endpoints/listener_manager.go:83-114 | after a cancellation, as long as `Accept` drains, the goroutine has an enabled step and a falling measure until both channels are closed |
| `Listener.StuckIffFull` | pkg/tcp_endpoints/listener_manager.go:105-111 | after a cancellation and before both channels are closed, the goroutine has no step exactly if it has something to hand over and the request channel holds a hundred values |
| `Listener.CloseNeedsAccepts` | pkg/tcp_endpoints/listener_manager.go:66 | the request channel is closed only when `Accept` was called for all but a channel's worth of what there is |
| `Listener.RestsClosedIffAccepted` | pkg/tcp_endpoints/listener_manager.go:66 | a cancelled goroutine that has come to rest has closed both channels exactly if `Accept` was called for all but a hundred of what there is to accept |
| `Listener.UnacceptedBlocks` | pkg/tcp_endpoints/listener_manager.go:66 | with more than a hundred values to accept and no `Accept`, there is a run that cancels and leaves the goroutine stuck, and no run closes the request channel |
| `Routing.OpenRouting` | pkg/api/seal.go:66-73 | opens a message exactly if its key is somewhere in the ring |
| `Routing.RelayData.SetRoutingKeys` | pkg/relay/relay.go:71-74 | replaces the whole ring |
| `Routing.RelayData.DecodeRouting` | pkg/relay/relay.go:87-96 | opens a sealed message with the current ring and takes anything else for plaintext |
| `Routing.DecodeAcrossRotation` | pkg/relay/relay.go:71-96 | over any run of replacements and messages, an encoded message decodes to its value exactly if it is plaintext or its key is in the ring last set; otherwise it is refused |
| `Routing.ServeAt` | pkg/relay/relay.go:87-96 | every message is decoded with the ring last set before it |
| `ForwardingInv.HandlerMap` | pkg/relay/listening_server_db.go:58-62 | an addition keeps every map entry pointing to an advertised registration, and disturbs nobody between lookup and send |
| `ForwardingInv.CleanupMap` | pkg/relay/listening_server_db.go:65-69 | a removal does the same |
| `ForwardingInv.HandlerWrites` | pkg/relay/relay.go:237-253 | events are written in queue order, each by the handler that received it, and none after a failed write |
| `ForwardingInv.HandlerTells` | pkg/relay/relay.go:245-252 | what the handler reports for a request, verdict by verdict |
| `ForwardingInv.CleanupRegs` | pkg/relay/relay.go:223-232 | the cleanup's close finds the queue open |
| `ForwardingInv.StepKeepsInv` | pkg/relay/relay.go:220-253 | every step of every goroutine keeps the whole forwarding invariant |
| `ForwardingInv.RunKeepsInv` | pkg/relay/relay.go:220-253 | so does every run |
| `ForwardingTheorems.NoSendOnClosedQueue` | pkg/relay/listening_server_db.go:72-81 | in no run is a queue sent on after its close or closed twice; mapped and looked-up queues are open |
| `ForwardingTheorems.OneReceiver` | pkg/relay/relay.go:228-237 | in every run a request is on at most one queue, at one position of it |
| `ForwardingTheorems.TruthfulVerdict` | pkg/relay/relay.go:289-293 | in every run, a client's first verdict is passed exactly if the event was written, lost exactly if the cleanup drained it, failed exactly if the write failed; and it is the one acted on |
| `ForwardingTheorems.SecondVerdictWaits` | pkg/relay/relay.go:245-252 | after a failed write the handler sends its second verdict only once the client has taken the first, and then can |
| `ForwardingTheorems.CleanupNeverBlocks` | pkg/relay/relay.go:228-230 | the cleanup's send of a verdict never blocks |
| `ForwardingTheorems.CompleteIffDistinct` | pkg/relay/listening_server_db.go:57-69 | every advertised registration can be found in every state of a run exactly if no id is ever advertised twice at once |
| `ForwardingTheorems.QuietIffSettled` | pkg/relay/relay.go:223-253 | no goroutine can move exactly if every client that asked is answered and every registration is idle on a live connection or wound up |
| `ForwardingTheorems.MovesUseWork` | pkg/relay/relay.go:223-253 | every move of a goroutine lowers a measure of the work left |
| `ForwardingTheorems.BoundedWork` | pkg/relay/relay.go:223-253 | without arrivals no schedule makes more moves than that measure |
| `ForwardingTheorems.CanSettle` | pkg/relay/relay.go:223-253 | from every state some schedule settles everything |
| `ForwardingTheorems.WrittenInOrder` | pkg/relay/relay.go:237-253 | in every run, the events written to a stream are, in order, part of what was enqueued, each of a request for that registration's id |
| `RendezvousInv.ClientMap` | pkg/relay/connecting_client_db.go:46-57 | additions and removals of clients keep every entry pointing, under its own key, to a handler that has not removed itself |
| `RendezvousInv.DeliverKeeps` | pkg/relay/connecting_client_db.go:61-73 | handing a socket over moves it from its callback to exactly one mailbox, under equal keys |
| `RendezvousInv.TakeKeeps` | pkg/relay/connecting_client_db.go:77-86 | so does a client's receive, from its mailbox to its hands |
| `RendezvousInv.StepKeepsInv` | pkg/relay/relay.go:276-376 | every step of every handler keeps the whole rendezvous invariant |
| `RendezvousTheorems.SocketConservation` | pkg/relay/relay.go:276-376 | in every reachable state a hijacked socket is in exactly one place: its callback, one mailbox, one client's hands, or closed |
| `RendezvousTheorems.AllSocketsClosed` | pkg/relay/relay.go:279-327 | when all handlers have exited, every socket is closed and every mailbox empty, even with overlapping keys |
| `RendezvousTheorems.PairingIsInjective` | pkg/relay/relay.go:295-322 | a client is united with at most one socket and a socket with at most one client, under equal keys |
| `RendezvousTheorems.PairingRespectsIds` | pkg/relay/relay_helper.go:13-21 | if no server id in play is a proper suffix of another, both ends of a pairing named the same client and server |
| `RendezvousTheorems.EntriesAgree` | pkg/relay/connecting_client_db.go:46-86 | in every run, also with colliding keys, every entry points under its own key to a handler that has not removed itself, and a drained mailbox stays empty |
| `RendezvousTheorems.MapIsLiveSet` | pkg/relay/connecting_client_db.go:45-57 | where live keys are distinct throughout, the map is exactly the set of live handlers |
| `RendezvousTheorems.CompleteIffDistinct` | pkg/relay/connecting_client_db.go:45-57 | the map holds every live handler in every state of a run exactly if live keys are distinct in every state |
| `RendezvousTheorems.QuietIffSettled` | pkg/relay/connecting_client_db.go:46-86 | no handler can move exactly if every callback is done and every client waits for something outside, or has left |
| `RendezvousTheorems.StepsUseWork` | pkg/relay/relay.go:276-376 | every step but an arrival lowers a measure of the work left |
| `Broker.StepKeepsInv` | pkg/relay/relay.go:276-305 | a client waits for a callback only after it was told that its request was passed, and no callback caused by its event, even by one whose write has not returned or has failed, comes before it is registered |
| `Broker.UnitedOnlyIfForwarded` | pkg/relay/relay.go:281-322 | a client is united with a socket only after its event was written to the server it named |
| `Broker.CallbackFindsItsClient` | pkg/relay/relay.go:276-281 | where live keys are distinct, a callback caused by a client's event, even before the write of that event returns, finds that client in the map, unless it has left |
| `Broker.CallbackUnitesItsClient` | pkg/relay/relay.go:295-322 | where live keys are distinct, it is united with that client or, once that client has left, with a later one under the same key |
| `Broker.QuietIffSettled` | pkg/relay/relay.go:177-380 | the relay is at rest exactly if every registration is idle on a live connection or wound up, every callback is done, and every client waits for a callback that has not come, is in its tunnel, or has left |
| `Broker.StepsUseWork` | pkg/relay/relay.go:177-380 | every step but an arrival lowers the whole relay's measure |
| `Broker.BoundedWork` | pkg/relay/relay.go:177-380 | without arrivals no schedule makes more steps than that measure |
| `Broker.NothingLeaks` | pkg/relay/relay.go:279-376 | at rest, with nobody waiting or in a tunnel, every socket is closed |
| `Collisions.RegisteredTwice` | pkg/relay/listening_server_db.go:58-62 | a run with two advertised registrations of one id, of which only the later can be found |
| `Collisions.RemovesTheOther` | pkg/relay/listening_server_db.go:65-69 | a run in which the end of the earlier one takes the later one out of the map |
| `Collisions.EnrolledTwice` | pkg/relay/connecting_client_db.go:46-50 | a run with two waiting clients under any one key, of which only the later can be found |
| `Collisions.LeavesForTheOther` | pkg/relay/connecting_client_db.go:53-57 | a run in which the earlier one leaves and takes the later one out of the map |
| `Collisions.RequestsMixedUp` | pkg/relay/relay_helper.go:13-21 | some run unites a client with the callback that the event of another client has caused, while this other client still waits for it, exactly if the two pairs of ids run together alike |
| `Collisions.ServersMixedUp` | pkg/relay/relay_helper.go:13-21 | for two servers, some run unites a client that asked for the one with a callback caused by the event of another client that asked for the other, exactly if one server id is a proper suffix of the other |
| `Collisions.LateCallback` | pkg/relay/relay.go:298-305 | some run with distinct live keys throughout unites a client with a callback that the event of another client has caused, for the same server or another, exactly if the two pairs of ids run together alike |
| `Tunnel.StepKeepsInv` | pkg/relay/relay_helper.go:37-86 | every step keeps account of every byte: read, on the way out, in the copy loop, on the way in |
| `Tunnel.ReadIsPrefixOfWritten` | pkg/utils/httputils/httputils.go:87-97 | in every run, what each application reads is a prefix of what the other endpoint wrote after its handshake, and nothing is lost unless thrown away on a closed connection |
| `Tunnel.AppReadBlocks` | pkg/utils/httputils/httputils.go:95-97 | an application's read blocks exactly if neither its buffered reader nor its connection holds a byte |
| `Tunnel.OnwardUntilDelivered` | pkg/relay/relay_helper.go:37-86 | while the connections are open and the loop copies, some read, copy or handshake step is possible exactly until the application has read everything written |
| `Tunnel.Delivery` | pkg/relay/relay_helper.go:37-86 | from every such state, of which the start is one, some schedule of these steps ends with everything written read, and whatever their order, they can go on until it is |
| `Tunnel.OnwardEnds` | pkg/relay/relay_helper.go:37-86 | every schedule of such steps is bounded by a measure of what is still under way, and loses nothing |
| `Tunnel.OneEndEndsBoth` | pkg/relay/relay_helper.go:54-86 | when one loop has finished, both connections are closed, so the other can move without a failure from outside, and has a falling measure, until it too has finished |
| `Tunnel.BlockedIff` | pkg/relay/relay_helper.go:54-86 | failures aside, neither loop can move exactly if both have finished, or both connections are open and each loop waits for bytes or the end of its source, or for room on its target |
| `Tunnel.StaysShut` | pkg/relay/relay_helper.go:60-85 | over any run, closed connections stay closed and finished loops stay finished |
| `Tunnel.OtherLoopBounded` | pkg/relay/relay_helper.go:54-86 | once one loop has finished, the other takes at most seven more steps in any schedule |
| `EndToEnd.AcceptedInOrder` | pkg/tcp_endpoints/listener.go:31-43 | however much of a stream arrives and however calls are scheduled, the i-th request accepted is the i-th on the stream |
| `EndToEnd.QueueToAccept` | pkg/relay/relay.go:237-253 | accepted requests are the events attempted, in order, which are in order part of what was enqueued |
| `EndToEnd.DialToAccept` | pkg/relay/relay.go:268-289 | what `Accept` takes is byte for byte what the dial handler decoded |
| `EndToEnd.AcceptedCallsBack` | pkg/tcp_endpoints/listener.go:41 | a request taken by `Accept` is its client's and names the registration's own id, and the callback that `Accept` makes with its ids is one caused by that client's event |
| `EndToEnd.RoundTheRelay` | pkg/relay/relay.go:276-322 | where live keys are distinct, whoever is united with that callback is the client whose request was accepted, or came under the same key after it had left; without proper suffixes, under the same ids |
| `EndToEnd.FailedWriteAccepted` | pkg/relay/relay.go:245-249 | over any run in which a write has failed, with fitting events, `Accept` takes only what was written before and the request whose write failed, that one only if all its lines arrived, and exactly then unless cancelled |
| `EndToEnd.AcceptedVerdict` | pkg/relay/relay.go:245-253 | in every run, the client of an accepted request that has a verdict was told that it was passed exactly if its write did not fail |
| `Registries.ListeningServerDB.NotifyListeningServer` | pkg/relay/listening_server_db.go:72-81 | appends to exactly the queue under the id, blocks on a full one, panics on a closed one, or reports that there is none |
| `Registries.ForwardNext` | pkg/relay/relay.go:237-253 | one turn of the loop: the next request's event is written or part of it gets out, and its client hears the truth first; or it waits on an open queue, or returns on a closed one |
| `Registries.ForwardRequests` | pkg/relay/relay.go:237-253 | the turns until the queue is empty; the stream carries the events of a prefix and at most part of the next |
| `Registries.CarriesNext` | pkg/relay/relay.go:245-249 | one more write, whole or failed, extends what the stream carries accordingly |
| `Registries.StopListening` | pkg/relay/relay.go:223-232 | removes the id, closes the queue, and tells everybody still on it |
| `Registries.ConnectingClientDB.NotifyConnectingClient` | pkg/relay/connecting_client_db.go:61-73 | delivers exactly if a client is registered and has nothing pending; otherwise changes nothing |
| `Registries.ConnectingClientDB.RemoveAndDrainConnectingClient` | pkg/relay/connecting_client_db.go:77-86 | the key is gone, the mailbox is empty, and a socket left in it is closed |
| `Registries.HandleServerCallBackConnection` | pkg/relay/relay.go:348-376 | a hijacked socket ends up open in exactly the right mailbox, or closed |
| `ForwardingCalls.RegisterAlone` | pkg/relay/relay.go:220-223 | a registration's steps in a row lead its id to the new registration, whatever it led to before |
| `ForwardingCalls.NotifyAlone` | pkg/relay/listening_server_db.go:72-81 | a notifier's steps in a row enqueue its request, or leave it blocked on a full queue with the read lock, or find nobody; nothing else changes |
| `ForwardingCalls.QueueHoldsHundred` | pkg/relay/listening_server_db.go:39 | a run in which 102 clients notify a registration that nobody receives from: the first hundred wait for verdicts, the last two are blocked in their sends and share the read lock |
| `ForwardingCalls.ForwardAlone` | pkg/relay/relay.go:237-253 | a turn of the handler's loop in a row writes the event and tells the client, twice after a failed write |
| `ForwardingCalls.RemoveAlone` | pkg/relay/relay.go:224-227 | the cleanup's steps in a row take its id out of the map, whichever registration is there, and close its own queue |
| `ForwardingCalls.DrainAlone` | pkg/relay/relay.go:228-230 | its drain tells exactly the clients left on the queue, each once |
| `RendezvousCalls.EnrollAlone` | pkg/relay/connecting_client_db.go:46-50 | a client's steps in a row lead its key to it, whomever it led to before |
| `RendezvousCalls.CallBackAlone` | pkg/relay/relay.go:360-376 | a callback's steps in a row end in the mailbox of the client under its key, if that is empty, and otherwise with its socket closed |
| `RendezvousCalls.LeaveAlone` | pkg/relay/connecting_client_db.go:77-86 | a leaving client's steps in a row take its key out of the map, whomever it led to, and close the socket in its mailbox |
| `Refinement.Register` | pkg/relay/listening_server_db.go:58-62 | `AddListeningServer` takes objects that show a state of the forwarding system to objects that show the state after a registration's steps |
| `Refinement.Notify` | pkg/relay/listening_server_db.go:72-81 | `NotifyListeningServer` does so for a notifier's steps, answers as the system does, and never panics |
| `Refinement.ForwardTurn` | pkg/relay/relay.go:237-253 | `ForwardNext` does so for a turn of the handler's loop |
| `Refinement.Stop` | pkg/relay/relay.go:223-232 | `StopListening`, which calls `RemoveListeningServer`, does so for all the cleanup's steps |
| `Refinement.Enroll` | pkg/relay/connecting_client_db.go:46-50 | `AddConnectingClient` does so in the rendezvous system for a client's steps |
| `Refinement.CallBack` | pkg/relay/relay.go:360-376 | `HandleServerCallBackConnection`, which calls `NotifyConnectingClient`, does so for a whole callback, with every socket open in the objects exactly if it is not closed in the system |
| `Refinement.Leave` | pkg/relay/connecting_client_db.go:77-86 | `removeAndDrainConnectingClient`, which calls `RemoveConnectingClient`, does so for a leaving client's steps |
| `Connections.BufferedConn.Read` | pkg/relay/relay_helper.go:42-51 | bytes read ahead come first, as many as there is room for, without touching the socket, whatever has become of it; then the socket's own, and a failure or end exactly if the socket reports it |
| `Connections.Copy` | pkg/relay/relay_helper.go:63 | whenever the other goroutine closes the connections, what is sent on are the source's bytes, in order, at least those read ahead unless the target fails, and all of them exactly if no failure is reported; a failure is reported only if a read or write met one |
| `Connections.CopyThenClose` | pkg/relay/relay_helper.go:59-70 | however copying ends, both connections are closed, and a failure is reported only if a read or write met one |

## Left out

- HTTP: request parsing, CONNECT handling, status codes, headers, muxes and the mechanics of hijacking. A hijack succeeds or yields nothing, and a buffered reader may hold read-ahead bytes.
- Bodies that cannot be read or decoded, and requests without the ids a handler asks for, end their handler before it touches shared state; the transition systems start after that.
- Cryptography and TLS: sealed boxes are symbolic, certificates and the mTLS endpoints are not modelled.
- JSON values other than strings, and nesting: the decoder covers objects whose members are all strings.
- The branch of `MarshalToSSEEvent` for a failed `json.Marshal`, which cannot happen for a struct of three strings.
- Time: the callback time-out and context cancellation may happen at any moment, with no clock.
- Fairness: progress is stated as "some goroutine can move, and every move lowers a measure", which bounds every schedule once nothing new arrives. With endless arrivals a blocked goroutine may starve.
- How soon `Close` returns: a full request channel blocks the reader while nobody calls `Accept`.
- A connection whose reads answer with neither bytes nor an error, on which `bufio.Scanner` gives up after a hundred tries.
- What a server's own code does between `Accept` and its callback: a callback names any ids, and is called "caused" when it names those of an event that may have reached its server.
- The error values that `uniteConnections`, `Copy` and the handlers log, as opposed to whether there is one.
- Conformance to the WHATWG event-stream grammar: the printer spells its field `Data:`, and agreement is proved between this printer and this reader.
- Registries.ForwardRequests: returns where the source's loop would wait on an empty open queue; what happens meanwhile is the business of `Forwarding`, and every single turn of the loop is tied to it by `Refinement.ForwardTurn`.
- Interleaving inside one call of the registries' methods: they are tied to the systems' steps taken in a row with the lock free; all other interleavings are in `Forwarding` and `Rendezvous` alone.
- Listener.RelayListener.Accept: ends where the callback to the relay starts; dialing back is not part of this model.
- Generating, storing and deriving relay keys, the client dialer, options, logging and the examples: plumbing without a hard property.
