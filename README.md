# WebRTC transport for Netick — a Dafny model

This project models the negotiation and connection-management core of a WebRTC
transport for the Netick networking engine. The core has three parts.

- **Peers.** Three variants of the peer negotiation state machine:
  - the native peer (`NativeWebRTCPeer`);
  - the browser peer (`BrowserWebRTCPeer`), whose engine state lives on the JavaScript side;
  - the older peer (`WebRTCPeer`).

  Each peer plays a fixed role, client or server. It holds one slot per pending
  asynchronous engine operation. The client slots are create-offer,
  set-local-offer and set-remote-answer. The server slots are set-remote-offer,
  create-answer and set-local-answer. A "sent" flag or an ICE trickle timer
  decides when the local description goes out through the signalling relay.
  Client peers of the native and browser variants also carry a connection
  timeout.
- **The connection manager** (`WebRTCNetManager`). It owns older peers and
  keeps a candidate list and an active list. Each tick it polls the candidates
  in reverse index order, announces every candidate whose channel is open and
  drops it from the candidate list. On a client it promotes the single
  outbound candidate to the server connection.
- **Two transports**, each a `WebRTCTransport`: the embedded one and the older
  one that drives the manager above. Each keeps a queue of free connection
  objects and a dictionary from peer to connection. The embedded transport
  also maps the manager's disconnect reasons to the engine's.

Every peer is modelled twice:

- as a value, a `State` datatype with one step function per operation and a
  `Run` over a sequence of inputs. Lemmas state the properties over runs.
- as a class with the source's fields. Each method is proved to move its
  `Snapshot()` exactly as the step function does.

The engine is opaque. Each poll receives an `Engine` record. It says which
pending operations report done, what they produced, the gathering state and the
local description. Engine and relay callbacks are methods the environment calls
between polls. A callback reaches a peer only when the source subscribed its
handler. Time is an integer tick, and a timer is `NoTimer` or `Deadline(tick)`.
A null dereference the source can reach is an explicit `Failed(cause)` outcome.
That outcome keeps the partial effects that happened before the throw.

The main results are these.

- The native and browser peers send their local description at most once in
  any run (`NativePeer.SendsAtMostOnce`, `BrowserPeer.SendsAtMostOnce`).
- The older peer sends at most once per arming of its trickle timer
  (`LegacyPeer.SendsPerArming`).
- A started browser server never sends. The browser peer does not support
  attaching a relay server, so its answer path always dereferences a null
  server (`BrowserPeer.StartedPeerSends`).
- The native timeout branch runs at most once per `Connect`
  (`NativePeer.TimeoutAtMostOncePerConnect`), and `isTimedOut` never goes back
  to false (`NativePeer.TimedOutStays`).
- The browser timeout is raised at most once per `Connect`
  (`BrowserPeer.TimeoutsAtMostOncePerConnect`).
- A native client whose timeout expires before the relay connects has no peer
  connection yet. `CloseConnection` then throws before `isTimedOut` is set. The
  timer is already cleared, so the peer is never marked timed out
  (`NativePeer.EarlyTimeoutIsLost`).
- From the manager's initial state, every peer is announced to the listener
  at most once, and an announced peer is no longer a candidate
  (`NetManager.AnnouncedAtMostOnce`).
- In both transports every connection Init created is free, bound to exactly
  the peer that keys it, or lost, never two of these at once. The three counts
  sum to `MaxPlayers` (`PoolOk`, kept by every callback).

## Model

| member | source | states |
|---|---|---|
| `Common.StartTimer` | Runtime/Core/Native/NativeWebRTCPeer.cs:121 | a timer started at `now` for `d >= 0` ticks is unexpired before `now + d` and expired from `now + d` on |
| `Common.CloseChannel` | Runtime/Core/Native/NativeWebRTCPeer.cs:135-139 | closing keeps a missing channel missing and makes an existing one not open |
| `Common.OpenChannel` | Runtime/Core/Native/NativeWebRTCPeer.cs:335-341 | the channel whose open handler ran is open |
| `NativePeer.StartStep` | Runtime/Core/Native/NativeWebRTCPeer.cs:93-110 | a started peer keeps the invariant, has sent nothing and has no pending operation; it has a peer connection exactly as a server and a relay client exactly as a client |
| `NativePeer.CloseConnectionStep` | Runtime/Core/Native/NativeWebRTCPeer.cs:135-139 | closing changes only the peer connection, the data channel and the event log |
| `NativePeer.CreateOfferOp` | Runtime/Core/Native/NativeWebRTCPeer.cs:264-277 | polling create-offer touches only the create-offer and set-local-offer slots |
| `NativePeer.SetLocalOfferOp` | Runtime/Core/Native/NativeWebRTCPeer.cs:237-250 | polling set-local-offer touches only its own slot |
| `NativePeer.SetRemoteAnswerOp` | Runtime/Core/Native/NativeWebRTCPeer.cs:252-262 | polling set-remote-answer touches only its own slot |
| `NativePeer.SetRemoteOfferOp` | Runtime/Core/Native/NativeWebRTCPeer.cs:223-235 | polling set-remote-offer touches only the set-remote-offer and create-answer slots |
| `NativePeer.CreateAnswerOp` | Runtime/Core/Native/NativeWebRTCPeer.cs:207-221 | polling create-answer touches only the create-answer and set-local-answer slots |
| `NativePeer.SetLocalAnswerOp` | Runtime/Core/Native/NativeWebRTCPeer.cs:195-205 | polling set-local-answer touches only its own slot |
| `NativePeer.ClientOps` | Runtime/Core/Native/NativeWebRTCPeer.cs:177-180 | the client chain leaves every server slot unchanged |
| `NativePeer.ServerOps` | Runtime/Core/Native/NativeWebRTCPeer.cs:185-188 | the server chain leaves every client slot unchanged |
| `NativePeer.IceCandidateStep` | Runtime/Core/Native/NativeWebRTCPeer.cs:370-396 | the ICE poll keeps the invariant and changes only the trickle timer, the sent flag, the answer subscription and the event log |
| `NativePeer.SlotsStep` | Runtime/Core/Native/NativeWebRTCPeer.cs:175-189 | the relay and slot polls keep the invariant and change only the slots, the trickle timer and the event log |
| `NativePeer.PollStep` | Runtime/Core/Native/NativeWebRTCPeer.cs:161-193 | a tick keeps the peer's invariant |
| `NativePeer.Step` | Runtime/Core/Native/NativeWebRTCPeer.cs:112-416 | every operation and callback keeps the peer's invariant |
| `NativePeer.Run` | Runtime/Core/Native/NativeWebRTCPeer.cs:112-416 | any sequence of operations and callbacks keeps the peer's invariant |
| `NativePeer.TimeoutTick` | Runtime/Core/Native/NativeWebRTCPeer.cs:163-173 | an expired client timeout clears the timer and polls nothing else; with a peer connection it closes it (and the channel) and sets `isTimedOut`; without one the close throws, leaving only the cleared timer |
| `NativePeer.TickOps` | Runtime/Core/Native/NativeWebRTCPeer.cs:175-189 | a tick without timeout runs the client chain on a client and the server chain on a server |
| `NativePeer.ModeIsolation` | Runtime/Core/Native/NativeWebRTCPeer.cs:161-193 | a client tick leaves the server slots as they were; a server tick leaves the client slots, the timeout timer, `isTimedOut` and the relay unpolled |
| `NativePeer.ClientChain` | Runtime/Core/Native/NativeWebRTCPeer.cs:237-277 | create-offer stays pending exactly while it is not done; a completed create-offer fills set-local-offer with its result, and only it does; set-local-offer and set-remote-answer are cleared when done and kept while not (the legacy peer runs the same chain) |
| `NativePeer.ServerChain` | Runtime/Core/Native/NativeWebRTCPeer.cs:195-235 | set-remote-offer is cleared when done and kept while not; create-answer is pending exactly when it was, or set-remote-offer completed, and it is not yet done; a completed create-answer fills set-local-answer with its result, and only it does; set-local-answer is cleared when done and kept while not (the legacy peer runs the same chain) |
| `NativePeer.TrickleArming` | Runtime/Core/Native/NativeWebRTCPeer.cs:237-250 | the trickle timer changes only on a client with manual trickling, at the moment set-local-offer completes, and is then started for the configured duration |
| `NativePeer.IceSend` | Runtime/Core/Native/NativeWebRTCPeer.cs:370-396 | when a send is due (not yet sent, a peer connection, gathering complete or trickle window expired) the flag is set, the timer cleared and a client sends its offer, a server its answer to the stored connection id, or the send throws without a relay server; otherwise nothing changes |
| `NativePeer.WindowExpirySends` | Runtime/Core/Native/NativeWebRTCPeer.cs:376-387 | a client that is not timing out on this tick, has sent nothing yet, has a peer connection and has neither create-offer nor set-local-offer pending (so nothing re-arms the window) sends its offer, without fault, on any tick at or after the trickle deadline, whatever the gathering state |
| `NativePeer.TimeoutCancelled` | Runtime/Core/Native/NativeWebRTCPeer.cs:335-341 | the channel opening, and ICE reporting Connected, clear the timeout timer; the opened channel records the endpoint and the connection is open |
| `NativePeer.OnlyConnectArmsTimeout` | Runtime/Core/Native/NativeWebRTCPeer.cs:112-122 | no input other than `Connect` sets the timeout timer: every other input keeps it or clears it |
| `NativePeer.StepTimedOut` | Runtime/Core/Native/NativeWebRTCPeer.cs:165-171 | `isTimedOut` never goes from true to false, and changes only on a tick whose timeout expires |
| `NativePeer.TimedOutStays` | Runtime/Core/Native/NativeWebRTCPeer.cs:165-171 | a timed-out peer stays timed out through any run |
| `NativePeer.TimeoutAtMostOncePerConnect` | Runtime/Core/Native/NativeWebRTCPeer.cs:121 | in a run without `Connect` the timeout branch is taken at most once, and never when the timer is not armed |
| `NativePeer.TimeoutTickKeepsSendBudget` | Runtime/Core/Native/NativeWebRTCPeer.cs:163-173 | a timeout tick sends nothing and keeps the sent flag |
| `NativePeer.IceTickKeepsSendBudget` | Runtime/Core/Native/NativeWebRTCPeer.cs:370-396 | an ordinary tick sends only if nothing was sent before, and the sent flag stays set once set |
| `NativePeer.SilentStep` | Runtime/Core/Native/NativeWebRTCPeer.cs:279-363 | relay and engine callbacks append nothing to the log and keep the sent flag |
| `NativePeer.ConnectSendsNothing` | Runtime/Core/Native/NativeWebRTCPeer.cs:112-122 | `Connect` sends no description |
| `NativePeer.CloseSendsNothing` | Runtime/Core/Native/NativeWebRTCPeer.cs:135-139 | `CloseConnection` sends no description |
| `NativePeer.ChannelCloseSendsNothing` | Runtime/Core/Native/NativeWebRTCPeer.cs:343-346 | the channel-close callback sends no description |
| `NativePeer.MessageSendsNothing` | Runtime/Core/Native/NativeWebRTCPeer.cs:360-363 | a received message sends no description |
| `NativePeer.SendSendsNothing` | Runtime/Core/Native/NativeWebRTCPeer.cs:365-368 | sending data sends no description |
| `NativePeer.OtherStepKeepsSendBudget` | Runtime/Core/Native/NativeWebRTCPeer.cs:112-416 | no input but a tick sends a description or changes the sent flag |
| `NativePeer.StepKeepsSendBudget` | Runtime/Core/Native/NativeWebRTCPeer.cs:372-380 | every input keeps "at most one send, and only with the flag set", and the flag is never cleared |
| `NativePeer.SendsAtMostOnce` | Runtime/Core/Native/NativeWebRTCPeer.cs:372-380 | in any run from a state within the budget, at most one offer or answer is sent |
| `NativePeer.StartedPeerSendsAtMostOnce` | Runtime/Core/Native/NativeWebRTCPeer.cs:98-110 | a started peer sends its local description at most once in any run |
| `NativePeer.EarlyTimeoutIsLost` | Runtime/Core/Native/NativeWebRTCPeer.cs:163-173 | a client that times out before the relay connects: the tick throws in the close, `isTimedOut` stays false and, with no further `Connect`, stays false for ever |
| `NativePeer.OnlyTimeoutTicksSetTimedOut` | Runtime/Core/Native/NativeWebRTCPeer.cs:165-171 | a run that never takes the timeout branch leaves `isTimedOut` as it was |
| `NativePeer.NativeWebRTCPeer.constructor` | Runtime/Core/Native/NativeWebRTCPeer.cs:93-110 | a new peer configured and started is in `StartStep`'s state |
| `NativePeer.NativeWebRTCPeer.Connect` | Runtime/Core/Native/NativeWebRTCPeer.cs:112-122 | subscribes and connects the relay client and arms the timeout; a server has no relay client and throws |
| `NativePeer.NativeWebRTCPeer.SetConnectionId` | Runtime/Core/Native/NativeWebRTCPeer.cs:124-127 | stores the relay connection id |
| `NativePeer.NativeWebRTCPeer.SetSignalingServer` | Runtime/Core/Native/NativeWebRTCPeer.cs:129-132 | attaches the relay server |
| `NativePeer.NativeWebRTCPeer.CloseConnection` | Runtime/Core/Native/NativeWebRTCPeer.cs:135-139 | moves the peer as `CloseConnectionStep`, throwing on a missing peer connection |
| `NativePeer.NativeWebRTCPeer.PollUpdate` | Runtime/Core/Native/NativeWebRTCPeer.cs:161-193 | one tick, exactly as `PollStep` |
| `NativePeer.NativeWebRTCPeer.PollTimeout` | Runtime/Core/Native/NativeWebRTCPeer.cs:165-173 | the timeout branch of a tick, exactly as `PollStep` |
| `NativePeer.NativeWebRTCPeer.PollSlots` | Runtime/Core/Native/NativeWebRTCPeer.cs:175-189 | the relay and slot polls, exactly as `SlotsStep` |
| `NativePeer.NativeWebRTCPeer.PollOpSetLocalAnswer` | Runtime/Core/Native/NativeWebRTCPeer.cs:195-205 | the slots move as `SetLocalAnswerOp` |
| `NativePeer.NativeWebRTCPeer.PollOpCreateAnswer` | Runtime/Core/Native/NativeWebRTCPeer.cs:207-221 | the slots move as `CreateAnswerOp` |
| `NativePeer.NativeWebRTCPeer.PollOpSetRemoteOffer` | Runtime/Core/Native/NativeWebRTCPeer.cs:223-235 | the slots move as `SetRemoteOfferOp` |
| `NativePeer.NativeWebRTCPeer.PollOpSetLocalOffer` | Runtime/Core/Native/NativeWebRTCPeer.cs:237-250 | the slots move as `SetLocalOfferOp`, and the trickle timer is armed on completion with manual trickling |
| `NativePeer.NativeWebRTCPeer.PollOpSetRemoteAnswer` | Runtime/Core/Native/NativeWebRTCPeer.cs:252-262 | the slots move as `SetRemoteAnswerOp` |
| `NativePeer.NativeWebRTCPeer.PollOpCreateOffer` | Runtime/Core/Native/NativeWebRTCPeer.cs:264-277 | the slots move as `CreateOfferOp` |
| `NativePeer.NativeWebRTCPeer.OnClientConnectedToSignalingServer` | Runtime/Core/Native/NativeWebRTCPeer.cs:279-293 | builds the peer connection and the local data channel and starts create-offer |
| `NativePeer.NativeWebRTCPeer.OnReceivedOfferFromClient` | Runtime/Core/Native/NativeWebRTCPeer.cs:295-302 | fills set-remote-offer, throwing on a missing peer connection |
| `NativePeer.NativeWebRTCPeer.OnServerAnswered` | Runtime/Core/Native/NativeWebRTCPeer.cs:311-317 | stores the routing id and fills set-remote-answer |
| `NativePeer.NativeWebRTCPeer.OnChannelOpen` | Runtime/Core/Native/NativeWebRTCPeer.cs:335-341 | on the local channel: the channel is open, the endpoint recorded and the timeout timer cleared |
| `NativePeer.NativeWebRTCPeer.OnChannelClose` | Runtime/Core/Native/NativeWebRTCPeer.cs:343-346 | the channel is closed and the connection-closed event is raised |
| `NativePeer.NativeWebRTCPeer.OnDataChannel` | Runtime/Core/Native/NativeWebRTCPeer.cs:348-357 | adopts the remote channel and records the endpoint |
| `NativePeer.NativeWebRTCPeer.OnIceConnectionChange` | Runtime/Core/Native/NativeWebRTCPeer.cs:408-416 | `Connected` clears the timeout timer; other states change nothing |
| `NativePeer.NativeWebRTCPeer.OnMessage` | Runtime/Core/Native/NativeWebRTCPeer.cs:360-363 | a message is raised to the peer's listeners |
| `NativePeer.NativeWebRTCPeer.Send` | Runtime/Core/Native/NativeWebRTCPeer.cs:365-368 | data goes out on the channel, throwing on a missing channel |
| `NativePeer.NativeWebRTCPeer.PollIceCandidate` | Runtime/Core/Native/NativeWebRTCPeer.cs:370-396 | the ICE poll, exactly as `IceCandidateStep` |
| `BrowserPeer.StartStep` | Runtime/Core/Browser/BrowserWebRTCPeer.cs:38-52 | a started peer keeps the invariant, has sent nothing and has no pending operation; the JavaScript peer connection exists exactly for a server |
| `BrowserPeer.CreateOfferOp` | Runtime/Core/Browser/BrowserWebRTCPeer.cs:220-233 | polling create-offer touches only the create-offer and shared set-local slots |
| `BrowserPeer.SetLocalOfferOp` | Runtime/Core/Browser/BrowserWebRTCPeer.cs:196-206 | polling set-local-offer touches only the shared set-local slot |
| `BrowserPeer.SetRemoteAnswerOp` | Runtime/Core/Browser/BrowserWebRTCPeer.cs:208-218 | polling set-remote-answer touches only the shared set-remote slot |
| `BrowserPeer.SetRemoteOfferOp` | Runtime/Core/Browser/BrowserWebRTCPeer.cs:182-194 | polling set-remote-offer touches only the create-answer and shared set-remote slots |
| `BrowserPeer.CreateAnswerOp` | Runtime/Core/Browser/BrowserWebRTCPeer.cs:166-180 | polling create-answer touches only the create-answer and shared set-local slots |
| `BrowserPeer.SetLocalAnswerOp` | Runtime/Core/Browser/BrowserWebRTCPeer.cs:149-159 | polling set-local-answer touches only the shared set-local slot |
| `BrowserPeer.ClientOps` | Runtime/Core/Browser/BrowserWebRTCPeer.cs:132-134 | the client chain never touches create-answer |
| `BrowserPeer.ServerOps` | Runtime/Core/Browser/BrowserWebRTCPeer.cs:140-142 | the server chain never touches create-offer |
| `BrowserPeer.IceCandidateStep` | Runtime/Core/Browser/BrowserWebRTCPeer.cs:235-258 | the ICE poll changes only the sent flag, the answer subscription and the event log |
| `BrowserPeer.SlotsStep` | Runtime/Core/Browser/BrowserWebRTCPeer.cs:129-143 | the relay and slot polls change only the slots and the event log |
| `BrowserPeer.Run` | Runtime/Core/Browser/BrowserWebRTCPeer.cs:38-52 | the state after a run (bookkeeping for the run lemmas): a run never changes the peer's role |
| `BrowserPeer.CountConnects` | Runtime/Core/Browser/BrowserWebRTCPeer.cs:287-295 | the count used by `TimeoutsAtMostOncePerConnect` (bookkeeping): no more `Connect` calls than inputs |
| `BrowserPeer.StepKeepsInv` | Runtime/Core/Browser/BrowserWebRTCPeer.cs:117-147 | every operation and callback keeps the peer's invariant |
| `BrowserPeer.RunKeepsInv` | Runtime/Core/Browser/BrowserWebRTCPeer.cs:117-147 | any run keeps the peer's invariant |
| `BrowserPeer.TimeoutTick` | Runtime/Core/Browser/BrowserWebRTCPeer.cs:119-127 | an expired client timeout clears the timer, sets `isTimedOut` and raises the timeout event, and nothing else happens on that tick; the timeout is not expired afterwards |
| `BrowserPeer.ServerPollIgnoresTimer` | Runtime/Core/Browser/BrowserWebRTCPeer.cs:137-146 | a server tick behaves the same whatever the timeout timer and the clock say, and leaves the timer and `isTimedOut` as they were |
| `BrowserPeer.SharedSlots` | Runtime/Core/Browser/BrowserWebRTCPeer.cs:149-218 | set-local-offer and set-local-answer poll the same slot with the same effect; both remote polls clear the same slot |
| `BrowserPeer.ClientChain` | Runtime/Core/Browser/BrowserWebRTCPeer.cs:196-233 | create-offer stays pending exactly while not done; its result becomes the pending local description; the shared set-local and set-remote slots are cleared when done and otherwise kept as they were; create-answer is untouched |
| `BrowserPeer.ServerChain` | Runtime/Core/Browser/BrowserWebRTCPeer.cs:149-194 | create-answer is pending exactly when it was, or set-remote completed, and it is not yet done; its result becomes the pending local description, and only it changes that slot; set-local is cleared when done and otherwise kept; set-remote is cleared exactly when done; create-offer is untouched |
| `BrowserPeer.IceSend` | Runtime/Core/Browser/BrowserWebRTCPeer.cs:235-258 | when a send is due (connection created, not sent, gathering complete) a client sends its offer and subscribes to the answer, and a server sets the flag and throws on the null relay server; otherwise nothing changes |
| `BrowserPeer.TickKeepsSendBudget` | Runtime/Core/Browser/BrowserWebRTCPeer.cs:117-147 | a tick sends only if nothing was sent, keeps the sent flag once set and keeps the role |
| `BrowserPeer.SilentStep` | Runtime/Core/Browser/BrowserWebRTCPeer.cs:89-115 | engine and relay callbacks append nothing to the log and keep the timeout timer, the role and the sent flag |
| `BrowserPeer.ConnectCounts` | Runtime/Core/Browser/BrowserWebRTCPeer.cs:287-295 | `Connect` sends nothing and raises no timeout |
| `BrowserPeer.MessageCounts` | Runtime/Core/Browser/BrowserWebRTCPeer.cs:111-115 | a received message sends nothing and raises no timeout |
| `BrowserPeer.SendCounts` | Runtime/Core/Browser/BrowserWebRTCPeer.cs:324-327 | sending data sends no description and raises no timeout |
| `BrowserPeer.CloseCounts` | Runtime/Core/Browser/BrowserWebRTCPeer.cs:329-332 | closing sends nothing and raises no timeout |
| `BrowserPeer.OtherStepKeepsSendBudget` | Runtime/Core/Browser/BrowserWebRTCPeer.cs:272-347 | no input but a tick sends, changes the sent flag or changes the role |
| `BrowserPeer.SendsAtMostOnce` | Runtime/Core/Browser/BrowserWebRTCPeer.cs:239-243 | in any run from a state within the budget, at most one description is sent |
| `BrowserPeer.StartedPeerSends` | Runtime/Core/Browser/BrowserWebRTCPeer.cs:245-263 | a started client sends at most once; a started server never sends |
| `BrowserPeer.TimerChanges` | Runtime/Core/Browser/BrowserWebRTCPeer.cs:121-123 | the timeout timer changes only when it expires on a tick (it is cleared) or on a client's `Connect` (it is started) |
| `BrowserPeer.TimeoutTickPotential` | Runtime/Core/Browser/BrowserWebRTCPeer.cs:119-127 | a timeout tick moves one pending timeout into the raised count |
| `BrowserPeer.IceTickPotential` | Runtime/Core/Browser/BrowserWebRTCPeer.cs:129-146 | an ordinary tick neither raises nor arms a timeout |
| `BrowserPeer.StepTimeoutPotential` | Runtime/Core/Browser/BrowserWebRTCPeer.cs:287-295 | only `Connect` adds a possible timeout, and at most one |
| `BrowserPeer.RunTimeoutPotential` | Runtime/Core/Browser/BrowserWebRTCPeer.cs:287-295 | along a run, raised plus pending timeouts grow at most by the number of `Connect` calls |
| `BrowserPeer.TimeoutsAtMostOncePerConnect` | Runtime/Core/Browser/BrowserWebRTCPeer.cs:119-127 | a started peer raises at most as many timeouts as it receives `Connect` calls |
| `BrowserPeer.UnsupportedCallsChangeNothing` | Runtime/Core/Browser/BrowserWebRTCPeer.cs:334-342 | attaching a relay server and receiving an offer change nothing |
| `BrowserPeer.BrowserWebRTCPeer.constructor` | Runtime/Core/Browser/BrowserWebRTCPeer.cs:38-52 | a new peer configured and started is in `StartStep`'s state |
| `BrowserPeer.BrowserWebRTCPeer.Connect` | Runtime/Core/Browser/BrowserWebRTCPeer.cs:287-295 | subscribes and connects the relay client and arms the timeout, throwing without a relay client |
| `BrowserPeer.BrowserWebRTCPeer.SetConnectionId` | Runtime/Core/Browser/BrowserWebRTCPeer.cs:344-347 | stores the relay connection id |
| `BrowserPeer.BrowserWebRTCPeer.SetSignalingServer` | Runtime/Core/Browser/BrowserWebRTCPeer.cs:334-337 | changes nothing |
| `BrowserPeer.BrowserWebRTCPeer.OnReceivedOfferFromClient` | Runtime/Core/Browser/BrowserWebRTCPeer.cs:339-342 | changes nothing |
| `BrowserPeer.BrowserWebRTCPeer.CloseConnection` | Runtime/Core/Browser/BrowserWebRTCPeer.cs:329-332 | asks the JavaScript side to close |
| `BrowserPeer.BrowserWebRTCPeer.Send` | Runtime/Core/Browser/BrowserWebRTCPeer.cs:324-327 | hands the data to the JavaScript side |
| `BrowserPeer.BrowserWebRTCPeer.PollUpdate` | Runtime/Core/Browser/BrowserWebRTCPeer.cs:117-147 | one tick, exactly as `PollStep` |
| `BrowserPeer.BrowserWebRTCPeer.PollOpSetLocalAnswer` | Runtime/Core/Browser/BrowserWebRTCPeer.cs:149-159 | the slots move as `SetLocalAnswerOp` |
| `BrowserPeer.BrowserWebRTCPeer.PollOpCreateAnswer` | Runtime/Core/Browser/BrowserWebRTCPeer.cs:166-180 | the slots move as `CreateAnswerOp` |
| `BrowserPeer.BrowserWebRTCPeer.PollOpSetRemoteOffer` | Runtime/Core/Browser/BrowserWebRTCPeer.cs:182-194 | the slots move as `SetRemoteOfferOp` |
| `BrowserPeer.BrowserWebRTCPeer.PollOpSetLocalOffer` | Runtime/Core/Browser/BrowserWebRTCPeer.cs:196-206 | the slots move as `SetLocalOfferOp` |
| `BrowserPeer.BrowserWebRTCPeer.PollOpSetRemoteAnswer` | Runtime/Core/Browser/BrowserWebRTCPeer.cs:208-218 | the slots move as `SetRemoteAnswerOp` |
| `BrowserPeer.BrowserWebRTCPeer.PollOpCreateOffer` | Runtime/Core/Browser/BrowserWebRTCPeer.cs:220-233 | the slots move as `CreateOfferOp` |
| `BrowserPeer.BrowserWebRTCPeer.PollIceCandidate` | Runtime/Core/Browser/BrowserWebRTCPeer.cs:235-258 | the ICE poll, exactly as `IceCandidateStep` |
| `BrowserPeer.BrowserWebRTCPeer.OnConnectedToServer` | Runtime/Core/Browser/BrowserWebRTCPeer.cs:297-305 | creates the peer connection and data channel and starts create-offer |
| `BrowserPeer.BrowserWebRTCPeer.OnServerAnswered` | Runtime/Core/Browser/BrowserWebRTCPeer.cs:272-279 | stores the routing id and starts set-remote with the answer |
| `BrowserPeer.BrowserWebRTCPeer.OnChannelOpen` | Runtime/Core/Browser/BrowserWebRTCPeer.cs:89-97 | records the endpoint |
| `BrowserPeer.BrowserWebRTCPeer.OnDataChannel` | Runtime/Core/Browser/BrowserWebRTCPeer.cs:99-109 | records the endpoint |
| `BrowserPeer.BrowserWebRTCPeer.OnMessage` | Runtime/Core/Browser/BrowserWebRTCPeer.cs:111-115 | a message is raised to the peer's listeners |
| `LegacyPeer.StartStep` | Runtime/Core/WebRTCPeer.cs:40-55 | a started peer keeps the invariant, has sent nothing, has no pending operation, no channel, no trickle timer and is not open; it has an open peer connection exactly as a server |
| `LegacyPeer.CloseConnectionStep` | Runtime/Core/WebRTCPeer.cs:78-83 | closing changes only the peer connection, the data channel and the event log |
| `LegacyPeer.SlotsStep` | Runtime/Core/WebRTCPeer.cs:112-128 | the relay and slot polls change only the slots, the trickle timer and the event log |
| `LegacyPeer.IceCandidateStep` | Runtime/Core/WebRTCPeer.cs:300-319 | the ICE poll changes only the trickle timer, the answer subscription and the event log |
| `LegacyPeer.Armings` | Runtime/Core/WebRTCPeer.cs:142-183 | the count used by `SendsPerArming` (bookkeeping): at most one arming of the trickle timer per input |
| `LegacyPeer.SlotsKeepInv` | Runtime/Core/WebRTCPeer.cs:112-128 | the slot polls keep the peer's invariant |
| `LegacyPeer.StepKeepsInv` | Runtime/Core/WebRTCPeer.cs:46-319 | every operation and callback keeps the peer's invariant |
| `LegacyPeer.RunKeepsInv` | Runtime/Core/WebRTCPeer.cs:46-319 | any run keeps the peer's invariant |
| `LegacyPeer.PollTouchesOwnSlots` | Runtime/Core/WebRTCPeer.cs:110-132 | a client tick polls the relay and runs the client chain, leaving the server slots; a server tick runs the server chain, leaving the client slots |
| `LegacyPeer.TrickleArming` | Runtime/Core/WebRTCPeer.cs:134-188 | the trickle timer changes only when set-local-offer or set-local-answer completes, and is then started for the configured duration |
| `LegacyPeer.IceSendsOnExpiry` | Runtime/Core/WebRTCPeer.cs:300-319 | nothing happens until the trickle timer expires; on expiry the timer is cleared and a client sends its offer, a server its answer to the stored id, or the send throws without a relay server |
| `LegacyPeer.PollIgnoresGathering` | Runtime/Core/WebRTCPeer.cs:300-319 | a tick does the same whatever the gathering state |
| `LegacyPeer.SlotsIgnoreGathering` | Runtime/Core/WebRTCPeer.cs:134-215 | the op chain does the same whatever the gathering state |
| `LegacyPeer.RemoteDescriptionSlots` | Runtime/Core/WebRTCPeer.cs:229-251 | an offer fills set-remote-offer (throwing without a peer connection); a subscribed answer stores the routing id and fills set-remote-answer; an unsubscribed one changes nothing |
| `LegacyPeer.CloseSequence` | Runtime/Core/WebRTCPeer.cs:78-83 | closing closes the peer connection, the channel and the relay server in that order, and the peer is no longer open |
| `LegacyPeer.ChannelOpenClose` | Runtime/Core/WebRTCPeer.cs:269-277 | on the local channel, open records the endpoint and makes the connection open, close makes it not open; without a local channel neither changes anything |
| `LegacyPeer.SlotsPotential` | Runtime/Core/WebRTCPeer.cs:134-188 | the slot polls add at most one armed send, and only when they arm the timer |
| `LegacyPeer.IcePotential` | Runtime/Core/WebRTCPeer.cs:300-319 | the ICE poll never sends more than was armed |
| `LegacyPeer.SilentStep` | Runtime/Core/WebRTCPeer.cs:217-287 | relay and engine callbacks append nothing to the log and keep the trickle timer |
| `LegacyPeer.ConnectSendsNothing` | Runtime/Core/WebRTCPeer.cs:57-65 | `Connect` sends no description |
| `LegacyPeer.MessageSendsNothing` | Runtime/Core/WebRTCPeer.cs:290-293 | a received message sends no description |
| `LegacyPeer.SendSendsNothing` | Runtime/Core/WebRTCPeer.cs:295-298 | sending data sends no description |
| `LegacyPeer.CloseSendsNothing` | Runtime/Core/WebRTCPeer.cs:78-83 | closing sends no description |
| `LegacyPeer.StepPotential` | Runtime/Core/WebRTCPeer.cs:110-132 | only a tick that arms the timer adds a possible send, and at most one |
| `LegacyPeer.RunPotential` | Runtime/Core/WebRTCPeer.cs:300-319 | along a run, sends plus armed timers grow at most by the number of armings |
| `LegacyPeer.SendsPerArming` | Runtime/Core/WebRTCPeer.cs:300-319 | a started peer sends at most once per arming of its trickle timer |
| `LegacyPeer.WebRTCPeer.constructor` | Runtime/Core/WebRTCPeer.cs:40-55 | a new peer configured and started is in `StartStep`'s state |
| `LegacyPeer.WebRTCPeer.Connect` | Runtime/Core/WebRTCPeer.cs:57-65 | subscribes and connects the relay client |
| `LegacyPeer.WebRTCPeer.SetConnectionId` | Runtime/Core/WebRTCPeer.cs:67-70 | stores the relay connection id |
| `LegacyPeer.WebRTCPeer.SetSignalingServer` | Runtime/Core/WebRTCPeer.cs:72-75 | attaches the relay server |
| `LegacyPeer.WebRTCPeer.CloseConnection` | Runtime/Core/WebRTCPeer.cs:78-83 | moves the peer as `CloseConnectionStep`, throwing at the first missing object |
| `LegacyPeer.WebRTCPeer.TriggerUpdate` | Runtime/Core/WebRTCPeer.cs:95-98 | one tick, exactly as `PollStep` |
| `LegacyPeer.WebRTCPeer.PollUpdate` | Runtime/Core/WebRTCPeer.cs:110-132 | one tick, exactly as `PollStep` |
| `LegacyPeer.WebRTCPeer.PollOpSetLocalAnswer` | Runtime/Core/WebRTCPeer.cs:134-145 | the slots move as the shared set-local-answer step and the trickle timer is armed on completion |
| `LegacyPeer.WebRTCPeer.PollOpCreateAnswer` | Runtime/Core/WebRTCPeer.cs:147-161 | the slots move as the shared create-answer step |
| `LegacyPeer.WebRTCPeer.PollOpSetRemoteOffer` | Runtime/Core/WebRTCPeer.cs:163-175 | the slots move as the shared set-remote-offer step |
| `LegacyPeer.WebRTCPeer.PollOpSetLocalOffer` | Runtime/Core/WebRTCPeer.cs:177-188 | the slots move as the shared set-local-offer step and the trickle timer is armed on completion |
| `LegacyPeer.WebRTCPeer.PollOpSetRemoteAnswer` | Runtime/Core/WebRTCPeer.cs:190-200 | the slots move as the shared set-remote-answer step |
| `LegacyPeer.WebRTCPeer.PollOpCreateOffer` | Runtime/Core/WebRTCPeer.cs:202-215 | the slots move as the shared create-offer step |
| `LegacyPeer.WebRTCPeer.PollIceCandidate` | Runtime/Core/WebRTCPeer.cs:300-319 | the ICE poll, exactly as `IceCandidateStep` |
| `LegacyPeer.WebRTCPeer.OnClientConnectedToSignalingServer` | Runtime/Core/WebRTCPeer.cs:217-227 | builds the peer connection and the local channel and starts create-offer |
| `LegacyPeer.WebRTCPeer.OnClientOffered` | Runtime/Core/WebRTCPeer.cs:229-236 | fills set-remote-offer, throwing without a peer connection |
| `LegacyPeer.WebRTCPeer.OnServerAnswered` | Runtime/Core/WebRTCPeer.cs:245-251 | stores the routing id and fills set-remote-answer |
| `LegacyPeer.WebRTCPeer.OnChannelOpen` | Runtime/Core/WebRTCPeer.cs:269-274 | on the local channel: the channel is open and the endpoint recorded |
| `LegacyPeer.WebRTCPeer.OnChannelClose` | Runtime/Core/WebRTCPeer.cs:275-277 | the engine reports the local channel closed; the handler itself changes nothing else |
| `LegacyPeer.WebRTCPeer.OnDataChannel` | Runtime/Core/WebRTCPeer.cs:279-287 | adopts the remote channel and records the endpoint |
| `LegacyPeer.WebRTCPeer.OnMessage` | Runtime/Core/WebRTCPeer.cs:290-293 | a message is raised to the peer's message handlers |
| `LegacyPeer.WebRTCPeer.Send` | Runtime/Core/WebRTCPeer.cs:295-298 | data goes out on the channel, throwing without one |
| `NetManager.InitStep` | Runtime/Core/WebRTCNetManager.cs:39-43 | an initialised manager keeps its invariant, holds each peer at most once, has empty lists and is not running |
| `NetManager.Port16` | Runtime/Core/WebRTCNetManager.cs:60 | the port handed to the relay is the argument truncated to 16 bits: in range, equal to it when it fits, and congruent to it modulo 65536 |
| `NetManager.PollPeer` | Runtime/Core/WebRTCNetManager.cs:114 | polling a managed peer replaces its state by the poll's result and returns the poll's outcome; every other peer, the key set and the rest of the manager are unchanged; an unknown peer changes nothing |
| `NetManager.Sweep` | Runtime/Core/WebRTCNetManager.cs:110-121 | the candidate loop changes only peer states, the candidate list and the event log |
| `NetManager.SweepKeepsUnvisited` | Runtime/Core/WebRTCNetManager.cs:110-121 | the candidates the reverse loop has not reached yet stay in place at the end of the list |
| `NetManager.ClientPromotion` | Runtime/Core/WebRTCNetManager.cs:128-145 | the client branch keeps the configuration, the candidate list and the set of peers |
| `NetManager.PollBeforeStartIsNoOp` | Runtime/Core/WebRTCNetManager.cs:106-108 | a tick before `Start` does nothing |
| `NetManager.StartRuns` | Runtime/Core/WebRTCNetManager.cs:51-64 | `Start` sets the run mode and the running flag; a server subscribes to offers and starts the relay on the port truncated to 16 bits; a client does neither; the lists are unchanged |
| `NetManager.StopLeavesLists` | Runtime/Core/WebRTCNetManager.cs:76-80 | `Stop` changes only the log, and stops the relay only when one exists |
| `NetManager.ConnectReplacesCandidate` | Runtime/Core/WebRTCNetManager.cs:66-74 | `Connect` makes a fresh client peer, connecting to the address, the server candidate, leaving every existing peer, both lists and the server connection |
| `NetManager.OfferedPeerInBothLists` | Runtime/Core/WebRTCNetManager.cs:82-99 | an offer adds a fresh server peer, carrying the offer and the relay id, to both lists with one message handler; building it does not throw |
| `NetManager.OfferIgnoredWithoutHandler` | Runtime/Core/WebRTCNetManager.cs:55-58 | before a server `Start` subscribes the handler, an offer changes nothing |
| `NetManager.ServerTickPollsRelayAfterSweep` | Runtime/Core/WebRTCNetManager.cs:110-126 | on a running server, a tick whose candidate loop completes is that loop followed by one relay poll |
| `NetManager.ClientPromotes` | Runtime/Core/WebRTCNetManager.cs:128-145 | on a client, a candidate found open becomes the server connection, leaves the candidate slot, joins the actives with a handler and is announced once; one not open stays the candidate |
| `NetManager.SweepConservesTokens` | Runtime/Core/WebRTCNetManager.cs:110-121 | the candidate loop only moves peers from the candidate list to the announced ones |
| `NetManager.SweepDropsOnly` | Runtime/Core/WebRTCNetManager.cs:118 | the candidate loop only removes candidates |
| `NetManager.SweepLeavesNoOpenCandidate` | Runtime/Core/WebRTCNetManager.cs:110-121 | after a completed loop no visited candidate that is still a candidate is open, and peers not visited are unchanged |
| `NetManager.PromotionKeepsTokens` | Runtime/Core/WebRTCNetManager.cs:128-145 | a promotion only moves the server candidate to the announced peers |
| `NetManager.PollKeepsTokens` | Runtime/Core/WebRTCNetManager.cs:106-146 | a tick only moves peers from being candidates to being announced, and allocates no peer |
| `NetManager.ConnectTokens` | Runtime/Core/WebRTCNetManager.cs:66-74 | `Connect` adds only the fresh peer as a candidate |
| `NetManager.OfferTokens` | Runtime/Core/WebRTCNetManager.cs:82-99 | an offer adds at most the one fresh peer as a candidate |
| `NetManager.EventTokens` | Runtime/Core/WebRTCNetManager.cs:101-104 | a peer callback changes no candidate and announces nobody |
| `NetManager.TickTokens` | Runtime/Core/WebRTCNetManager.cs:106-146 | a tick adds no candidate and announces only candidates |
| `NetManager.StartTokens` | Runtime/Core/WebRTCNetManager.cs:51-64 | `Start` changes no candidate and announces nobody |
| `NetManager.StopTokens` | Runtime/Core/WebRTCNetManager.cs:76-80 | `Stop` changes no candidate and announces nobody |
| `NetManager.CallTokens` | Runtime/Core/WebRTCNetManager.cs:27-80 | the remaining calls add candidates only with fresh peers |
| `NetManager.StepTokens` | Runtime/Core/WebRTCNetManager.cs:27-146 | every call and tick adds candidates only with fresh peers, and announces only existing candidates |
| `NetManager.FreshKeepsUnique` | Runtime/Core/WebRTCNetManager.cs:27-146 | a step that adds only fresh peers keeps every peer a candidate or announced at most once |
| `NetManager.StepKeepsUnique` | Runtime/Core/WebRTCNetManager.cs:27-146 | every call and tick keeps every peer a candidate or announced at most once |
| `NetManager.RunKeepsUnique` | Runtime/Core/WebRTCNetManager.cs:27-146 | any run keeps every peer a candidate or announced at most once |
| `NetManager.AnnouncedAtMostOnce` | Runtime/Core/WebRTCNetManager.cs:116-142 | from the initial state, every announced peer was announced exactly once and is no longer a candidate |
| `NetManager.TickPollKeepsPeerInv` | Runtime/Core/WebRTCNetManager.cs:114 | polling a peer with the tick's engine report keeps that peer's invariant |
| `NetManager.PollPeerKeepsMInv` | Runtime/Core/WebRTCNetManager.cs:114 | polling one peer keeps the manager's invariant |
| `NetManager.SweepKeepsMInv` | Runtime/Core/WebRTCNetManager.cs:110-121 | the candidate loop keeps the manager's invariant |
| `NetManager.AddPeerKeepsMInv` | Runtime/Core/WebRTCNetManager.cs:27-32 | adding a known peer to the actives keeps the manager's invariant |
| `NetManager.PromotionKeepsMInv` | Runtime/Core/WebRTCNetManager.cs:128-145 | the client branch keeps the manager's invariant |
| `NetManager.PollKeepsMInv` | Runtime/Core/WebRTCNetManager.cs:106-146 | a tick keeps the manager's invariant |
| `NetManager.ConnectKeepsMInv` | Runtime/Core/WebRTCNetManager.cs:66-74 | `Connect` keeps the manager's invariant |
| `NetManager.OfferKeepsMInv` | Runtime/Core/WebRTCNetManager.cs:82-99 | an offer keeps the manager's invariant |
| `NetManager.EventKeepsMInv` | Runtime/Core/WebRTCNetManager.cs:101-104 | a peer callback keeps the manager's invariant |
| `NetManager.StartKeepsMInv` | Runtime/Core/WebRTCNetManager.cs:51-64 | `Start` keeps the manager's invariant |
| `NetManager.CallKeepsMInv` | Runtime/Core/WebRTCNetManager.cs:27-80 | the remaining calls keep the manager's invariant |
| `NetManager.StepKeepsMInv` | Runtime/Core/WebRTCNetManager.cs:27-146 | every call and tick keeps the manager's invariant |
| `NetManager.RunKeepsMInv` | Runtime/Core/WebRTCNetManager.cs:27-146 | any run keeps the manager's invariant |
| `NetManager.ReachableServerPollsRelay` | Runtime/Core/WebRTCNetManager.cs:123-126 | from the initial state, a running server always has the relay server that its tick polls |
| `NetManager.ServerTickLeavesNoOpenCandidate` | Runtime/Core/WebRTCNetManager.cs:110-126 | after a completed server tick no remaining candidate is open |
| `NetManager.AddPeerKeepsGood` | Runtime/Core/WebRTCNetManager.cs:27-32 | adding a known peer keeps the invariant and uniqueness |
| `NetManager.SetupKeepsGood` | Runtime/Core/WebRTCNetManager.cs:34-49 | a well-formed change of configuration keeps the invariant and uniqueness |
| `NetManager.StartKeepsGood` | Runtime/Core/WebRTCNetManager.cs:51-64 | `Start` keeps the invariant and uniqueness |
| `NetManager.ConnectKeepsGood` | Runtime/Core/WebRTCNetManager.cs:66-74 | `Connect` keeps the invariant and uniqueness |
| `NetManager.StopKeepsGood` | Runtime/Core/WebRTCNetManager.cs:76-80 | `Stop` keeps the invariant and uniqueness |
| `NetManager.OfferKeepsGood` | Runtime/Core/WebRTCNetManager.cs:82-99 | an offer keeps the invariant and uniqueness |
| `NetManager.EventKeepsGood` | Runtime/Core/WebRTCNetManager.cs:101-104 | a peer callback keeps the invariant and uniqueness |
| `NetManager.PollKeepsGood` | Runtime/Core/WebRTCNetManager.cs:106-146 | a tick keeps the invariant and uniqueness |
| `NetManager.WebRTCNetManager.constructor` | Runtime/Core/WebRTCNetManager.cs:39-43 | a new manager after `Init` is in `InitStep`'s state |
| `NetManager.WebRTCNetManager.AddPeer` | Runtime/Core/WebRTCNetManager.cs:27-32 | attaches a message handler and appends the peer to the actives |
| `NetManager.WebRTCNetManager.SetSignalingServerInstance` | Runtime/Core/WebRTCNetManager.cs:34-37 | records the relay server |
| `NetManager.WebRTCNetManager.SetConfig` | Runtime/Core/WebRTCNetManager.cs:45-49 | records the ICE servers and the trickle duration |
| `NetManager.WebRTCNetManager.Start` | Runtime/Core/WebRTCNetManager.cs:51-64 | moves the manager as `StartStep` |
| `NetManager.WebRTCNetManager.Connect` | Runtime/Core/WebRTCNetManager.cs:66-74 | moves the manager as `ConnectStep` |
| `NetManager.WebRTCNetManager.Stop` | Runtime/Core/WebRTCNetManager.cs:76-80 | moves the manager as `StopStep` |
| `NetManager.WebRTCNetManager.OnClientOffered` | Runtime/Core/WebRTCNetManager.cs:82-99 | moves the manager as `ClientOfferedStep` |
| `NetManager.WebRTCNetManager.OnPeerEvent` | Runtime/Core/WebRTCNetManager.cs:101-104 | a callback on a managed peer; each of its messages reaches the listener once per handler |
| `NetManager.WebRTCNetManager.TriggerPeer` | Runtime/Core/WebRTCNetManager.cs:114 | one peer's poll, exactly as `PollPeer` |
| `NetManager.WebRTCNetManager.SweepCandidates` | Runtime/Core/WebRTCNetManager.cs:110-121 | the reverse loop over the candidates, exactly as `Sweep` over the whole list |
| `NetManager.WebRTCNetManager.VisitCandidate` | Runtime/Core/WebRTCNetManager.cs:112-120 | one iteration of the loop: what remains of the loop afterwards is what remained before it |
| `NetManager.WebRTCNetManager.PromoteServerConnection` | Runtime/Core/WebRTCNetManager.cs:128-145 | the client branch, exactly as `ClientPromotion` |
| `NetManager.WebRTCNetManager.Promote` | Runtime/Core/WebRTCNetManager.cs:139-142 | the candidate becomes the server connection, joins the actives with a handler and is announced |
| `NetManager.WebRTCNetManager.PollUpdate` | Runtime/Core/WebRTCNetManager.cs:106-146 | one tick, exactly as `PollStep` |
| `EmbeddedTransport.SendTo` | Runtime/WebRTCEmbeddedTransportProvider.cs:65-68 | a connection sends exactly when a peer is bound, to that peer, with the data unchanged |
| `EmbeddedTransport.Dispose` | Runtime/WebRTCEmbeddedTransportProvider.cs:180-197 | a report is a failed attempt exactly on a client with one of the three tested reasons, refused exactly for a rejected client; a released connection reports a timeout exactly for a timeout |
| `EmbeddedTransport.ClientNeverTimesOutConnection` | Runtime/WebRTCEmbeddedTransportProvider.cs:180-193 | a client's timeout is always a failed attempt, and a client's release is always a shutdown |
| `EmbeddedTransport.ServerAlwaysReleases` | Runtime/WebRTCEmbeddedTransportProvider.cs:195-197 | every report on a server releases, as a timeout exactly for a timeout |
| `EmbeddedTransport.StartCall` | Runtime/WebRTCEmbeddedTransportProvider.cs:124-134 | the manager is started in the given mode, with the port exactly for a server |
| `EmbeddedTransport.WebRTCConnection.constructor` | Runtime/WebRTCEmbeddedTransportProvider.cs:57-59 | a new connection has no peer |
| `EmbeddedTransport.WebRTCConnection.Send` | Runtime/WebRTCEmbeddedTransportProvider.cs:65-68 | sends as `SendTo` on the bound peer |
| `EmbeddedTransport.WebRTCConnection.SendUserData` | Runtime/WebRTCEmbeddedTransportProvider.cs:70-78 | always sends as `Send`; an error is logged exactly for reliable delivery |
| `EmbeddedTransport.WebRTCTransport.constructor` | Runtime/WebRTCEmbeddedTransportProvider.cs:42-55 | a new transport holds the provider's configuration and has made no call |
| `EmbeddedTransport.WebRTCTransport.SetConfig` | Runtime/WebRTCEmbeddedTransportProvider.cs:106-110 | records both configurations |
| `EmbeddedTransport.WebRTCTransport.Init` | Runtime/WebRTCEmbeddedTransportProvider.cs:91-104 | an empty dictionary and a queue of exactly `MaxPlayers` new unbound connections, the pool invariant, then `Init` and `SetConfig` on the manager |
| `EmbeddedTransport.WebRTCTransport.FillQueue` | Runtime/WebRTCEmbeddedTransportProvider.cs:97-98 | the queue holds exactly `players` distinct new unbound connections |
| `EmbeddedTransport.WebRTCTransport.Connect` | Runtime/WebRTCEmbeddedTransportProvider.cs:112-115 | forwards the address and port to the manager |
| `EmbeddedTransport.WebRTCTransport.Disconnect` | Runtime/WebRTCEmbeddedTransportProvider.cs:117-122 | asks the manager to drop the connection's peer |
| `EmbeddedTransport.WebRTCTransport.Run` | Runtime/WebRTCEmbeddedTransportProvider.cs:124-134 | starts the manager as `StartCall` |
| `EmbeddedTransport.WebRTCTransport.Shutdown` | Runtime/WebRTCEmbeddedTransportProvider.cs:136-139 | stops the manager |
| `EmbeddedTransport.WebRTCTransport.PollEvents` | Runtime/WebRTCEmbeddedTransportProvider.cs:141-144 | polls the manager |
| `EmbeddedTransport.WebRTCTransport.OnPeerConnected` | Runtime/WebRTCEmbeddedTransportProvider.cs:146-153 | an empty queue throws and changes nothing; otherwise the head is bound to the peer, and a known peer throws with that connection lost, while a new one is added under the peer and reported; the pool invariant holds throughout |
| `EmbeddedTransport.WebRTCTransport.OnNetworkReceive` | Runtime/WebRTCEmbeddedTransportProvider.cs:155-165 | data reaches the engine with the peer's connection exactly when the peer is known |
| `EmbeddedTransport.WebRTCTransport.OnMessageReceiveUnmanaged` | Runtime/WebRTCEmbeddedTransportProvider.cs:167-174 | the unmanaged path delivers exactly as the managed one |
| `EmbeddedTransport.WebRTCTransport.OnPeerDisconnected` | Runtime/WebRTCEmbeddedTransportProvider.cs:176-204 | a client's failed attempt is reported and nothing else changes; otherwise a known peer's connection is reported lost with the mapped reason, removed from the dictionary and returned to the queue; an unknown peer changes nothing; the pool invariant holds |
| `Transport.WebRTCConnection.constructor` | Runtime/WebRTCTransportProvider.cs:24-26 | a new connection has no peer |
| `Transport.WebRTCConnection.Send` | Runtime/WebRTCTransportProvider.cs:32-35 | a connection sends exactly when a peer is bound, to that peer, with the data unchanged |
| `Transport.WebRTCTransport.constructor` | Runtime/WebRTCTransportProvider.cs:48-52 | a new transport holds the ICE servers and the trickle duration and has no manager yet |
| `Transport.WebRTCTransport.Init` | Runtime/WebRTCTransportProvider.cs:54-66 | an empty dictionary, a queue of exactly `MaxPlayers` new unbound connections, the pool invariant, and a new manager in its initial state |
| `Transport.WebRTCTransport.FillQueue` | Runtime/WebRTCTransportProvider.cs:60-61 | the queue holds exactly `players` distinct new unbound connections |
| `Transport.WebRTCTransport.Connect` | Runtime/WebRTCTransportProvider.cs:68-71 | the manager moves as its `Connect` |
| `Transport.WebRTCTransport.Disconnect` | Runtime/WebRTCTransportProvider.cs:73-76 | changes nothing |
| `Transport.WebRTCTransport.Run` | Runtime/WebRTCTransportProvider.cs:78-90 | the manager is configured, then started as a client on the default port or as a server on the port |
| `Transport.WebRTCTransport.Shutdown` | Runtime/WebRTCTransportProvider.cs:92-95 | the manager moves as its `Stop` |
| `Transport.WebRTCTransport.PollEvents` | Runtime/WebRTCTransportProvider.cs:97-100 | the manager moves as one tick of its `PollUpdate` |
| `Transport.WebRTCTransport.OnPeerConnected` | Runtime/WebRTCTransportProvider.cs:102-109 | an empty queue throws and changes nothing; otherwise the head is bound to the peer, and a known peer throws with that connection lost, while a new one is added under the peer and reported; the pool invariant holds throughout |
| `Transport.WebRTCTransport.OnNetworkReceive` | Runtime/WebRTCTransportProvider.cs:111-121 | data reaches the engine with the peer's connection exactly when the peer is known |
| `Transport.WebRTCTransport.OnPeerDisconnected` | Runtime/WebRTCTransportProvider.cs:123-126 | changes nothing, so the connection never returns to the queue |

## Left out

- I/O is not modelled: the WebSocket relay client and server, TLS, JSON
  (de)serialisation of session descriptions, and the description parser that
  extracts the endpoint. The relay appears only as the events a peer reacts to
  and as entries in the peer's event log. The endpoint is an opaque value that
  arrives with the channel callback.
- The browser's JavaScript bindings are foreign calls. Their effects on the
  shared engine slots are modelled. The browser's `IsConnectionOpen` is a query
  into JavaScript (Runtime/Core/Browser/BrowserWebRTCPeer.cs:29). It is not
  modelled, and the browser peer is not used by the manager.
- The clock is left out. The timer type is not part of this model: a timer is an
  integer-tick deadline, and durations are integer ticks instead of float
  seconds. A timer field that has never been set is taken to be `NoTimer`.
- Logging, the static `Instance` singleton and the Unity asset setup are left
  out.
- Event subscriptions are booleans in the peers: each handler the source
  subscribes is recorded once. The manager keeps a count of message handlers
  per peer, because each `AddPeer` call attaches one more.
- The engine record has one done flag per slot and tick. An operation started
  by an earlier poll of the same tick reads the same flag as one that was
  already pending.
- The browser client registers its message callback only when it connects to
  the relay, so the browser server never receives messages. The model keeps
  this as the source has it.
- ICE candidate, gathering-state and negotiation-needed callbacks only log in
  the source and are not modelled.
- The manager holds its peers by identifier in one map, so a peer in both lists
  is one peer. `AddPeer` of an identifier the manager does not know is ignored.
- The manager's list capacity argument is ignored, and its lists exist only
  after `Init`: every caller runs `Init` first.
- The manager's listener is reduced to the events it receives: peer connected
  and data received. The older transport's callbacks are methods that the
  environment calls with the peers the manager announces; they are not invoked
  from within the manager's tick. An exception thrown by a callback therefore
  does not end the manager's tick in the model.
  `NetManager.AnnouncedAtMostOnce` shows that a peer is never announced twice,
  so that callback's already-known-peer exception cannot arise from the
  manager shown here.
- The embedded transport calls a manager whose interface is not part of this
  model. The `SetConfig` overload at
  Runtime/WebRTCEmbeddedTransportProvider.cs:103 and `DisconnectPeer` at line
  121 are not in the manager shown. Its calls on the manager are therefore kept
  as a log.
- The listener interface is declared twice with different signatures:
  Runtime/Core/WebRTCNetManager.cs:149-154 and
  Runtime/Core/IWebRTCNetEventListener.cs:3-8. Each transport is modelled
  against the callbacks it implements.
- The engine side is reduced to a log of host calls: `BitBuffer`, unmanaged
  pointers and the engine's `NetworkPeer`. Endpoint getters are left out.
- The embedded transport's `OnPeerDisconnected` reads the engine's role; the
  model takes it as the argument `isClient`.
- The disconnect-reason enumeration is not part of this model. The three values
  the transport tests are named, and `OtherReason` stands for every other
  value. The TLS protocol field of the relay configuration is left out.
- The transports' operations other than the constructor and `Init` require
  `Init` to have run, as the engine guarantees; before it the source's fields
  are null.
- The older transport never returns a connection to its queue. Its
  `MaxPlayers + 1`-th announced peer therefore throws on the empty queue
  (`QueueEmpty`). The model keeps this as the source has it.
- `EmbeddedTransport.ClientNeverTimesOutConnection`: Dafny proves it without
  help, so it adds no proof of its own beyond `Dispose`'s contract.
- `EmbeddedTransport.ServerAlwaysReleases`: Dafny proves it without help, so it
  adds no proof of its own beyond `Dispose`'s contract.
