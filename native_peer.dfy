/** The native negotiation peer (Runtime/Core/Native/NativeWebRTCPeer.cs, the
    branch compiled outside the browser).

    The engine is opaque: what each pending operation reports, the descriptions
    it creates, its gathering state and its current local description arrive
    with every tick as an `Engine` record. Engine and relay callbacks are
    separate operations, delivered only when the source attached the handler.
    Spec functions over `State` say what every operation does; the class
    `NativeWebRTCPeer` at the end holds the same state in fields and is proved
    against them. */
module NativePeer {
  import opened Common

  datatype TricklingConfig = TricklingConfig(isManual: bool, duration: int)

  /** The user configuration: ICE servers, the connection timeout and the
      trickling policy (manual = bounded window of `duration` ticks). */
  datatype RTCConfig = RTCConfig(iceServers: seq<IceServer>, timeoutDuration: int, iceTrickling: TricklingConfig)

  /** What the opaque engine reports when a tick polls it. Each `...Done` flag
      is the completion status of the operation held in that slot. */
  datatype Engine = Engine(
    createOfferDone: bool, createdOffer: string,
    setOfferLocalDone: bool,
    setAnswerRemoteDone: bool,
    setOfferRemoteDone: bool,
    createAnswerDone: bool, createdAnswer: string,
    setAnswerLocalDone: bool,
    gathering: GatheringState,
    localDescription: string)

  /** The relay objects and the handlers the peer has attached to them. */
  datatype Wiring = Wiring(
    hasSignalingClient: bool,
    hasSignalingServer: bool,
    connectSubscribed: bool,
    answerSubscribed: bool)

  /** The six operation slots; a set-description slot carries the description being set. */
  datatype Slots = Slots(
    createOffer: bool, setOfferLocal: Option<string>, setAnswerRemote: Option<string>,
    createAnswer: bool, setOfferRemote: Option<string>, setAnswerLocal: Option<string>)

  const NoOps := Slots(false, None, None, false, None, None)

  /** The peer's fields. */
  datatype State = State(
    mode: RunMode,
    config: RTCConfig,
    wiring: Wiring,
    peerConnection: PeerConnection,
    dataChannel: DataChannel,
    timerTimeout: Timer,
    isTimedOut: bool,
    timerIceTrickling: Timer,
    hasSentIceGatheringComplete: bool,
    ops: Slots,
    connectionId: int,
    endPoint: Option<EndPoint>,
    log: seq<Effect>)

  datatype Result = Result(state: State, outcome: Outcome)

  datatype ClientSlots = ClientSlots(createOffer: bool, setOfferLocal: Option<string>, setAnswerRemote: Option<string>)
  datatype ServerSlots = ServerSlots(setOfferRemote: Option<string>, createAnswer: bool, setAnswerLocal: Option<string>)

  function ClientPart(p: Slots): ClientSlots
  {
    ClientSlots(p.createOffer, p.setOfferLocal, p.setAnswerRemote)
  }

  function ServerPart(p: Slots): ServerSlots
  {
    ServerSlots(p.setOfferRemote, p.createAnswer, p.setAnswerLocal)
  }

  predicate HasPendingOp(p: Slots)
  {
    p.createOffer || p.setOfferLocal.Some? || p.setAnswerRemote.Some?
    || p.createAnswer || p.setOfferRemote.Some? || p.setAnswerLocal.Some?
  }

  /** What every reachable state satisfies: only a client has a relay client,
      and every engine operation, the answer subscription and the data channel
      hang off an existing peer connection. */
  predicate Inv(s: State)
  {
    (s.wiring.hasSignalingClient <==> s.mode == Client)
    && (HasPendingOp(s.ops) ==> s.peerConnection.Connection?)
    && (s.wiring.answerSubscribed ==> s.peerConnection.Connection?)
    && (!s.dataChannel.NoChannel? ==> s.peerConnection.Connection?)
  }

  predicate IsConnectionOpen(s: State)
  {
    ChannelIsOpen(s.dataChannel)
  }

  // ---------------------------------------------------------------- lifecycle

  /** A new peer after SetConfig and Start: a server constructs its peer
      connection at once, a client creates its relay client instead. */
  function StartStep(config: RTCConfig, mode: RunMode): (s: State)
    ensures Inv(s) && s.log == [] && !HasPendingOp(s.ops)
    ensures s.peerConnection.Connection? <==> mode == Server
    ensures s.wiring.hasSignalingClient <==> mode == Client
  {
    State(mode, config, Wiring(mode == Client, false, false, false),
          if mode == Server then Connection(false) else NoPeerConnection, NoChannel,
          NoTimer, false, NoTimer, false, NoOps, 0, None, [])
  }

  /** Connect: attach the relay-connected handler, start the relay client,
      connect it, and arm the timeout. A server has no relay client and throws. */
  function ConnectStep(s: State, address: string, port: int, now: int): Result
  {
    if !s.wiring.hasSignalingClient then Result(s, Failed(NullSignalingClient))
    else Result(s.(wiring := s.wiring.(connectSubscribed := true),
                   log := s.log + [SignalingConnecting(address, port)],
                   timerTimeout := StartTimer(now, s.config.timeoutDuration)), Ok)
  }

  function SetConnectionIdStep(s: State, id: int): State
  {
    s.(connectionId := id)
  }

  function SetSignalingServerStep(s: State): State
  {
    s.(wiring := s.wiring.(hasSignalingServer := true))
  }

  /** CloseConnection: close the peer connection (throws when there is none),
      then the data channel if there is one. */
  function CloseConnectionStep(s: State): (r: Result)
    ensures r.state == s.(peerConnection := r.state.peerConnection, dataChannel := r.state.dataChannel, log := r.state.log)
  {
    if !s.peerConnection.Connection? then Result(s, Failed(NullPeerConnection))
    else
      var s1 := s.(peerConnection := Connection(true), log := s.log + [PeerConnectionClosed]);
      if s1.dataChannel.NoChannel? then Result(s1, Ok)
      else Result(s1.(dataChannel := CloseChannel(s1.dataChannel), log := s1.log + [DataChannelClosed]), Ok)
  }

  function SendStep(s: State, data: Bytes): Result
  {
    if s.dataChannel.NoChannel? then Result(s, Failed(NullDataChannel))
    else Result(s.(log := s.log + [DataSent(data)]), Ok)
  }

  // ---------------------------------------------------------------- callbacks

  /** The relay client connected: construct the peer connection, create an
      unordered channel without retransmits, and start creating the offer. */
  function SignalingConnectedStep(s: State): State
  {
    if !s.wiring.connectSubscribed then s
    else s.(peerConnection := Connection(false),
            dataChannel := LocalChannel(Connecting, false, Some(0)),
            ops := s.ops.(createOffer := true))
  }

  /** The relay delivered the server's answer: keep the routing id and start
      setting the answer as remote description. */
  function ServerAnsweredStep(s: State, clientId: int, message: string): State
  {
    if !s.wiring.answerSubscribed then s
    else s.(connectionId := clientId, ops := s.ops.(setAnswerRemote := Some(message)))
  }

  /** A client's offer handed in by the owner: start setting it as remote description. */
  function ReceivedOfferStep(s: State, offer: string): Result
  {
    if !s.peerConnection.Connection? then Result(s, Failed(NullPeerConnection))
    else Result(s.(ops := s.ops.(setOfferRemote := Some(offer))), Ok)
  }

  /** The locally created channel opened: record the endpoint, cancel the timeout. */
  function ChannelOpenStep(s: State, ep: EndPoint): State
  {
    if !s.dataChannel.LocalChannel? then s
    else s.(dataChannel := OpenChannel(s.dataChannel), endPoint := Some(ep), timerTimeout := NoTimer)
  }

  function ChannelCloseStep(s: State): State
  {
    if s.dataChannel.NoChannel? then s
    else s.(dataChannel := CloseChannel(s.dataChannel), log := s.log + [ConnectionClosedRaised])
  }

  /** The remote side's channel arrived on the peer connection. */
  function DataChannelStep(s: State, ep: EndPoint, ready: ChannelState): State
  {
    if !s.peerConnection.Connection? then s
    else s.(dataChannel := RemoteChannel(ready), endPoint := Some(ep))
  }

  function IceConnectionChangeStep(s: State, state: IceConnectionState): State
  {
    if !s.peerConnection.Connection? then s
    else if state == IceConnected then s.(timerTimeout := NoTimer)
    else s
  }

  function MessageStep(s: State, data: Bytes): State
  {
    if s.dataChannel.NoChannel? then s
    else s.(log := s.log + [MessageRaised(data)])
  }

  // ---------------------------------------------------------------- the op chain

  /** Each step does nothing while its slot is empty or its operation is not
      done; when it is done the slot is cleared and, for the three steps that
      lead somewhere, the next slot is filled. */
  function CreateOfferOp(p: Slots, e: Engine): (q: Slots)
    ensures q.(createOffer := p.createOffer, setOfferLocal := p.setOfferLocal) == p
  {
    if p.createOffer && e.createOfferDone then p.(setOfferLocal := Some(e.createdOffer), createOffer := false) else p
  }

  predicate SetLocalOfferCompletes(p: Slots, e: Engine)
  {
    p.setOfferLocal.Some? && e.setOfferLocalDone
  }

  function SetLocalOfferOp(p: Slots, e: Engine): (q: Slots)
    ensures q.(setOfferLocal := p.setOfferLocal) == p
  {
    if SetLocalOfferCompletes(p, e) then p.(setOfferLocal := None) else p
  }

  function SetRemoteAnswerOp(p: Slots, e: Engine): (q: Slots)
    ensures q.(setAnswerRemote := p.setAnswerRemote) == p
  {
    if p.setAnswerRemote.Some? && e.setAnswerRemoteDone then p.(setAnswerRemote := None) else p
  }

  function SetRemoteOfferOp(p: Slots, e: Engine): (q: Slots)
    ensures q.(createAnswer := p.createAnswer, setOfferRemote := p.setOfferRemote) == p
  {
    if p.setOfferRemote.Some? && e.setOfferRemoteDone then p.(createAnswer := true, setOfferRemote := None) else p
  }

  function CreateAnswerOp(p: Slots, e: Engine): (q: Slots)
    ensures q.(createAnswer := p.createAnswer, setAnswerLocal := p.setAnswerLocal) == p
  {
    if p.createAnswer && e.createAnswerDone then p.(setAnswerLocal := Some(e.createdAnswer), createAnswer := false) else p
  }

  function SetLocalAnswerOp(p: Slots, e: Engine): (q: Slots)
    ensures q.(setAnswerLocal := p.setAnswerLocal) == p
  {
    if p.setAnswerLocal.Some? && e.setAnswerLocalDone then p.(setAnswerLocal := None) else p
  }

  function ClientOps(p: Slots, e: Engine): (q: Slots)
    ensures ServerPart(q) == ServerPart(p)
  {
    SetRemoteAnswerOp(SetLocalOfferOp(CreateOfferOp(p, e), e), e)
  }

  function ServerOps(p: Slots, e: Engine): (q: Slots)
    ensures ClientPart(q) == ClientPart(p)
  {
    SetLocalAnswerOp(CreateAnswerOp(SetRemoteOfferOp(p, e), e), e)
  }

  // ---------------------------------------------------------------- one tick

  /** PollOpSetLocalOffer's effect on the window: on completion, a manual
      policy arms the trickle timer. */
  function TrickleAfterSetLocalOffer(s: State, p: Slots, e: Engine, now: int): Timer
  {
    if SetLocalOfferCompletes(p, e) && s.config.iceTrickling.isManual
    then StartTimer(now, s.config.iceTrickling.duration)
    else s.timerIceTrickling
  }

  /** The tick's ICE check sends the local description at most once, once the
      peer connection exists, when gathering is complete or the window expired. */
  predicate SendDue(s: State, e: Engine, now: int)
  {
    !s.hasSentIceGatheringComplete && s.peerConnection.Connection?
    && (e.gathering == Complete || IsExpired(s.timerIceTrickling, now))
  }

  function IceCandidateStep(s: State, e: Engine, now: int): (r: Result)
    requires Inv(s)
    ensures Inv(r.state)
    ensures r.state == s.(timerIceTrickling := r.state.timerIceTrickling,
                          hasSentIceGatheringComplete := r.state.hasSentIceGatheringComplete,
                          wiring := r.state.wiring, log := r.state.log)
  {
    if !SendDue(s, e, now) then Result(s, Ok)
    else
      var s1 := s.(timerIceTrickling := NoTimer, hasSentIceGatheringComplete := true);
      if s.mode == Client then
        Result(s1.(wiring := s.wiring.(answerSubscribed := true), log := s1.log + [OfferSent(e.localDescription)]), Ok)
      else if s.wiring.hasSignalingServer then
        Result(s1.(log := s1.log + [AnswerSent(s.connectionId, e.localDescription)]), Ok)
      else Result(s1, Failed(NullSignalingServer))
  }

  predicate TimesOut(s: State, now: int)
  {
    s.mode == Client && IsExpired(s.timerTimeout, now)
  }

  /** The part of a tick without a timeout: relay poll and the client slots
      for a client, the server slots for a server. */
  function SlotsStep(s: State, e: Engine, now: int): (r: State)
    requires Inv(s)
    ensures Inv(r)
    ensures r == s.(ops := r.ops, timerIceTrickling := r.timerIceTrickling, log := r.log)
  {
    if s.mode == Client then
      s.(log := s.log + [SignalingPolled],
         ops := ClientOps(s.ops, e),
         timerIceTrickling := TrickleAfterSetLocalOffer(s, CreateOfferOp(s.ops, e), e, now))
    else s.(ops := ServerOps(s.ops, e))
  }

  /** PollUpdate: one tick. */
  function PollStep(s: State, e: Engine, now: int): (r: Result)
    requires Inv(s)
    ensures Inv(r.state)
  {
    if TimesOut(s, now) then
      var c := CloseConnectionStep(s.(timerTimeout := NoTimer));
      if c.outcome.Ok? then Result(c.state.(isTimedOut := true), Ok) else c
    else IceCandidateStep(SlotsStep(s, e, now), e, now)
  }

  // ---------------------------------------------------------------- traces

  datatype Input =
    | Tick(engine: Engine, now: int)
    | ConnectTo(address: string, port: int, at: int)
    | SignalingConnected
    | ServerAnswered(clientId: int, message: string)
    | OfferFromClient(offer: string)
    | ChannelOpened(endPoint: EndPoint)
    | ChannelClosedByEngine
    | DataChannelArrived(remote: EndPoint, ready: ChannelState)
    | IceChanged(iceState: IceConnectionState)
    | MessageArrived(data: Bytes)
    | SetId(id: int)
    | AttachSignalingServer
    | Close
    | SendData(payload: Bytes)

  function Step(s: State, i: Input): (r: Result)
    requires Inv(s)
    ensures Inv(r.state)
  {
    match i
    case Tick(e, now) => PollStep(s, e, now)
    case ConnectTo(a, p, now) => ConnectStep(s, a, p, now)
    case SignalingConnected => Result(SignalingConnectedStep(s), Ok)
    case ServerAnswered(id, m) => Result(ServerAnsweredStep(s, id, m), Ok)
    case OfferFromClient(o) => ReceivedOfferStep(s, o)
    case ChannelOpened(ep) => Result(ChannelOpenStep(s, ep), Ok)
    case ChannelClosedByEngine => Result(ChannelCloseStep(s), Ok)
    case DataChannelArrived(ep, ready) => Result(DataChannelStep(s, ep, ready), Ok)
    case IceChanged(st) => Result(IceConnectionChangeStep(s, st), Ok)
    case MessageArrived(d) => Result(MessageStep(s, d), Ok)
    case SetId(id) => Result(SetConnectionIdStep(s, id), Ok)
    case AttachSignalingServer => Result(SetSignalingServerStep(s), Ok)
    case Close => CloseConnectionStep(s)
    case SendData(d) => SendStep(s, d)
  }

  /** The state after a sequence of inputs; a throwing operation leaves what it
      changed before the throw and the sequence goes on. */
  function Run(s: State, inputs: seq<Input>): (r: State)
    requires Inv(s)
    ensures Inv(r)
    decreases |inputs|
  {
    if inputs == [] then s else Run(Step(s, inputs[0]).state, inputs[1..])
  }

  /** How many ticks of the sequence take the timeout branch. */
  function TimeoutTicks(s: State, inputs: seq<Input>): nat
    requires Inv(s)
    decreases |inputs|
  {
    if inputs == [] then 0
    else (if inputs[0].Tick? && TimesOut(s, inputs[0].now) then 1 else 0)
         + TimeoutTicks(Step(s, inputs[0]).state, inputs[1..])
  }

  predicate NoConnect(inputs: seq<Input>)
  {
    forall k :: 0 <= k < |inputs| ==> !inputs[k].ConnectTo?
  }

  // ---------------------------------------------------------------- lemmas

  /** An expired timeout on a client resets the timer and closes the connection
      before anything else; the tick polls neither the relay, nor a slot, nor ICE.
      With no peer connection yet the close throws, and the peer is not marked
      timed out. */
  lemma TimeoutTick(s: State, e: Engine, now: int)
    requires Inv(s) && TimesOut(s, now)
    ensures var r := PollStep(s, e, now);
      && r.state.timerTimeout == NoTimer
      && r.state.ops == s.ops && r.state.wiring == s.wiring
      && r.state.timerIceTrickling == s.timerIceTrickling
      && r.state.hasSentIceGatheringComplete == s.hasSentIceGatheringComplete
      && (r.outcome.Ok? <==> s.peerConnection.Connection?)
      && (r.outcome.Ok? ==> r.state.isTimedOut && r.state.peerConnection == Connection(true)
                            && r.state.log == s.log + [PeerConnectionClosed]
                               + (if s.dataChannel.NoChannel? then [] else [DataChannelClosed]))
      && (!r.outcome.Ok? ==> r.outcome == Failed(NullPeerConnection)
                             && r.state == s.(timerTimeout := NoTimer))
  {
  }

  /** Without a timeout, a tick advances the client slots on a client and the
      server slots on a server, and nothing else touches a slot. */
  lemma TickOps(s: State, e: Engine, now: int)
    requires Inv(s) && !TimesOut(s, now)
    ensures PollStep(s, e, now).state.ops
            == (if s.mode == Client then ClientOps(s.ops, e) else ServerOps(s.ops, e))
  {
  }

  /** A client tick leaves the server slots alone; a server tick leaves the
      client slots, the timeout timer and the timed-out flag alone and does not
      poll the relay. */
  lemma ModeIsolation(s: State, e: Engine, now: int)
    requires Inv(s)
    ensures var r := PollStep(s, e, now).state;
      && (s.mode == Client ==> ServerPart(r.ops) == ServerPart(s.ops))
      && (s.mode == Server ==>
            ClientPart(r.ops) == ClientPart(s.ops)
            && r.timerTimeout == s.timerTimeout && r.isTimedOut == s.isTimedOut
            && SlotsStep(s, e, now).log == s.log)
  {
    if !TimesOut(s, now) {
      TickOps(s, e, now);
    }
  }

  /** The client chain within one tick: create-offer stays pending exactly
      while it is not done, and its result becomes the pending set-local-offer;
      set-local-offer and set-remote-answer are cleared when done and kept
      while not; nothing else fills a slot. */
  lemma ClientChain(p: Slots, e: Engine)
    ensures var q := ClientOps(p, e);
      var offered := p.createOffer && e.createOfferDone;
      && (q.createOffer <==> p.createOffer && !e.createOfferDone)
      && (q.setOfferLocal.Some? && q.setOfferLocal != p.setOfferLocal ==> offered && q.setOfferLocal == Some(e.createdOffer))
      && (offered && !e.setOfferLocalDone ==> q.setOfferLocal == Some(e.createdOffer))
      && (!offered && !e.setOfferLocalDone ==> q.setOfferLocal == p.setOfferLocal)
      && (e.setOfferLocalDone ==> q.setOfferLocal.None?)
      && (p.setAnswerRemote.Some? && !e.setAnswerRemoteDone ==> q.setAnswerRemote == p.setAnswerRemote)
      && (e.setAnswerRemoteDone ==> q.setAnswerRemote.None?)
      && (q.setAnswerRemote.Some? ==> q.setAnswerRemote == p.setAnswerRemote)
  {
  }

  /** The server chain within one tick: set-remote-offer is cleared when done
      and kept while not; a completed set-remote-offer starts create-answer,
      which stays pending exactly while it is not done, and its result becomes
      the pending set-local-answer; set-local-answer is cleared when done and
      kept while not; nothing else fills a slot. */
  lemma ServerChain(p: Slots, e: Engine)
    ensures var q := ServerOps(p, e);
      var started := p.createAnswer || (p.setOfferRemote.Some? && e.setOfferRemoteDone);
      var answered := started && e.createAnswerDone;
      && (p.setOfferRemote.Some? && !e.setOfferRemoteDone ==> q.setOfferRemote == p.setOfferRemote)
      && (e.setOfferRemoteDone ==> q.setOfferRemote.None?)
      && (q.setOfferRemote.Some? ==> q.setOfferRemote == p.setOfferRemote)
      && (q.createAnswer <==> started && !e.createAnswerDone)
      && (q.setAnswerLocal.Some? && q.setAnswerLocal != p.setAnswerLocal ==> answered && q.setAnswerLocal == Some(e.createdAnswer))
      && (answered && !e.setAnswerLocalDone ==> q.setAnswerLocal == Some(e.createdAnswer))
      && (!answered && !e.setAnswerLocalDone ==> q.setAnswerLocal == p.setAnswerLocal)
      && (e.setAnswerLocalDone ==> q.setAnswerLocal.None?)
  {
  }

  /** The trickle window is armed only by a client whose policy is manual, only
      when its set-local-offer operation completes, for the configured duration. */
  lemma TrickleArming(s: State, e: Engine, now: int)
    requires Inv(s) && !TimesOut(s, now)
    ensures var m := SlotsStep(s, e, now);
      m.timerIceTrickling != s.timerIceTrickling ==>
        && s.mode == Client && s.config.iceTrickling.isManual && e.setOfferLocalDone
        && (s.ops.setOfferLocal.Some? || (s.ops.createOffer && e.createOfferDone))
        && m.ops.setOfferLocal.None?
        && m.timerIceTrickling == StartTimer(now, s.config.iceTrickling.duration)
  {
  }

  /** What the ICE part of a tick does: when a send is due the window is reset,
      the flag is set and the description goes out, as an offer from a client
      and as an answer to the routing id from a server (which throws without a
      relay server); otherwise nothing changes. */
  lemma IceSend(s: State, e: Engine, now: int)
    requires Inv(s) && !TimesOut(s, now)
    ensures var m := SlotsStep(s, e, now); var r := PollStep(s, e, now);
      && m.hasSentIceGatheringComplete == s.hasSentIceGatheringComplete
      && m.peerConnection == s.peerConnection && m.connectionId == s.connectionId
      && m.log == s.log + (if s.mode == Client then [SignalingPolled] else [])
      && (SendDue(m, e, now) ==>
            && r.state.hasSentIceGatheringComplete && r.state.timerIceTrickling == NoTimer
            && (s.mode == Client ==> r.outcome.Ok? && r.state.log == m.log + [OfferSent(e.localDescription)])
            && (s.mode == Server && s.wiring.hasSignalingServer ==>
                  r.outcome.Ok? && r.state.log == m.log + [AnswerSent(s.connectionId, e.localDescription)])
            && (s.mode == Server && !s.wiring.hasSignalingServer ==>
                  r.outcome == Failed(NullSignalingServer) && r.state.log == m.log))
      && (!SendDue(m, e, now) ==> r == Result(m, Ok))
  {
  }

  /** Bounded window: a client with no set-local-offer pending sends its offer
      at the first tick at or after the window's deadline, whatever the
      gathering state. */
  lemma WindowExpirySends(s: State, e: Engine, now: int)
    requires Inv(s) && s.mode == Client && !TimesOut(s, now)
    requires !s.hasSentIceGatheringComplete && s.peerConnection.Connection?
    requires !s.ops.createOffer && s.ops.setOfferLocal.None?
    requires s.timerIceTrickling.Deadline? && now >= s.timerIceTrickling.tick
    ensures var r := PollStep(s, e, now);
      r.outcome.Ok? && r.state.hasSentIceGatheringComplete
      && r.state.log == SlotsStep(s, e, now).log + [OfferSent(e.localDescription)]
  {
  }

  /** The timeout is cancelled when the created channel opens or ICE connects. */
  lemma TimeoutCancelled(s: State, ep: EndPoint)
    requires Inv(s)
    ensures s.dataChannel.LocalChannel? ==>
      var r := ChannelOpenStep(s, ep); r.timerTimeout == NoTimer && r.endPoint == Some(ep) && IsConnectionOpen(r)
    ensures s.peerConnection.Connection? ==> IceConnectionChangeStep(s, IceConnected).timerTimeout == NoTimer
  {
  }

  /** Only Connect arms the timeout timer: every other input leaves it as it
      was or resets it. */
  lemma {:induction false} OnlyConnectArmsTimeout(s: State, i: Input)
    requires Inv(s) && !i.ConnectTo?
    ensures var r := Step(s, i).state; r.timerTimeout == s.timerTimeout || r.timerTimeout == NoTimer
  {
    if i.Tick? {
      if !TimesOut(s, i.now) {
        assert SlotsStep(s, i.engine, i.now).timerTimeout == s.timerTimeout;
      }
    }
  }

  /** Only a tick that takes the timeout branch changes the timed-out flag, and
      it only ever sets it. */
  lemma StepTimedOut(s: State, i: Input)
    requires Inv(s)
    ensures s.isTimedOut ==> Step(s, i).state.isTimedOut
    ensures !(i.Tick? && TimesOut(s, i.now)) ==> Step(s, i).state.isTimedOut == s.isTimedOut
  {
    if i.Tick? && !TimesOut(s, i.now) {
      assert SlotsStep(s, i.engine, i.now).isTimedOut == s.isTimedOut;
    }
  }

  /** The timed-out flag only ever moves from false to true. */
  lemma {:induction false} TimedOutStays(s: State, inputs: seq<Input>)
    requires Inv(s) && s.isTimedOut
    ensures Run(s, inputs).isTimedOut
    decreases |inputs|
  {
    if inputs != [] {
      StepTimedOut(s, inputs[0]);
      TimedOutStays(Step(s, inputs[0]).state, inputs[1..]);
    }
  }

  /** Between two Connects the timeout branch runs at most once, and not at all
      once the timer has been reset. */
  lemma {:induction false} TimeoutAtMostOncePerConnect(s: State, inputs: seq<Input>)
    requires Inv(s) && NoConnect(inputs)
    ensures TimeoutTicks(s, inputs) <= (if s.timerTimeout == NoTimer then 0 else 1)
    decreases |inputs|
  {
    if inputs != [] {
      var i := inputs[0];
      var r := Step(s, i).state;
      OnlyConnectArmsTimeout(s, i);
      assert NoConnect(inputs[1..]) by {
        forall k | 0 <= k < |inputs[1..]| ensures !inputs[1..][k].ConnectTo? {
          assert inputs[1..][k] == inputs[k + 1];
        }
      }
      TimeoutAtMostOncePerConnect(r, inputs[1..]);
      if i.Tick? && TimesOut(s, i.now) {
        TimeoutTick(s, i.engine, i.now);
      }
    }
  }

  /** The sends in the log never exceed what the sent flag allows. */
  predicate SendBudget(s: State)
  {
    CountSends(s.log) <= (if s.hasSentIceGatheringComplete then 1 else 0)
  }

  /** The timeout branch of a tick appends only closes. */
  lemma TimeoutTickKeepsSendBudget(s: State, e: Engine, now: int)
    requires Inv(s) && SendBudget(s) && TimesOut(s, now)
    ensures SendBudget(PollStep(s, e, now).state)
    ensures PollStep(s, e, now).state.hasSentIceGatheringComplete == s.hasSentIceGatheringComplete
  {
    var r := PollStep(s, e, now);
    TimeoutTick(s, e, now);
    var extra := if r.outcome.Ok? then [PeerConnectionClosed] + (if s.dataChannel.NoChannel? then [] else [DataChannelClosed]) else [];
    assert r.state.log == s.log + extra;
    NoSendAppend(s.log, extra);
  }

  /** The ICE branch of a tick appends one description exactly when it sets the flag. */
  lemma IceTickKeepsSendBudget(s: State, e: Engine, now: int)
    requires Inv(s) && SendBudget(s) && !TimesOut(s, now)
    ensures SendBudget(PollStep(s, e, now).state)
    ensures s.hasSentIceGatheringComplete ==> PollStep(s, e, now).state.hasSentIceGatheringComplete
  {
    var r := PollStep(s, e, now);
    IceSend(s, e, now);
    var m := SlotsStep(s, e, now);
    NoSendAppend(s.log, if s.mode == Client then [SignalingPolled] else []);
    if SendDue(m, e, now) && r.state.log != m.log {
      var last := r.state.log[|r.state.log| - 1];
      assert r.state.log == m.log + [last];
      CountSendsAppend(m.log, [last]);
    }
  }

  /** The inputs that leave both the log and the sent flag alone. */
  predicate Silent(i: Input)
  {
    i.SignalingConnected? || i.ServerAnswered? || i.OfferFromClient? || i.ChannelOpened?
    || i.DataChannelArrived? || i.IceChanged? || i.SetId? || i.AttachSignalingServer?
  }

  lemma SilentStep(s: State, i: Input)
    requires Inv(s) && Silent(i)
    ensures Step(s, i).state.log == s.log
    ensures Step(s, i).state.hasSentIceGatheringComplete == s.hasSentIceGatheringComplete
  {
  }

  /** Connect, Close, a closing channel, a message and a send append no send. */
  lemma ConnectSendsNothing(s: State, a: string, p: int, at: int)
    ensures CountSends(ConnectStep(s, a, p, at).state.log) == CountSends(s.log)
  {
    CountSendsSnoc(s.log, SignalingConnecting(a, p));
  }

  lemma CloseSendsNothing(s: State)
    ensures CountSends(CloseConnectionStep(s).state.log) == CountSends(s.log)
  {
    CountSendsSnoc(s.log, PeerConnectionClosed);
    CountSendsSnoc(s.log + [PeerConnectionClosed], DataChannelClosed);
  }

  lemma ChannelCloseSendsNothing(s: State)
    ensures CountSends(ChannelCloseStep(s).log) == CountSends(s.log)
  {
    CountSendsSnoc(s.log, ConnectionClosedRaised);
  }

  lemma MessageSendsNothing(s: State, d: Bytes)
    ensures CountSends(MessageStep(s, d).log) == CountSends(s.log)
  {
    CountSendsSnoc(s.log, MessageRaised(d));
  }

  lemma SendSendsNothing(s: State, d: Bytes)
    ensures CountSends(SendStep(s, d).state.log) == CountSends(s.log)
  {
    CountSendsSnoc(s.log, DataSent(d));
  }

  /** Every input other than a tick appends no send and leaves the flag alone. */
  lemma {:induction false} OtherStepKeepsSendBudget(s: State, i: Input)
    requires Inv(s) && SendBudget(s) && !i.Tick?
    ensures SendBudget(Step(s, i).state)
    ensures Step(s, i).state.hasSentIceGatheringComplete == s.hasSentIceGatheringComplete
  {
    var r := Step(s, i).state;
    if Silent(i) {
      SilentStep(s, i);
    } else if i.ConnectTo? {
      ConnectSendsNothing(s, i.address, i.port, i.at);
      assert r == ConnectStep(s, i.address, i.port, i.at).state;
    } else if i.MessageArrived? {
      MessageSendsNothing(s, i.data);
      assert r == MessageStep(s, i.data);
    } else if i.SendData? {
      SendSendsNothing(s, i.payload);
      assert r == SendStep(s, i.payload).state;
    } else if i.Close? {
      CloseSendsNothing(s);
      assert r == CloseConnectionStep(s).state;
    } else {
      ChannelCloseSendsNothing(s);
      assert r == ChannelCloseStep(s);
    }
  }

  /** Every input keeps the send budget: the flag never goes back, and a send is
      appended only by the tick that sets it. */
  lemma StepKeepsSendBudget(s: State, i: Input)
    requires Inv(s) && SendBudget(s)
    ensures SendBudget(Step(s, i).state)
    ensures s.hasSentIceGatheringComplete ==> Step(s, i).state.hasSentIceGatheringComplete
  {
    if i.Tick? && TimesOut(s, i.now) {
      TimeoutTickKeepsSendBudget(s, i.engine, i.now);
    } else if i.Tick? {
      IceTickKeepsSendBudget(s, i.engine, i.now);
    } else {
      OtherStepKeepsSendBudget(s, i);
    }
  }

  /** The local description is sent at most once over any sequence of inputs. */
  lemma {:induction false} SendsAtMostOnce(s: State, inputs: seq<Input>)
    requires Inv(s) && SendBudget(s)
    ensures SendBudget(Run(s, inputs)) && CountSends(Run(s, inputs).log) <= 1
    decreases |inputs|
  {
    if inputs != [] {
      StepKeepsSendBudget(s, inputs[0]);
      SendsAtMostOnce(Step(s, inputs[0]).state, inputs[1..]);
    }
  }

  /** A started peer sends its local description at most once in its lifetime. */
  lemma StartedPeerSendsAtMostOnce(config: RTCConfig, mode: RunMode, inputs: seq<Input>)
    ensures CountSends(Run(StartStep(config, mode), inputs).log) <= 1
  {
    SendsAtMostOnce(StartStep(config, mode), inputs);
  }

  /** A client whose relay never connects: when its timeout expires the close
      throws, the peer is not marked timed out, and since the timer has been
      reset, no later input other than Connect marks it timed out. */
  lemma {:induction false} EarlyTimeoutIsLost(config: RTCConfig, address: string, port: int, at: int, e: Engine, now: int, inputs: seq<Input>)
    requires config.timeoutDuration >= 0 && now >= at + config.timeoutDuration
    requires NoConnect(inputs)
    ensures var c := ConnectStep(StartStep(config, Client), address, port, at).state;
      var r := PollStep(c, e, now);
      && r.outcome == Failed(NullPeerConnection) && !r.state.isTimedOut
      && TimeoutTicks(r.state, inputs) == 0 && !Run(r.state, inputs).isTimedOut
  {
    var c := ConnectStep(StartStep(config, Client), address, port, at).state;
    var r := PollStep(c, e, now);
    TimeoutTick(c, e, now);
    TimeoutAtMostOncePerConnect(r.state, inputs);
    OnlyTimeoutTicksSetTimedOut(r.state, inputs);
  }

  /** The timed-out flag is set by nothing but a tick that takes the timeout branch. */
  lemma {:induction false} OnlyTimeoutTicksSetTimedOut(s: State, inputs: seq<Input>)
    requires Inv(s) && TimeoutTicks(s, inputs) == 0
    ensures Run(s, inputs).isTimedOut == s.isTimedOut
    decreases |inputs|
  {
    if inputs != [] {
      StepTimedOut(s, inputs[0]);
      OnlyTimeoutTicksSetTimedOut(Step(s, inputs[0]).state, inputs[1..]);
    }
  }

  // ---------------------------------------------------------------- the peer object

  /** The native peer: one field per field of the source object, the relay
      objects reduced to their presence, the engine's pending operations to the
      description each one carries. */
  class NativeWebRTCPeer {
    const mode: RunMode
    const config: RTCConfig
    var hasSignalingClient: bool
    var hasSignalingServer: bool
    var connectSubscribed: bool
    var answerSubscribed: bool
    var peerConnection: PeerConnection
    var dataChannel: DataChannel
    var timerTimeout: Timer
    var isTimedOut: bool
    var timerIceTrickling: Timer
    var hasSentIceGatheringComplete: bool
    /** The six pending-operation fields (create-offer, set-local-offer,
        set-remote-answer, create-answer, set-remote-offer, set-local-answer). */
    var ops: Slots
    var connectionId: int
    var endPoint: Option<EndPoint>
    var log: seq<Effect>

    function Snapshot(): State
      reads this
    {
      State(mode, config,
            Wiring(hasSignalingClient, hasSignalingServer, connectSubscribed, answerSubscribed),
            peerConnection, dataChannel, timerTimeout, isTimedOut,
            timerIceTrickling, hasSentIceGatheringComplete,
            ops,
            connectionId, endPoint, log)
    }

    predicate Valid()
      reads this
    {
      Inv(Snapshot())
    }

    /** A peer configured and started in the given mode. */
    constructor (config: RTCConfig, mode: RunMode)
      ensures Snapshot() == StartStep(config, mode)
      ensures Valid()
    {
      this.mode := mode;
      this.config := config;
      hasSignalingClient := mode == Client;
      hasSignalingServer := false;
      connectSubscribed := false;
      answerSubscribed := false;
      peerConnection := if mode == Server then Connection(false) else NoPeerConnection;
      dataChannel := NoChannel;
      timerTimeout := NoTimer;
      isTimedOut := false;
      timerIceTrickling := NoTimer;
      hasSentIceGatheringComplete := false;
      ops := NoOps;
      connectionId := 0;
      endPoint := None;
      log := [];
    }

    method Connect(address: string, port: int, now: int) returns (outcome: Outcome)
      requires Valid()
      modifies this
      ensures Result(Snapshot(), outcome) == ConnectStep(old(Snapshot()), address, port, now)
      ensures Valid()
    {
      if !hasSignalingClient {
        return Failed(NullSignalingClient);
      }
      connectSubscribed := true;
      log := log + [SignalingConnecting(address, port)];
      timerTimeout := StartTimer(now, config.timeoutDuration);
      outcome := Ok;
    }

    method SetConnectionId(id: int)
      requires Valid()
      modifies this
      ensures Snapshot() == SetConnectionIdStep(old(Snapshot()), id)
      ensures Valid()
    {
      connectionId := id;
    }

    method SetSignalingServer()
      requires Valid()
      modifies this
      ensures Snapshot() == SetSignalingServerStep(old(Snapshot()))
      ensures Valid()
    {
      hasSignalingServer := true;
    }

    method CloseConnection() returns (outcome: Outcome)
      requires Valid()
      modifies this`peerConnection, this`dataChannel, this`log
      ensures Result(Snapshot(), outcome) == CloseConnectionStep(old(Snapshot()))
      ensures Valid()
    {
      if !peerConnection.Connection? {
        return Failed(NullPeerConnection);
      }
      peerConnection := Connection(true);
      log := log + [PeerConnectionClosed];
      if !dataChannel.NoChannel? {
        dataChannel := CloseChannel(dataChannel);
        log := log + [DataChannelClosed];
      }
      outcome := Ok;
    }

    /** One tick of the host loop, given what the engine reports at `now`. */
    method PollUpdate(e: Engine, now: int) returns (outcome: Outcome)
      requires Valid()
      modifies this
      ensures Result(Snapshot(), outcome) == PollStep(old(Snapshot()), e, now)
      ensures Valid()
    {
      if mode == Client && IsExpired(timerTimeout, now) {
        outcome := PollTimeout(e, now);
        return;
      }
      PollSlots(e, now);
      outcome := PollIceCandidate(e, now);
    }

    /** The timeout branch of a tick: reset the timer, close, mark timed out. */
    method PollTimeout(e: Engine, now: int) returns (outcome: Outcome)
      requires Valid() && TimesOut(Snapshot(), now)
      modifies this`timerTimeout, this`isTimedOut, this`peerConnection, this`dataChannel, this`log
      ensures Result(Snapshot(), outcome) == PollStep(old(Snapshot()), e, now)
      ensures Valid()
    {
      timerTimeout := NoTimer;
      outcome := CloseConnection();
      if outcome.Ok? {
        isTimedOut := true;
      }
    }

    /** The slot polls of a tick: the relay poll and the client slots, or the server slots. */
    method PollSlots(e: Engine, now: int)
      requires Valid()
      modifies this`ops, this`timerIceTrickling, this`log
      ensures Snapshot() == SlotsStep(old(Snapshot()), e, now)
      ensures Valid()
    {
      if mode == Client {
        log := log + [SignalingPolled];
        PollOpCreateOffer(e);
        PollOpSetLocalOffer(e, now);
        PollOpSetRemoteAnswer(e);
      }
      if mode == Server {
        PollOpSetRemoteOffer(e);
        PollOpCreateAnswer(e);
        PollOpSetLocalAnswer(e);
      }
    }

    method PollOpSetLocalAnswer(e: Engine)
      modifies this`ops
      ensures ops == SetLocalAnswerOp(old(ops), e)
    {
      if ops.setAnswerLocal.None? {
        return;
      }
      if e.setAnswerLocalDone {
        ops := ops.(setAnswerLocal := None);
      }
    }

    method PollOpCreateAnswer(e: Engine)
      modifies this`ops
      ensures ops == CreateAnswerOp(old(ops), e)
    {
      if !ops.createAnswer {
        return;
      }
      if e.createAnswerDone {
        ops := ops.(setAnswerLocal := Some(e.createdAnswer), createAnswer := false);
      }
    }

    method PollOpSetRemoteOffer(e: Engine)
      modifies this`ops
      ensures ops == SetRemoteOfferOp(old(ops), e)
    {
      if ops.setOfferRemote.None? {
        return;
      }
      if e.setOfferRemoteDone {
        ops := ops.(createAnswer := true, setOfferRemote := None);
      }
    }

    method PollOpSetLocalOffer(e: Engine, now: int)
      modifies this`ops, this`timerIceTrickling
      ensures ops == SetLocalOfferOp(old(ops), e)
      ensures timerIceTrickling == TrickleAfterSetLocalOffer(old(Snapshot()), old(ops), e, now)
    {
      if ops.setOfferLocal.None? {
        return;
      }
      if e.setOfferLocalDone {
        ops := ops.(setOfferLocal := None);
        if config.iceTrickling.isManual {
          timerIceTrickling := StartTimer(now, config.iceTrickling.duration);
        }
      }
    }

    method PollOpSetRemoteAnswer(e: Engine)
      modifies this`ops
      ensures ops == SetRemoteAnswerOp(old(ops), e)
    {
      if ops.setAnswerRemote.None? {
        return;
      }
      if e.setAnswerRemoteDone {
        ops := ops.(setAnswerRemote := None);
      }
    }

    method PollOpCreateOffer(e: Engine)
      modifies this`ops
      ensures ops == CreateOfferOp(old(ops), e)
    {
      if !ops.createOffer {
        return;
      }
      if e.createOfferDone {
        ops := ops.(setOfferLocal := Some(e.createdOffer), createOffer := false);
      }
    }

    /** The relay client reports that it connected; delivered only to a subscribed handler. */
    method OnClientConnectedToSignalingServer()
      requires Valid()
      modifies this
      ensures Snapshot() == SignalingConnectedStep(old(Snapshot()))
      ensures Valid()
    {
      if !connectSubscribed {
        return;
      }
      peerConnection := Connection(false);
      dataChannel := LocalChannel(Connecting, false, Some(0));
      ops := ops.(createOffer := true);
    }

    method OnReceivedOfferFromClient(offer: string) returns (outcome: Outcome)
      requires Valid()
      modifies this
      ensures Result(Snapshot(), outcome) == ReceivedOfferStep(old(Snapshot()), offer)
      ensures Valid()
    {
      if !peerConnection.Connection? {
        return Failed(NullPeerConnection);
      }
      ops := ops.(setOfferRemote := Some(offer));
      outcome := Ok;
    }

    /** The relay client delivers the server's answer; delivered only to a subscribed handler. */
    method OnServerAnswered(clientId: int, message: string)
      requires Valid()
      modifies this
      ensures Snapshot() == ServerAnsweredStep(old(Snapshot()), clientId, message)
      ensures Valid()
    {
      if !answerSubscribed {
        return;
      }
      connectionId := clientId;
      ops := ops.(setAnswerRemote := Some(message));
    }

    method OnChannelOpen(ep: EndPoint)
      requires Valid()
      modifies this
      ensures Snapshot() == ChannelOpenStep(old(Snapshot()), ep)
      ensures Valid()
    {
      if !dataChannel.LocalChannel? {
        return;
      }
      dataChannel := OpenChannel(dataChannel);
      endPoint := Some(ep);
      timerTimeout := NoTimer;
    }

    method OnChannelClose()
      requires Valid()
      modifies this
      ensures Snapshot() == ChannelCloseStep(old(Snapshot()))
      ensures Valid()
    {
      if dataChannel.NoChannel? {
        return;
      }
      dataChannel := CloseChannel(dataChannel);
      log := log + [ConnectionClosedRaised];
    }

    method OnDataChannel(ep: EndPoint, ready: ChannelState)
      requires Valid()
      modifies this
      ensures Snapshot() == DataChannelStep(old(Snapshot()), ep, ready)
      ensures Valid()
    {
      if !peerConnection.Connection? {
        return;
      }
      dataChannel := RemoteChannel(ready);
      endPoint := Some(ep);
    }

    method OnIceConnectionChange(state: IceConnectionState)
      requires Valid()
      modifies this
      ensures Snapshot() == IceConnectionChangeStep(old(Snapshot()), state)
      ensures Valid()
    {
      if !peerConnection.Connection? {
        return;
      }
      if state == IceConnected {
        timerTimeout := NoTimer;
      }
    }

    method OnMessage(data: Bytes)
      requires Valid()
      modifies this
      ensures Snapshot() == MessageStep(old(Snapshot()), data)
      ensures Valid()
    {
      if dataChannel.NoChannel? {
        return;
      }
      log := log + [MessageRaised(data)];
    }

    method Send(data: Bytes) returns (outcome: Outcome)
      requires Valid()
      modifies this
      ensures Result(Snapshot(), outcome) == SendStep(old(Snapshot()), data)
      ensures Valid()
    {
      if dataChannel.NoChannel? {
        return Failed(NullDataChannel);
      }
      log := log + [DataSent(data)];
      outcome := Ok;
    }

    method PollIceCandidate(e: Engine, now: int) returns (outcome: Outcome)
      requires Valid()
      modifies this`timerIceTrickling, this`hasSentIceGatheringComplete, this`answerSubscribed, this`log
      ensures Result(Snapshot(), outcome) == IceCandidateStep(old(Snapshot()), e, now)
      ensures Valid()
    {
      outcome := Ok;
      if hasSentIceGatheringComplete {
        return;
      }
      if !peerConnection.Connection? {
        return;
      }
      if e.gathering == Complete || IsExpired(timerIceTrickling, now) {
        timerIceTrickling := NoTimer;
        hasSentIceGatheringComplete := true;
        if mode == Client {
          answerSubscribed := true;
          log := log + [OfferSent(e.localDescription)];
        }
        if mode == Server {
          if !hasSignalingServer {
            return Failed(NullSignalingServer);
          }
          log := log + [AnswerSent(connectionId, e.localDescription)];
        }
      }
    }
  }
}
