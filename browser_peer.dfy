/** The browser peer (Runtime/Core/Browser/BrowserWebRTCPeer.cs): the same
    negotiation as the native peer, but the pending operations live on the
    JavaScript side, where set-local and set-remote are single slots shared by
    the offer and the answer steps. There is no trickle window: the local
    description goes out once gathering is complete. */
module BrowserPeer {
  import opened Common

  /** What the JavaScript engine reports during one tick. */
  datatype Engine = Engine(
    createOfferDone: bool, createdOffer: string,
    createAnswerDone: bool, createdAnswer: string,
    setLocalDone: bool,
    setRemoteDone: bool,
    gathering: GatheringState,
    localDescription: string)

  /** The engine's operation slots: create-offer, create-answer, and the shared
      set-local and set-remote slots with the description being set. */
  datatype EngineSlots = EngineSlots(
    createOffer: bool, createAnswer: bool, setLocal: Option<string>, setRemote: Option<string>)

  const NoOps := EngineSlots(false, false, None, None)

  predicate HasPendingOp(p: EngineSlots)
  {
    p.createOffer || p.createAnswer || p.setLocal.Some? || p.setRemote.Some?
  }

  /** The relay client and the handlers attached to it and to the engine. */
  datatype Wiring = Wiring(
    hasSignalingClient: bool,
    connectSubscribed: bool,
    answerSubscribed: bool,
    messageSubscribed: bool)

  datatype State = State(
    mode: RunMode,
    iceServers: seq<string>,
    timeoutDuration: int,
    wiring: Wiring,
    pcCreated: bool,
    channelCreated: bool,
    ops: EngineSlots,
    timerTimeout: Timer,
    isTimedOut: bool,
    sentIceGatheringComplete: bool,
    connectionId: int,
    endPoint: Option<EndPoint>,
    log: seq<Effect>)

  datatype Result = Result(state: State, outcome: Outcome)

  /** What reachable states satisfy: only a client has a relay client and a
      relay-connected handler, engine
      operations exist only on a created peer connection, the answer handler is
      attached only by a client that sent its offer, and the message handler only
      with the client's channel. */
  predicate Inv(s: State)
  {
    (s.wiring.hasSignalingClient <==> s.mode == Client)
    && (s.wiring.connectSubscribed ==> s.mode == Client)
    && (HasPendingOp(s.ops) ==> s.pcCreated)
    && (s.wiring.answerSubscribed ==> s.mode == Client && s.sentIceGatheringComplete && s.pcCreated)
    && (s.wiring.messageSubscribed ==> s.mode == Client && s.channelCreated)
  }

  // ---------------------------------------------------------------- lifecycle

  /** A new peer after SetConfig and Start: a server creates the engine's peer
      connection at once, a client creates its relay client instead. */
  function StartStep(iceServers: seq<string>, timeoutDuration: int, mode: RunMode): (s: State)
    ensures Inv(s) && s.log == [] && !HasPendingOp(s.ops)
    ensures s.pcCreated <==> mode == Server
  {
    State(mode, iceServers, timeoutDuration, Wiring(mode == Client, false, false, false),
          mode == Server, false, NoOps, NoTimer, false, false, 0, None, [])
  }

  /** Connect: attach the relay-connected handler, connect, arm the timeout.
      A server has no relay client and throws before changing anything. */
  function ConnectStep(s: State, address: string, port: int, now: int): Result
  {
    if !s.wiring.hasSignalingClient then Result(s, Failed(NullSignalingClient))
    else Result(s.(wiring := s.wiring.(connectSubscribed := true),
                   log := s.log + [SignalingConnecting(address, port)],
                   timerTimeout := StartTimer(now, s.timeoutDuration)), Ok)
  }

  function SetConnectionIdStep(s: State, id: int): State
  {
    s.(connectionId := id)
  }

  function CloseConnectionStep(s: State): State
  {
    s.(log := s.log + [PeerConnectionClosed])
  }

  function SendStep(s: State, data: Bytes): State
  {
    s.(log := s.log + [DataSent(data)])
  }

  // ---------------------------------------------------------------- callbacks

  /** The relay client connected: create the peer connection and the channel,
      attach the message handler, start creating the offer. */
  function ConnectedToServerStep(s: State): State
  {
    if !s.wiring.connectSubscribed then s
    else s.(pcCreated := true, channelCreated := true,
            wiring := s.wiring.(messageSubscribed := true),
            ops := s.ops.(createOffer := true))
  }

  /** The relay delivered the server's answer: keep the routing id and start
      setting the answer as remote description. */
  function ServerAnsweredStep(s: State, clientId: int, message: string): State
  {
    if !s.wiring.answerSubscribed then s
    else s.(connectionId := clientId, ops := s.ops.(setRemote := Some(message)))
  }

  /** The channel-open and data-channel handlers, attached with the peer
      connection, only record the remote endpoint. */
  function ChannelOpenStep(s: State, ep: EndPoint): State
  {
    if !s.pcCreated then s else s.(endPoint := Some(ep))
  }

  function DataChannelStep(s: State, ep: EndPoint): State
  {
    if !s.pcCreated then s else s.(endPoint := Some(ep))
  }

  function MessageStep(s: State, data: Bytes): State
  {
    if !s.wiring.messageSubscribed then s else s.(log := s.log + [MessageRaised(data)])
  }

  // ---------------------------------------------------------------- the op chain

  function CreateOfferOp(p: EngineSlots, e: Engine): (q: EngineSlots)
    ensures q.(createOffer := p.createOffer, setLocal := p.setLocal) == p
  {
    if p.createOffer && e.createOfferDone then p.(setLocal := Some(e.createdOffer), createOffer := false) else p
  }

  function SetLocalOfferOp(p: EngineSlots, e: Engine): (q: EngineSlots)
    ensures q.(setLocal := p.setLocal) == p
  {
    if p.setLocal.Some? && e.setLocalDone then p.(setLocal := None) else p
  }

  function SetRemoteAnswerOp(p: EngineSlots, e: Engine): (q: EngineSlots)
    ensures q.(setRemote := p.setRemote) == p
  {
    if p.setRemote.Some? && e.setRemoteDone then p.(setRemote := None) else p
  }

  function SetRemoteOfferOp(p: EngineSlots, e: Engine): (q: EngineSlots)
    ensures q.(createAnswer := p.createAnswer, setRemote := p.setRemote) == p
  {
    if p.setRemote.Some? && e.setRemoteDone then p.(createAnswer := true, setRemote := None) else p
  }

  function CreateAnswerOp(p: EngineSlots, e: Engine): (q: EngineSlots)
    ensures q.(createAnswer := p.createAnswer, setLocal := p.setLocal) == p
  {
    if p.createAnswer && e.createAnswerDone then p.(setLocal := Some(e.createdAnswer), createAnswer := false) else p
  }

  function SetLocalAnswerOp(p: EngineSlots, e: Engine): (q: EngineSlots)
    ensures q.(setLocal := p.setLocal) == p
  {
    if p.setLocal.Some? && e.setLocalDone then p.(setLocal := None) else p
  }

  function ClientOps(p: EngineSlots, e: Engine): (q: EngineSlots)
    ensures q.createAnswer == p.createAnswer
  {
    SetRemoteAnswerOp(SetLocalOfferOp(CreateOfferOp(p, e), e), e)
  }

  function ServerOps(p: EngineSlots, e: Engine): (q: EngineSlots)
    ensures q.createOffer == p.createOffer
  {
    SetLocalAnswerOp(CreateAnswerOp(SetRemoteOfferOp(p, e), e), e)
  }

  // ---------------------------------------------------------------- one tick

  /** The tick's ICE check: once the peer connection exists, the first tick
      that sees gathering complete sends the local description. */
  predicate SendDue(s: State, e: Engine)
  {
    s.pcCreated && !s.sentIceGatheringComplete && e.gathering == Complete
  }

  /** A client sends an offer and attaches the answer handler; a server has no
      relay server (nothing ever sets one) and throws after raising the flag. */
  function IceCandidateStep(s: State, e: Engine): (r: Result)
    ensures r.state == s.(sentIceGatheringComplete := r.state.sentIceGatheringComplete,
                          wiring := r.state.wiring, log := r.state.log)
  {
    if !SendDue(s, e) then Result(s, Ok)
    else
      var s1 := s.(sentIceGatheringComplete := true);
      if s.mode == Client then
        Result(s1.(wiring := s.wiring.(answerSubscribed := true), log := s.log + [OfferSent(e.localDescription)]), Ok)
      else Result(s1, Failed(NullSignalingServer))
  }

  predicate TimesOut(s: State, now: int)
  {
    s.mode == Client && IsExpired(s.timerTimeout, now)
  }

  function SlotsStep(s: State, e: Engine): (r: State)
    ensures r == s.(ops := r.ops, log := r.log)
  {
    if s.mode == Client then s.(log := s.log + [SignalingPolled], ops := ClientOps(s.ops, e))
    else s.(ops := ServerOps(s.ops, e))
  }

  /** PollUpdate: one tick. An expired client timeout resets the timer, marks
      the peer timed out, raises the timeout signal and ends the tick. */
  function PollStep(s: State, e: Engine, now: int): Result
  {
    if TimesOut(s, now) then
      Result(s.(timerTimeout := NoTimer, isTimedOut := true, log := s.log + [TimeoutRaised]), Ok)
    else IceCandidateStep(SlotsStep(s, e), e)
  }

  // ---------------------------------------------------------------- traces

  datatype Input =
    | Tick(engine: Engine, now: int)
    | ConnectTo(address: string, port: int, at: int)
    | ConnectedToServer
    | ServerAnswered(clientId: int, message: string)
    | OfferFromClient(offer: string)
    | ChannelOpened(endPoint: EndPoint)
    | DataChannelArrived(remote: EndPoint)
    | MessageArrived(data: Bytes)
    | SetId(id: int)
    | AttachSignalingServer
    | Close
    | SendData(payload: Bytes)

  /** SetSignalingServer and OnReceivedOfferFromClient are not supported by this
      peer: they only log an error. */
  function Step(s: State, i: Input): Result
  {
    match i
    case Tick(e, now) => PollStep(s, e, now)
    case ConnectTo(a, p, now) => ConnectStep(s, a, p, now)
    case ConnectedToServer => Result(ConnectedToServerStep(s), Ok)
    case ServerAnswered(id, m) => Result(ServerAnsweredStep(s, id, m), Ok)
    case OfferFromClient(_) => Result(s, Ok)
    case ChannelOpened(ep) => Result(ChannelOpenStep(s, ep), Ok)
    case DataChannelArrived(ep) => Result(DataChannelStep(s, ep), Ok)
    case MessageArrived(d) => Result(MessageStep(s, d), Ok)
    case SetId(id) => Result(SetConnectionIdStep(s, id), Ok)
    case AttachSignalingServer => Result(s, Ok)
    case Close => Result(CloseConnectionStep(s), Ok)
    case SendData(d) => Result(SendStep(s, d), Ok)
  }

  function Run(s: State, inputs: seq<Input>): (r: State)
    ensures r.mode == s.mode
    decreases |inputs|
  {
    if inputs == [] then s else Run(Step(s, inputs[0]).state, inputs[1..])
  }

  /** The number of Connect calls in a sequence of inputs. */
  function CountConnects(inputs: seq<Input>): (n: nat)
    ensures n <= |inputs|
    decreases |inputs|
  {
    if inputs == [] then 0 else (if inputs[0].ConnectTo? then 1 else 0) + CountConnects(inputs[1..])
  }

  // ---------------------------------------------------------------- lemmas

  /** Every input keeps the invariant. */
  lemma StepKeepsInv(s: State, i: Input)
    requires Inv(s)
    ensures Inv(Step(s, i).state)
  {
    if i.Tick? && !TimesOut(s, i.now) {
      var m := SlotsStep(s, i.engine);
      assert HasPendingOp(m.ops) ==> HasPendingOp(s.ops) || s.pcCreated;
      assert Inv(m);
    }
  }

  lemma {:induction false} RunKeepsInv(s: State, inputs: seq<Input>)
    requires Inv(s)
    ensures Inv(Run(s, inputs))
    decreases |inputs|
  {
    if inputs != [] {
      StepKeepsInv(s, inputs[0]);
      RunKeepsInv(Step(s, inputs[0]).state, inputs[1..]);
    }
  }

  /** An expired client timeout resets the timer, sets the flag and raises the
      timeout signal; nothing else changes and the tick polls nothing. */
  lemma TimeoutTick(s: State, e: Engine, now: int)
    requires TimesOut(s, now)
    ensures PollStep(s, e, now)
            == Result(s.(timerTimeout := NoTimer, isTimedOut := true, log := s.log + [TimeoutRaised]), Ok)
    ensures !TimesOut(PollStep(s, e, now).state, now)
  {
  }

  /** A server's tick never consults the timeout timer: its result does not
      depend on the timer or on the clock, and it leaves the timer and the flag
      as they were. */
  lemma ServerPollIgnoresTimer(s: State, e: Engine, now: int, now': int, t: Timer)
    requires s.mode == Server
    ensures PollStep(s.(timerTimeout := t), e, now').state == PollStep(s, e, now).state.(timerTimeout := t)
    ensures PollStep(s.(timerTimeout := t), e, now').outcome == PollStep(s, e, now).outcome
    ensures PollStep(s, e, now).state.timerTimeout == s.timerTimeout
    ensures PollStep(s, e, now).state.isTimedOut == s.isTimedOut
  {
  }

  /** The shared slots: the client's set-local-offer poll and the server's
      set-local-answer poll are the same operation on the same slot, and both
      remote polls clear the same set-remote slot under the same condition. */
  lemma SharedSlots(p: EngineSlots, e: Engine)
    ensures SetLocalOfferOp(p, e) == SetLocalAnswerOp(p, e)
    ensures SetRemoteOfferOp(p, e).setRemote == SetRemoteAnswerOp(p, e).setRemote
    ensures SetRemoteOfferOp(p, e).createAnswer <==> p.createAnswer || (p.setRemote.Some? && e.setRemoteDone)
  {
  }

  /** The client chain within one tick: create-offer stays pending exactly
      while it is not done, and its offer becomes the local description being
      set; the shared set-local and set-remote slots are cleared when their
      operation is done and kept while it is not; create-answer is left alone. */
  lemma ClientChain(p: EngineSlots, e: Engine)
    ensures var q := ClientOps(p, e);
      var offered := p.createOffer && e.createOfferDone;
      && (q.createOffer <==> p.createOffer && !e.createOfferDone)
      && q.createAnswer == p.createAnswer
      && (q.setLocal.Some? ==> !e.setLocalDone && q.setLocal == (if offered then Some(e.createdOffer) else p.setLocal))
      && (!e.setLocalDone && offered ==> q.setLocal == Some(e.createdOffer))
      && (!e.setLocalDone && !offered ==> q.setLocal == p.setLocal)
      && (e.setLocalDone ==> q.setLocal.None?)
      && q.setRemote == (if e.setRemoteDone then None else p.setRemote)
  {
  }

  /** The server chain within one tick: a completed set-remote starts
      create-answer, which stays pending exactly while it is not done, and its
      answer becomes the local description being set; the shared set-local
      slot is otherwise kept while not done and cleared when done; create-offer
      is left alone. */
  lemma ServerChain(p: EngineSlots, e: Engine)
    ensures var q := ServerOps(p, e);
      var answered := (p.createAnswer || (p.setRemote.Some? && e.setRemoteDone)) && e.createAnswerDone;
      && q.createOffer == p.createOffer
      && q.setRemote == (if e.setRemoteDone then None else p.setRemote)
      && (q.createAnswer <==> (p.createAnswer || (p.setRemote.Some? && e.setRemoteDone)) && !e.createAnswerDone)
      && (q.setLocal.Some? ==> !e.setLocalDone)
      && (q.setLocal.Some? && q.setLocal != p.setLocal ==> answered && q.setLocal == Some(e.createdAnswer))
      && (!e.setLocalDone && answered ==> q.setLocal == Some(e.createdAnswer))
      && (!e.setLocalDone && !answered ==> q.setLocal == p.setLocal)
      && (e.setLocalDone ==> q.setLocal.None?)
  {
  }

  /** The ICE part of a tick: it sends exactly when the peer connection exists,
      nothing has been sent and gathering is complete; a client sends its offer,
      a server throws for want of a relay server. Without a send nothing changes. */
  lemma IceSend(s: State, e: Engine)
    ensures var r := IceCandidateStep(s, e);
      && (SendDue(s, e) && s.mode == Client ==>
            r == Result(s.(sentIceGatheringComplete := true,
                           wiring := s.wiring.(answerSubscribed := true),
                           log := s.log + [OfferSent(e.localDescription)]), Ok))
      && (SendDue(s, e) && s.mode == Server ==>
            r == Result(s.(sentIceGatheringComplete := true), Failed(NullSignalingServer)))
      && (!SendDue(s, e) ==> r == Result(s, Ok))
  {
  }

  /** The sends in the log never exceed what the flag allows, and a server has
      never sent anything. */
  predicate SendBudget(s: State)
  {
    CountSends(s.log) <= (if s.sentIceGatheringComplete && s.mode == Client then 1 else 0)
  }

  lemma TickKeepsSendBudget(s: State, e: Engine, now: int)
    requires SendBudget(s)
    ensures SendBudget(PollStep(s, e, now).state)
    ensures s.sentIceGatheringComplete ==> PollStep(s, e, now).state.sentIceGatheringComplete
    ensures PollStep(s, e, now).state.mode == s.mode
  {
    if TimesOut(s, now) {
      NoSendAppend(s.log, [TimeoutRaised]);
    } else {
      var m := SlotsStep(s, e);
      NoSendAppend(s.log, if s.mode == Client then [SignalingPolled] else []);
      assert SendBudget(m);
      IceSend(m, e);
      if SendDue(m, e) && s.mode == Client {
        CountSendsAppend(m.log, [OfferSent(e.localDescription)]);
      }
    }
  }

  /** The inputs that leave the log, the timer, the flag and the mode alone. */
  predicate Silent(i: Input)
  {
    i.ConnectedToServer? || i.ServerAnswered? || i.OfferFromClient? || i.ChannelOpened?
    || i.DataChannelArrived? || i.SetId? || i.AttachSignalingServer?
  }

  lemma SilentStep(s: State, i: Input)
    requires Silent(i)
    ensures var r := Step(s, i).state;
      r.log == s.log && r.timerTimeout == s.timerTimeout && r.mode == s.mode
      && r.sentIceGatheringComplete == s.sentIceGatheringComplete
  {
  }

  /** Connect, a message, a send and Close append neither a send nor a timeout signal. */
  lemma ConnectCounts(s: State, a: string, p: int, at: int)
    ensures var l := ConnectStep(s, a, p, at).state.log;
      CountSends(l) == CountSends(s.log) && CountTimeouts(l) == CountTimeouts(s.log)
  {
    CountSendsSnoc(s.log, SignalingConnecting(a, p));
    CountTimeoutsSnoc(s.log, SignalingConnecting(a, p));
  }

  lemma MessageCounts(s: State, d: Bytes)
    ensures var l := MessageStep(s, d).log;
      CountSends(l) == CountSends(s.log) && CountTimeouts(l) == CountTimeouts(s.log)
  {
    CountSendsSnoc(s.log, MessageRaised(d));
    CountTimeoutsSnoc(s.log, MessageRaised(d));
  }

  lemma SendCounts(s: State, d: Bytes)
    ensures var l := SendStep(s, d).log;
      CountSends(l) == CountSends(s.log) && CountTimeouts(l) == CountTimeouts(s.log)
  {
    CountSendsSnoc(s.log, DataSent(d));
    CountTimeoutsSnoc(s.log, DataSent(d));
  }

  lemma CloseCounts(s: State)
    ensures var l := CloseConnectionStep(s).log;
      CountSends(l) == CountSends(s.log) && CountTimeouts(l) == CountTimeouts(s.log)
  {
    CountSendsSnoc(s.log, PeerConnectionClosed);
    CountTimeoutsSnoc(s.log, PeerConnectionClosed);
  }

  lemma {:induction false} OtherStepKeepsSendBudget(s: State, i: Input)
    requires SendBudget(s) && !i.Tick?
    ensures SendBudget(Step(s, i).state)
    ensures Step(s, i).state.sentIceGatheringComplete == s.sentIceGatheringComplete
    ensures Step(s, i).state.mode == s.mode
  {
    var r := Step(s, i).state;
    if Silent(i) {
      SilentStep(s, i);
    } else if i.ConnectTo? {
      assert r == ConnectStep(s, i.address, i.port, i.at).state;
      ConnectCounts(s, i.address, i.port, i.at);
    } else if i.MessageArrived? {
      assert r == MessageStep(s, i.data);
      MessageCounts(s, i.data);
    } else if i.SendData? {
      assert r == SendStep(s, i.payload);
      SendCounts(s, i.payload);
    } else {
      assert r == CloseConnectionStep(s);
      CloseCounts(s);
    }
  }

  lemma {:induction false} SendsAtMostOnce(s: State, inputs: seq<Input>)
    requires SendBudget(s)
    ensures SendBudget(Run(s, inputs)) && CountSends(Run(s, inputs).log) <= 1
    decreases |inputs|
  {
    if inputs != [] {
      var i := inputs[0];
      if i.Tick? { TickKeepsSendBudget(s, i.engine, i.now); } else { OtherStepKeepsSendBudget(s, i); }
      SendsAtMostOnce(Step(s, i).state, inputs[1..]);
    }
  }

  /** A started client sends its offer at most once; a started server never
      sends its answer. */
  lemma StartedPeerSends(iceServers: seq<string>, timeoutDuration: int, mode: RunMode, inputs: seq<Input>)
    ensures CountSends(Run(StartStep(iceServers, timeoutDuration, mode), inputs).log)
            <= (if mode == Client then 1 else 0)
  {
    SendsAtMostOnce(StartStep(iceServers, timeoutDuration, mode), inputs);
  }

  /** Raised timeout signals plus an armed timer: only Connect raises this count,
      and by at most one. */
  function TimeoutPotential(s: State): nat
  {
    CountTimeouts(s.log) + (if s.timerTimeout.NoTimer? then 0 else 1)
  }

  /** Only the expired-timeout tick resets the timer (opening the channel does
      not), and only Connect arms it. */
  lemma TimerChanges(s: State, i: Input)
    requires Inv(s)
    ensures var r := Step(s, i).state;
      && (r.timerTimeout != s.timerTimeout ==>
            (i.Tick? && TimesOut(s, i.now) && r.timerTimeout == NoTimer)
            || (i.ConnectTo? && s.mode == Client && r.timerTimeout == StartTimer(i.at, s.timeoutDuration)))
  {
    if i.Tick? && !TimesOut(s, i.now) {
      assert SlotsStep(s, i.engine).timerTimeout == s.timerTimeout;
    }
  }

  lemma TimeoutTickPotential(s: State, e: Engine, now: int)
    requires TimesOut(s, now)
    ensures TimeoutPotential(PollStep(s, e, now).state) == TimeoutPotential(s)
  {
    CountTimeoutsAppend(s.log, [TimeoutRaised]);
  }

  lemma IceTickPotential(s: State, e: Engine, now: int)
    requires !TimesOut(s, now)
    ensures TimeoutPotential(PollStep(s, e, now).state) == TimeoutPotential(s)
  {
    var m := SlotsStep(s, e);
    NoTimeoutAppend(s.log, if s.mode == Client then [SignalingPolled] else []);
    IceSend(m, e);
    if SendDue(m, e) && s.mode == Client {
      NoTimeoutAppend(m.log, [OfferSent(e.localDescription)]);
    }
  }

  lemma {:induction false} StepTimeoutPotential(s: State, i: Input)
    ensures TimeoutPotential(Step(s, i).state) <= TimeoutPotential(s) + (if i.ConnectTo? then 1 else 0)
  {
    var r := Step(s, i).state;
    if i.Tick? && TimesOut(s, i.now) {
      TimeoutTickPotential(s, i.engine, i.now);
    } else if i.Tick? {
      IceTickPotential(s, i.engine, i.now);
    } else if Silent(i) {
      SilentStep(s, i);
    } else if i.ConnectTo? {
      assert r == ConnectStep(s, i.address, i.port, i.at).state;
      ConnectCounts(s, i.address, i.port, i.at);
    } else if i.MessageArrived? {
      assert r == MessageStep(s, i.data);
      MessageCounts(s, i.data);
    } else if i.SendData? {
      assert r == SendStep(s, i.payload);
      SendCounts(s, i.payload);
    } else {
      assert r == CloseConnectionStep(s);
      CloseCounts(s);
    }
  }

  lemma {:induction false} RunTimeoutPotential(s: State, inputs: seq<Input>)
    ensures TimeoutPotential(Run(s, inputs)) <= TimeoutPotential(s) + CountConnects(inputs)
    decreases |inputs|
  {
    if inputs != [] {
      StepTimeoutPotential(s, inputs[0]);
      RunTimeoutPotential(Step(s, inputs[0]).state, inputs[1..]);
    }
  }

  /** The timeout signal fires at most once per Connect over a peer's lifetime. */
  lemma TimeoutsAtMostOncePerConnect(iceServers: seq<string>, timeoutDuration: int, mode: RunMode, inputs: seq<Input>)
    ensures CountTimeouts(Run(StartStep(iceServers, timeoutDuration, mode), inputs).log) <= CountConnects(inputs)
  {
    RunTimeoutPotential(StartStep(iceServers, timeoutDuration, mode), inputs);
  }

  /** The two unsupported calls change nothing. */
  lemma UnsupportedCallsChangeNothing(s: State, offer: string)
    ensures Step(s, AttachSignalingServer) == Result(s, Ok)
    ensures Step(s, OfferFromClient(offer)) == Result(s, Ok)
  {
  }

  // ---------------------------------------------------------------- the peer object

  /** The browser peer as an object. The engine-side flags (peer connection and
      channel created, the operation slots) are fields here because the model
      keeps the JavaScript side's state next to the peer's own. */
  class BrowserWebRTCPeer {
    const mode: RunMode
    const iceServers: seq<string>
    const timeoutDuration: int
    var hasSignalingClient: bool
    var connectSubscribed: bool
    var answerSubscribed: bool
    var messageSubscribed: bool
    var pcCreated: bool
    var channelCreated: bool
    /** The JavaScript side's create-offer, create-answer, set-local and set-remote operations. */
    var ops: EngineSlots
    var timerTimeout: Timer
    var isTimedOut: bool
    var sentIceGatheringComplete: bool
    var connectionId: int
    var endPoint: Option<EndPoint>
    var log: seq<Effect>

    function Snapshot(): State
      reads this
    {
      State(mode, iceServers, timeoutDuration,
            Wiring(hasSignalingClient, connectSubscribed, answerSubscribed, messageSubscribed),
            pcCreated, channelCreated, ops, timerTimeout, isTimedOut,
            sentIceGatheringComplete, connectionId, endPoint, log)
    }

    predicate Valid()
      reads this
    {
      Inv(Snapshot())
    }

    /** A peer configured with SetConfig and started in the given mode. */
    constructor (iceServers: seq<string>, timeoutDuration: int, mode: RunMode)
      ensures Snapshot() == StartStep(iceServers, timeoutDuration, mode)
      ensures Valid()
    {
      this.mode := mode;
      this.iceServers := iceServers;
      this.timeoutDuration := timeoutDuration;
      hasSignalingClient := mode == Client;
      connectSubscribed := false;
      answerSubscribed := false;
      messageSubscribed := false;
      pcCreated := mode == Server;
      channelCreated := false;
      ops := NoOps;
      timerTimeout := NoTimer;
      isTimedOut := false;
      sentIceGatheringComplete := false;
      connectionId := 0;
      endPoint := None;
      log := [];
    }

    method Connect(address: string, port: int, now: int) returns (outcome: Outcome)
      requires Valid()
      modifies this
      ensures Result(Snapshot(), outcome) == ConnectStep(old(Snapshot()), address, port, now)
      ensures Valid()
    {
      if !hasSignalingClient {
        return Failed(NullSignalingClient);
      }
      connectSubscribed := true;
      log := log + [SignalingConnecting(address, port)];
      timerTimeout := StartTimer(now, timeoutDuration);
      outcome := Ok;
    }

    method SetConnectionId(id: int)
      requires Valid()
      modifies this
      ensures Snapshot() == SetConnectionIdStep(old(Snapshot()), id)
      ensures Valid()
    {
      connectionId := id;
    }

    /** Not supported by this peer: it only logs an error. */
    method SetSignalingServer()
      requires Valid()
      ensures Snapshot() == old(Snapshot())
      ensures Valid()
    {
    }

    /** Not supported by this peer: it only logs an error. */
    method OnReceivedOfferFromClient(offer: string)
      requires Valid()
      ensures Snapshot() == old(Snapshot())
      ensures Valid()
    {
    }

    method CloseConnection()
      requires Valid()
      modifies this`log
      ensures Snapshot() == CloseConnectionStep(old(Snapshot()))
      ensures Valid()
    {
      log := log + [PeerConnectionClosed];
    }

    method Send(data: Bytes)
      requires Valid()
      modifies this`log
      ensures Snapshot() == SendStep(old(Snapshot()), data)
      ensures Valid()
    {
      log := log + [DataSent(data)];
    }

    /** One tick of the host loop, given what the engine reports at `now`. */
    method PollUpdate(e: Engine, now: int) returns (outcome: Outcome)
      requires Valid()
      modifies this
      ensures Result(Snapshot(), outcome) == PollStep(old(Snapshot()), e, now)
      ensures Valid()
    {
      if mode == Client {
        if IsExpired(timerTimeout, now) {
          timerTimeout := NoTimer;
          isTimedOut := true;
          log := log + [TimeoutRaised];
          return Ok;
        }
        log := log + [SignalingPolled];
        PollOpCreateOffer(e);
        PollOpSetLocalOffer(e);
        PollOpSetRemoteAnswer(e);
        assert Snapshot() == SlotsStep(old(Snapshot()), e);
      }
      if mode == Server {
        PollOpSetRemoteOffer(e);
        PollOpCreateAnswer(e);
        PollOpSetLocalAnswer(e);
        assert Snapshot() == SlotsStep(old(Snapshot()), e);
      }
      outcome := PollIceCandidate(e);
    }

    method PollOpSetLocalAnswer(e: Engine)
      modifies this`ops
      ensures ops == SetLocalAnswerOp(old(ops), e)
    {
      if ops.setLocal.None? {
        return;
      }
      if e.setLocalDone {
        ops := ops.(setLocal := None);
      }
    }

    method PollOpCreateAnswer(e: Engine)
      modifies this`ops
      ensures ops == CreateAnswerOp(old(ops), e)
    {
      if !ops.createAnswer {
        return;
      }
      if e.createAnswerDone {
        ops := ops.(setLocal := Some(e.createdAnswer), createAnswer := false);
      }
    }

    method PollOpSetRemoteOffer(e: Engine)
      modifies this`ops
      ensures ops == SetRemoteOfferOp(old(ops), e)
    {
      if ops.setRemote.None? {
        return;
      }
      if e.setRemoteDone {
        ops := ops.(createAnswer := true, setRemote := None);
      }
    }

    method PollOpSetLocalOffer(e: Engine)
      modifies this`ops
      ensures ops == SetLocalOfferOp(old(ops), e)
    {
      if ops.setLocal.None? {
        return;
      }
      if e.setLocalDone {
        ops := ops.(setLocal := None);
      }
    }

    method PollOpSetRemoteAnswer(e: Engine)
      modifies this`ops
      ensures ops == SetRemoteAnswerOp(old(ops), e)
    {
      if ops.setRemote.None? {
        return;
      }
      if e.setRemoteDone {
        ops := ops.(setRemote := None);
      }
    }

    method PollOpCreateOffer(e: Engine)
      modifies this`ops
      ensures ops == CreateOfferOp(old(ops), e)
    {
      if !ops.createOffer {
        return;
      }
      if e.createOfferDone {
        ops := ops.(setLocal := Some(e.createdOffer), createOffer := false);
      }
    }

    method PollIceCandidate(e: Engine) returns (outcome: Outcome)
      requires Valid()
      modifies this`sentIceGatheringComplete, this`answerSubscribed, this`log
      ensures Result(Snapshot(), outcome) == IceCandidateStep(old(Snapshot()), e)
      ensures Valid()
    {
      outcome := Ok;
      if !pcCreated {
        return;
      }
      if sentIceGatheringComplete {
        return;
      }
      if e.gathering == Complete {
        sentIceGatheringComplete := true;
        if mode == Client {
          answerSubscribed := true;
          log := log + [OfferSent(e.localDescription)];
        }
        if mode == Server {
          return Failed(NullSignalingServer);
        }
      }
    }

    /** The relay client reports that it connected; delivered only to a subscribed handler. */
    method OnConnectedToServer()
      requires Valid()
      modifies this
      ensures Snapshot() == ConnectedToServerStep(old(Snapshot()))
      ensures Valid()
    {
      if !connectSubscribed {
        return;
      }
      pcCreated := true;
      channelCreated := true;
      messageSubscribed := true;
      ops := ops.(createOffer := true);
    }

    /** The relay client delivers the server's answer; delivered only to a subscribed handler. */
    method OnServerAnswered(clientId: int, message: string)
      requires Valid()
      modifies this
      ensures Snapshot() == ServerAnsweredStep(old(Snapshot()), clientId, message)
      ensures Valid()
    {
      if !answerSubscribed {
        return;
      }
      connectionId := clientId;
      ops := ops.(setRemote := Some(message));
    }

    method OnChannelOpen(ep: EndPoint)
      requires Valid()
      modifies this
      ensures Snapshot() == ChannelOpenStep(old(Snapshot()), ep)
      ensures Valid()
    {
      if !pcCreated {
        return;
      }
      endPoint := Some(ep);
    }

    method OnDataChannel(ep: EndPoint)
      requires Valid()
      modifies this
      ensures Snapshot() == DataChannelStep(old(Snapshot()), ep)
      ensures Valid()
    {
      if !pcCreated {
        return;
      }
      endPoint := Some(ep);
    }

    method OnMessage(data: Bytes)
      requires Valid()
      modifies this
      ensures Snapshot() == MessageStep(old(Snapshot()), data)
      ensures Valid()
    {
      if !messageSubscribed {
        return;
      }
      log := log + [MessageRaised(data)];
    }
  }
}
