/** The older negotiation peer (Runtime/Core/WebRTCPeer.cs), the one the
    connection manager drives. It has the native peer's six operation slots and
    the same chain between them, but no connection timeout and no "sent" flag:
    the local description goes out whenever the trickle timer expires, and the
    timer is armed when a local description has been set (the offer on a
    client, the answer on a server). Every peer creates a relay client. */
module LegacyPeer {
  import opened Common
  import NativePeer

  /** What the engine reports during one tick; the gathering state in it is
      never consulted by this peer. */
  type Engine = NativePeer.Engine

  /** The six operation slots, as in the native peer. */
  type Slots = NativePeer.Slots

  /** The relay server handed in by the owner and the handlers attached to the
      relay client. */
  datatype Wiring = Wiring(
    hasSignalingServer: bool,
    connectSubscribed: bool,
    answerSubscribed: bool)

  datatype State = State(
    mode: RunMode,
    iceServers: seq<string>,
    tricklingDuration: int,
    wiring: Wiring,
    peerConnection: PeerConnection,
    dataChannel: DataChannel,
    timerTrickling: Timer,
    ops: Slots,
    connectionId: int,
    endPoint: Option<EndPoint>,
    log: seq<Effect>)

  datatype Result = Result(state: State, outcome: Outcome)

  /** What reachable states satisfy: pending operations, an armed trickle
      timer, the answer handler and the data channel all belong to an existing
      peer connection. */
  predicate Inv(s: State)
  {
    (NativePeer.HasPendingOp(s.ops) ==> s.peerConnection.Connection?)
    && (s.timerTrickling.Deadline? ==> s.peerConnection.Connection?)
    && (s.wiring.answerSubscribed ==> s.peerConnection.Connection?)
    && (!s.dataChannel.NoChannel? ==> s.peerConnection.Connection?)
  }

  /** Open exactly when a data channel exists and the engine reports it Open. */
  predicate IsConnectionOpen(s: State)
  {
    ChannelIsOpen(s.dataChannel)
  }

  // ---------------------------------------------------------------- lifecycle

  /** A new peer after SetConfig and Start: both roles get a relay client; only
      a server constructs its peer connection up front. */
  function StartStep(iceServers: seq<string>, tricklingDuration: int, mode: RunMode): (s: State)
    ensures Inv(s) && s.log == [] && !NativePeer.HasPendingOp(s.ops)
    ensures s.peerConnection.Connection? <==> mode == Server
    ensures !s.peerConnection.Connection? || !s.peerConnection.closed
    ensures s.dataChannel.NoChannel? && s.timerTrickling.NoTimer? && !IsConnectionOpen(s)
  {
    State(mode, iceServers, tricklingDuration, Wiring(false, false, false),
          if mode == Server then Connection(false) else NoPeerConnection, NoChannel,
          NoTimer, NativePeer.NoOps, 0, None, [])
  }

  /** Connect: attach the relay-connected handler, start and connect the relay
      client. The relay client always exists, so this never throws. */
  function ConnectStep(s: State, address: string, port: int): State
  {
    s.(wiring := s.wiring.(connectSubscribed := true), log := s.log + [SignalingConnecting(address, port)])
  }

  function SetConnectionIdStep(s: State, id: int): State
  {
    s.(connectionId := id)
  }

  function SetSignalingServerStep(s: State): State
  {
    s.(wiring := s.wiring.(hasSignalingServer := true))
  }

  /** CloseConnection: close the peer connection, then the data channel, then
      stop the relay server; each step throws when its object is missing, and
      what came before it stays done. */
  function CloseConnectionStep(s: State): (r: Result)
    ensures r.state == s.(peerConnection := r.state.peerConnection, dataChannel := r.state.dataChannel, log := r.state.log)
  {
    if !s.peerConnection.Connection? then Result(s, Failed(NullPeerConnection))
    else
      var s1 := s.(peerConnection := Connection(true), log := s.log + [PeerConnectionClosed]);
      if s1.dataChannel.NoChannel? then Result(s1, Failed(NullDataChannel))
      else
        var s2 := s1.(dataChannel := CloseChannel(s1.dataChannel), log := s1.log + [DataChannelClosed]);
        if !s.wiring.hasSignalingServer then Result(s2, Failed(NullSignalingServer))
        else Result(s2.(log := s2.log + [SignalingServerStopped]), Ok)
  }

  function SendStep(s: State, data: Bytes): Result
  {
    if s.dataChannel.NoChannel? then Result(s, Failed(NullDataChannel))
    else Result(s.(log := s.log + [DataSent(data)]), Ok)
  }

  // ---------------------------------------------------------------- callbacks

  /** The relay client connected: construct the peer connection, create an
      ordered channel with default reliability, and start creating the offer. */
  function SignalingConnectedStep(s: State): State
  {
    if !s.wiring.connectSubscribed then s
    else s.(peerConnection := Connection(false),
            dataChannel := LocalChannel(Connecting, true, None),
            ops := s.ops.(createOffer := true))
  }

  /** The owner hands in a client's offer: start setting it as remote
      description. Without a peer connection this throws. */
  function ClientOfferedStep(s: State, offer: string): Result
  {
    if !s.peerConnection.Connection? then Result(s, Failed(NullPeerConnection))
    else Result(s.(ops := s.ops.(setOfferRemote := Some(offer))), Ok)
  }

  /** The relay delivered the server's answer: keep the routing id and start
      setting the answer as remote description. */
  function ServerAnsweredStep(s: State, clientId: int, message: string): State
  {
    if !s.wiring.answerSubscribed then s
    else s.(connectionId := clientId, ops := s.ops.(setAnswerRemote := Some(message)))
  }

  /** The locally created channel opened (its open handler only records the endpoint). */
  function ChannelOpenStep(s: State, ep: EndPoint): State
  {
    if !s.dataChannel.LocalChannel? then s
    else s.(dataChannel := OpenChannel(s.dataChannel), endPoint := Some(ep))
  }

  /** The locally created channel closed; its close handler does nothing. */
  function ChannelCloseStep(s: State): State
  {
    if !s.dataChannel.LocalChannel? then s else s.(dataChannel := CloseChannel(s.dataChannel))
  }

  /** The remote side's channel arrived on the peer connection. */
  function DataChannelStep(s: State, ep: EndPoint, ready: ChannelState): State
  {
    if !s.peerConnection.Connection? then s
    else s.(dataChannel := RemoteChannel(ready), endPoint := Some(ep))
  }

  /** A message on the channel raises the message event. */
  function MessageStep(s: State, data: Bytes): State
  {
    if s.dataChannel.NoChannel? then s else s.(log := s.log + [MessageRaised(data)])
  }

  // ---------------------------------------------------------------- one tick

  predicate SetLocalAnswerCompletes(p: Slots, e: Engine)
  {
    p.setAnswerLocal.Some? && e.setAnswerLocalDone
  }

  /** Whether this tick's slot polls complete setting the local description,
      which arms the trickle timer: the offer on a client, the answer on a server. */
  predicate ArmsTrickle(s: State, e: Engine)
  {
    if s.mode == Client then NativePeer.SetLocalOfferCompletes(NativePeer.CreateOfferOp(s.ops, e), e)
    else SetLocalAnswerCompletes(NativePeer.CreateAnswerOp(NativePeer.SetRemoteOfferOp(s.ops, e), e), e)
  }

  /** The slot polls of a tick: the relay poll and the client slots for a
      client, the server slots for a server; a completed set-local arms the
      trickle timer. */
  function SlotsStep(s: State, e: Engine, now: int): (r: State)
    ensures r == s.(ops := r.ops, timerTrickling := r.timerTrickling, log := r.log)
  {
    var t := if ArmsTrickle(s, e) then StartTimer(now, s.tricklingDuration) else s.timerTrickling;
    if s.mode == Client then
      s.(log := s.log + [SignalingPolled], ops := NativePeer.ClientOps(s.ops, e), timerTrickling := t)
    else s.(ops := NativePeer.ServerOps(s.ops, e), timerTrickling := t)
  }

  /** The tick's ICE check: only an expired trickle timer sends, and it is
      reset first. A client sends its offer and attaches the answer handler; a
      server sends its answer to the routing id through the relay server. */
  function IceCandidateStep(s: State, e: Engine, now: int): (r: Result)
    ensures r.state == s.(timerTrickling := r.state.timerTrickling,
                          wiring := r.state.wiring, log := r.state.log)
  {
    if !IsExpired(s.timerTrickling, now) then Result(s, Ok)
    else
      var s1 := s.(timerTrickling := NoTimer);
      if !s.peerConnection.Connection? then Result(s1, Failed(NullPeerConnection))
      else if s.mode == Client then
        Result(s1.(wiring := s.wiring.(answerSubscribed := true), log := s.log + [OfferSent(e.localDescription)]), Ok)
      else if s.wiring.hasSignalingServer then
        Result(s1.(log := s.log + [AnswerSent(s.connectionId, e.localDescription)]), Ok)
      else Result(s1, Failed(NullSignalingServer))
  }

  /** PollUpdate (reached through TriggerUpdate): the slot polls, then ICE. */
  function PollStep(s: State, e: Engine, now: int): Result
  {
    IceCandidateStep(SlotsStep(s, e, now), e, now)
  }

  // ---------------------------------------------------------------- traces

  datatype Input =
    | Tick(engine: Engine, now: int)
    | ConnectTo(address: string, port: int)
    | SignalingConnected
    | ClientOffered(offer: string)
    | ServerAnswered(clientId: int, message: string)
    | ChannelOpened(endPoint: EndPoint)
    | ChannelClosed
    | DataChannelArrived(remote: EndPoint, ready: ChannelState)
    | MessageArrived(data: Bytes)
    | SetId(id: int)
    | AttachSignalingServer
    | Close
    | SendData(payload: Bytes)

  function Step(s: State, i: Input): Result
  {
    match i
    case Tick(e, now) => PollStep(s, e, now)
    case ConnectTo(a, p) => Result(ConnectStep(s, a, p), Ok)
    case SignalingConnected => Result(SignalingConnectedStep(s), Ok)
    case ClientOffered(o) => ClientOfferedStep(s, o)
    case ServerAnswered(id, m) => Result(ServerAnsweredStep(s, id, m), Ok)
    case ChannelOpened(ep) => Result(ChannelOpenStep(s, ep), Ok)
    case ChannelClosed => Result(ChannelCloseStep(s), Ok)
    case DataChannelArrived(ep, ready) => Result(DataChannelStep(s, ep, ready), Ok)
    case MessageArrived(d) => Result(MessageStep(s, d), Ok)
    case SetId(id) => Result(SetConnectionIdStep(s, id), Ok)
    case AttachSignalingServer => Result(SetSignalingServerStep(s), Ok)
    case Close => CloseConnectionStep(s)
    case SendData(d) => SendStep(s, d)
  }

  function Run(s: State, inputs: seq<Input>): (r: State)
    decreases |inputs|
  {
    if inputs == [] then s else Run(Step(s, inputs[0]).state, inputs[1..])
  }

  /** The number of ticks along a run whose slot polls arm the trickle timer. */
  function Armings(s: State, inputs: seq<Input>): (n: nat)
    ensures n <= |inputs|
    decreases |inputs|
  {
    if inputs == [] then 0
    else (if inputs[0].Tick? && ArmsTrickle(s, inputs[0].engine) then 1 else 0)
         + Armings(Step(s, inputs[0]).state, inputs[1..])
  }

  // ---------------------------------------------------------------- lemmas

  lemma SlotsKeepInv(s: State, e: Engine, now: int)
    requires Inv(s)
    ensures Inv(SlotsStep(s, e, now))
  {
    var m := SlotsStep(s, e, now);
    assert NativePeer.HasPendingOp(m.ops) ==> NativePeer.HasPendingOp(s.ops);
    assert ArmsTrickle(s, e) ==> NativePeer.HasPendingOp(s.ops);
  }

  /** Every input keeps the invariant. */
  lemma StepKeepsInv(s: State, i: Input)
    requires Inv(s)
    ensures Inv(Step(s, i).state)
  {
    if i.Tick? {
      SlotsKeepInv(s, i.engine, i.now);
    }
  }

  lemma {:induction false} RunKeepsInv(s: State, inputs: seq<Input>)
    requires Inv(s)
    ensures Inv(Run(s, inputs))
    decreases |inputs|
  {
    if inputs != [] {
      StepKeepsInv(s, inputs[0]);
      RunKeepsInv(Step(s, inputs[0]).state, inputs[1..]);
    }
  }

  /** A client's tick runs the relay poll and touches only the client slots; a
      server's tick touches only the server slots. */
  lemma PollTouchesOwnSlots(s: State, e: Engine, now: int)
    ensures var m := SlotsStep(s, e, now);
      s.mode == Client ==> m.ops == NativePeer.ClientOps(s.ops, e) && m.log == s.log + [SignalingPolled]
                           && NativePeer.ServerPart(m.ops) == NativePeer.ServerPart(s.ops)
    ensures var m := SlotsStep(s, e, now);
      s.mode == Server ==> m.ops == NativePeer.ServerOps(s.ops, e) && m.log == s.log
                           && NativePeer.ClientPart(m.ops) == NativePeer.ClientPart(s.ops)
  {
  }

  /** The trickle timer is armed only when set-local completes in a tick, and
      then for the configured duration from that tick; a client arms it only on
      the offer and a server only on the answer. */
  lemma TrickleArming(s: State, e: Engine, now: int)
    ensures var m := SlotsStep(s, e, now);
      m.timerTrickling != s.timerTrickling ==>
        ArmsTrickle(s, e) && m.timerTrickling == StartTimer(now, s.tricklingDuration)
    ensures ArmsTrickle(s, e) ==> SlotsStep(s, e, now).timerTrickling == StartTimer(now, s.tricklingDuration)
    ensures s.mode == Client && ArmsTrickle(s, e) ==>
      NativePeer.CreateOfferOp(s.ops, e).setOfferLocal.Some? && e.setOfferLocalDone
    ensures s.mode == Server && ArmsTrickle(s, e) ==>
      NativePeer.CreateAnswerOp(NativePeer.SetRemoteOfferOp(s.ops, e), e).setAnswerLocal.Some? && e.setAnswerLocalDone
  {
  }

  /** The only send trigger is an expired trickle timer: the ICE check sends
      at most one description, and exactly when the timer was expired (for a
      client with a peer connection, or a server with a relay server); the
      timer is then reset. */
  lemma IceSendsOnExpiry(s: State, e: Engine, now: int)
    ensures var r := IceCandidateStep(s, e, now);
      && (!IsExpired(s.timerTrickling, now) ==> r == Result(s, Ok))
      && (IsExpired(s.timerTrickling, now) ==> r.state.timerTrickling == NoTimer)
      && (IsExpired(s.timerTrickling, now) && s.peerConnection.Connection? && s.mode == Client ==>
            r == Result(s.(timerTrickling := NoTimer, wiring := s.wiring.(answerSubscribed := true),
                           log := s.log + [OfferSent(e.localDescription)]), Ok))
      && (IsExpired(s.timerTrickling, now) && s.peerConnection.Connection? && s.mode == Server
          && s.wiring.hasSignalingServer ==>
            r == Result(s.(timerTrickling := NoTimer, log := s.log + [AnswerSent(s.connectionId, e.localDescription)]), Ok))
      && (IsExpired(s.timerTrickling, now) && s.peerConnection.Connection? && s.mode == Server
          && !s.wiring.hasSignalingServer ==>
            r == Result(s.(timerTrickling := NoTimer), Failed(NullSignalingServer)))
  {
  }

  /** No gathering-state check: a tick's result does not depend on the
      gathering state the engine reports. */
  lemma PollIgnoresGathering(s: State, e: Engine, now: int, g: GatheringState)
    ensures PollStep(s, e.(gathering := g), now) == PollStep(s, e, now)
  {
    var e' := e.(gathering := g);
    SlotsIgnoreGathering(s.ops, e, g);
    assert ArmsTrickle(s, e') == ArmsTrickle(s, e);
    assert SlotsStep(s, e', now) == SlotsStep(s, e, now);
  }

  lemma SlotsIgnoreGathering(p: Slots, e: Engine, g: GatheringState)
    ensures var e' := e.(gathering := g);
      && NativePeer.CreateOfferOp(p, e') == NativePeer.CreateOfferOp(p, e)
      && NativePeer.SetRemoteOfferOp(p, e') == NativePeer.SetRemoteOfferOp(p, e)
      && NativePeer.CreateAnswerOp(NativePeer.SetRemoteOfferOp(p, e), e') == NativePeer.CreateAnswerOp(NativePeer.SetRemoteOfferOp(p, e), e)
      && NativePeer.ClientOps(p, e') == NativePeer.ClientOps(p, e)
      && NativePeer.ServerOps(p, e') == NativePeer.ServerOps(p, e)
  {
  }

  /** The relay callbacks: an offer from a client fills set-remote-offer, the
      server's answer (once the answer handler is attached) keeps the routing
      id and fills set-remote-answer; no other slot changes. */
  lemma RemoteDescriptionSlots(s: State, offer: string, clientId: int, answer: string)
    ensures s.peerConnection.Connection? ==>
      ClientOfferedStep(s, offer) == Result(s.(ops := s.ops.(setOfferRemote := Some(offer))), Ok)
    ensures !s.peerConnection.Connection? ==> ClientOfferedStep(s, offer) == Result(s, Failed(NullPeerConnection))
    ensures s.wiring.answerSubscribed ==>
      ServerAnsweredStep(s, clientId, answer)
        == s.(connectionId := clientId, ops := s.ops.(setAnswerRemote := Some(answer)))
    ensures !s.wiring.answerSubscribed ==> ServerAnsweredStep(s, clientId, answer) == s
  {
  }

  /** Closing a fully wired peer closes the peer connection and the data
      channel and stops the relay server, in that order; the peer is no longer
      open afterwards. */
  lemma CloseSequence(s: State)
    requires s.peerConnection.Connection? && !s.dataChannel.NoChannel? && s.wiring.hasSignalingServer
    ensures var r := CloseConnectionStep(s);
      && r.outcome == Ok
      && r.state.log == s.log + [PeerConnectionClosed, DataChannelClosed, SignalingServerStopped]
      && r.state.peerConnection == Connection(true)
      && !IsConnectionOpen(r.state)
  {
  }

  /** The channel is open after its open handler ran, and no longer after it closed. */
  lemma ChannelOpenClose(s: State, ep: EndPoint)
    ensures s.dataChannel.LocalChannel? ==>
      IsConnectionOpen(ChannelOpenStep(s, ep)) && ChannelOpenStep(s, ep).endPoint == Some(ep)
    ensures s.dataChannel.LocalChannel? ==> !IsConnectionOpen(ChannelCloseStep(s))
    ensures !s.dataChannel.LocalChannel? ==> ChannelOpenStep(s, ep) == s && ChannelCloseStep(s) == s
  {
  }

  /** Sends in the log plus an armed timer: a tick raises this only by
      arming the timer, and every other input leaves it alone. */
  function SendPotential(s: State): nat
  {
    CountSends(s.log) + (if s.timerTrickling.Deadline? then 1 else 0)
  }

  lemma SlotsPotential(s: State, e: Engine, now: int)
    ensures SendPotential(SlotsStep(s, e, now)) <= SendPotential(s) + (if ArmsTrickle(s, e) then 1 else 0)
  {
    CountSendsSnoc(s.log, SignalingPolled);
  }

  lemma IcePotential(s: State, e: Engine, now: int)
    ensures SendPotential(IceCandidateStep(s, e, now).state) <= SendPotential(s)
  {
    if IsExpired(s.timerTrickling, now) && s.peerConnection.Connection? {
      if s.mode == Client {
        CountSendsAppend(s.log, [OfferSent(e.localDescription)]);
      } else if s.wiring.hasSignalingServer {
        CountSendsAppend(s.log, [AnswerSent(s.connectionId, e.localDescription)]);
      }
    }
  }

  /** The inputs that leave the log and the trickle timer alone. */
  predicate Silent(i: Input)
  {
    i.SignalingConnected? || i.ClientOffered? || i.ServerAnswered? || i.ChannelOpened?
    || i.ChannelClosed? || i.DataChannelArrived? || i.SetId? || i.AttachSignalingServer?
  }

  lemma SilentStep(s: State, i: Input)
    requires Silent(i)
    ensures Step(s, i).state.log == s.log && Step(s, i).state.timerTrickling == s.timerTrickling
  {
  }

  /** Connect, a message, a send and Close append no send. */
  lemma ConnectSendsNothing(s: State, a: string, p: int)
    ensures CountSends(ConnectStep(s, a, p).log) == CountSends(s.log)
  {
    CountSendsSnoc(s.log, SignalingConnecting(a, p));
  }

  lemma MessageSendsNothing(s: State, d: Bytes)
    ensures CountSends(MessageStep(s, d).log) == CountSends(s.log)
  {
    CountSendsSnoc(s.log, MessageRaised(d));
  }

  lemma SendSendsNothing(s: State, d: Bytes)
    ensures CountSends(SendStep(s, d).state.log) == CountSends(s.log)
  {
    CountSendsSnoc(s.log, DataSent(d));
  }

  lemma CloseSendsNothing(s: State)
    ensures CountSends(CloseConnectionStep(s).state.log) == CountSends(s.log)
  {
    var l1 := s.log + [PeerConnectionClosed];
    var l2 := l1 + [DataChannelClosed];
    CountSendsSnoc(s.log, PeerConnectionClosed);
    CountSendsSnoc(l1, DataChannelClosed);
    CountSendsSnoc(l2, SignalingServerStopped);
  }

  lemma {:induction false} StepPotential(s: State, i: Input)
    ensures SendPotential(Step(s, i).state)
            <= SendPotential(s) + (if i.Tick? && ArmsTrickle(s, i.engine) then 1 else 0)
  {
    var r := Step(s, i).state;
    if i.Tick? {
      SlotsPotential(s, i.engine, i.now);
      IcePotential(SlotsStep(s, i.engine, i.now), i.engine, i.now);
    } else if Silent(i) {
      SilentStep(s, i);
    } else if i.ConnectTo? {
      assert r == ConnectStep(s, i.address, i.port);
      ConnectSendsNothing(s, i.address, i.port);
    } else if i.MessageArrived? {
      assert r == MessageStep(s, i.data);
      MessageSendsNothing(s, i.data);
    } else if i.SendData? {
      assert r == SendStep(s, i.payload).state;
      SendSendsNothing(s, i.payload);
    } else {
      assert r == CloseConnectionStep(s).state;
      CloseSendsNothing(s);
    }
  }

  lemma {:induction false} RunPotential(s: State, inputs: seq<Input>)
    ensures SendPotential(Run(s, inputs)) <= SendPotential(s) + Armings(s, inputs)
    decreases |inputs|
  {
    if inputs != [] {
      StepPotential(s, inputs[0]);
      RunPotential(Step(s, inputs[0]).state, inputs[1..]);
    }
  }

  /** One send per arming: over any run of a started peer, the descriptions
      sent never outnumber the ticks that armed the trickle timer. */
  lemma SendsPerArming(iceServers: seq<string>, tricklingDuration: int, mode: RunMode, inputs: seq<Input>)
    ensures CountSends(Run(StartStep(iceServers, tricklingDuration, mode), inputs).log)
            <= Armings(StartStep(iceServers, tricklingDuration, mode), inputs)
  {
    RunPotential(StartStep(iceServers, tricklingDuration, mode), inputs);
  }

  // ---------------------------------------------------------------- the peer object

  /** The older peer as an object: one field per field of the source object,
      the relay objects reduced to their presence and the engine's pending
      operations to the description each one carries. */
  class WebRTCPeer {
    const mode: RunMode
    const iceServers: seq<string>
    const tricklingDuration: int
    var hasSignalingServer: bool
    var connectSubscribed: bool
    var answerSubscribed: bool
    var peerConnection: PeerConnection
    var dataChannel: DataChannel
    var timerTrickling: Timer
    /** The six pending-operation fields. */
    var ops: Slots
    var connectionId: int
    var endPoint: Option<EndPoint>
    var log: seq<Effect>

    function Snapshot(): State
      reads this
    {
      State(mode, iceServers, tricklingDuration,
            Wiring(hasSignalingServer, connectSubscribed, answerSubscribed),
            peerConnection, dataChannel, timerTrickling, ops, connectionId, endPoint, log)
    }

    predicate Valid()
      reads this
    {
      Inv(Snapshot())
    }

    /** A peer configured with SetConfig and started in the given mode. */
    constructor (iceServers: seq<string>, tricklingDuration: int, mode: RunMode)
      ensures Snapshot() == StartStep(iceServers, tricklingDuration, mode)
      ensures Valid()
    {
      this.mode := mode;
      this.iceServers := iceServers;
      this.tricklingDuration := tricklingDuration;
      hasSignalingServer := false;
      connectSubscribed := false;
      answerSubscribed := false;
      peerConnection := if mode == Server then Connection(false) else NoPeerConnection;
      dataChannel := NoChannel;
      timerTrickling := NoTimer;
      ops := NativePeer.NoOps;
      connectionId := 0;
      endPoint := None;
      log := [];
    }

    method Connect(address: string, port: int)
      requires Valid()
      modifies this
      ensures Snapshot() == ConnectStep(old(Snapshot()), address, port)
      ensures Valid()
    {
      connectSubscribed := true;
      log := log + [SignalingConnecting(address, port)];
    }

    method SetConnectionId(id: int)
      requires Valid()
      modifies this
      ensures Snapshot() == SetConnectionIdStep(old(Snapshot()), id)
      ensures Valid()
    {
      connectionId := id;
    }

    method SetSignalingServer()
      requires Valid()
      modifies this
      ensures Snapshot() == SetSignalingServerStep(old(Snapshot()))
      ensures Valid()
    {
      hasSignalingServer := true;
    }

    method CloseConnection() returns (outcome: Outcome)
      requires Valid()
      modifies this`peerConnection, this`dataChannel, this`log
      ensures Result(Snapshot(), outcome) == CloseConnectionStep(old(Snapshot()))
      ensures Valid()
    {
      if !peerConnection.Connection? {
        return Failed(NullPeerConnection);
      }
      peerConnection := Connection(true);
      log := log + [PeerConnectionClosed];
      if dataChannel.NoChannel? {
        return Failed(NullDataChannel);
      }
      dataChannel := CloseChannel(dataChannel);
      log := log + [DataChannelClosed];
      if !hasSignalingServer {
        return Failed(NullSignalingServer);
      }
      log := log + [SignalingServerStopped];
      outcome := Ok;
    }

    /** The owner's per-tick entry point; it runs PollUpdate. */
    method TriggerUpdate(e: Engine, now: int) returns (outcome: Outcome)
      requires Valid()
      modifies this
      ensures Result(Snapshot(), outcome) == PollStep(old(Snapshot()), e, now)
      ensures Valid()
    {
      outcome := PollUpdate(e, now);
    }

    method PollUpdate(e: Engine, now: int) returns (outcome: Outcome)
      requires Valid()
      modifies this
      ensures Result(Snapshot(), outcome) == PollStep(old(Snapshot()), e, now)
      ensures Valid()
    {
      if mode == Client {
        log := log + [SignalingPolled];
        PollOpCreateOffer(e);
        PollOpSetLocalOffer(e, now);
        PollOpSetRemoteAnswer(e);
        assert Snapshot() == SlotsStep(old(Snapshot()), e, now);
      }
      if mode == Server {
        PollOpSetRemoteOffer(e);
        PollOpCreateAnswer(e);
        PollOpSetLocalAnswer(e, now);
        assert Snapshot() == SlotsStep(old(Snapshot()), e, now);
      }
      SlotsKeepInv(old(Snapshot()), e, now);
      outcome := PollIceCandidate(e, now);
    }

    method PollOpSetLocalAnswer(e: Engine, now: int)
      modifies this`ops, this`timerTrickling
      ensures ops == NativePeer.SetLocalAnswerOp(old(ops), e)
      ensures timerTrickling == if SetLocalAnswerCompletes(old(ops), e) then StartTimer(now, tricklingDuration) else old(timerTrickling)
    {
      if ops.setAnswerLocal.None? {
        return;
      }
      if e.setAnswerLocalDone {
        timerTrickling := StartTimer(now, tricklingDuration);
        ops := ops.(setAnswerLocal := None);
      }
    }

    method PollOpCreateAnswer(e: Engine)
      modifies this`ops
      ensures ops == NativePeer.CreateAnswerOp(old(ops), e)
    {
      if !ops.createAnswer {
        return;
      }
      if e.createAnswerDone {
        ops := ops.(setAnswerLocal := Some(e.createdAnswer), createAnswer := false);
      }
    }

    method PollOpSetRemoteOffer(e: Engine)
      modifies this`ops
      ensures ops == NativePeer.SetRemoteOfferOp(old(ops), e)
    {
      if ops.setOfferRemote.None? {
        return;
      }
      if e.setOfferRemoteDone {
        ops := ops.(createAnswer := true, setOfferRemote := None);
      }
    }

    method PollOpSetLocalOffer(e: Engine, now: int)
      modifies this`ops, this`timerTrickling
      ensures ops == NativePeer.SetLocalOfferOp(old(ops), e)
      ensures timerTrickling == if NativePeer.SetLocalOfferCompletes(old(ops), e) then StartTimer(now, tricklingDuration) else old(timerTrickling)
    {
      if ops.setOfferLocal.None? {
        return;
      }
      if e.setOfferLocalDone {
        timerTrickling := StartTimer(now, tricklingDuration);
        ops := ops.(setOfferLocal := None);
      }
    }

    method PollOpSetRemoteAnswer(e: Engine)
      modifies this`ops
      ensures ops == NativePeer.SetRemoteAnswerOp(old(ops), e)
    {
      if ops.setAnswerRemote.None? {
        return;
      }
      if e.setAnswerRemoteDone {
        ops := ops.(setAnswerRemote := None);
      }
    }

    method PollOpCreateOffer(e: Engine)
      modifies this`ops
      ensures ops == NativePeer.CreateOfferOp(old(ops), e)
    {
      if !ops.createOffer {
        return;
      }
      if e.createOfferDone {
        ops := ops.(setOfferLocal := Some(e.createdOffer), createOffer := false);
      }
    }

    method PollIceCandidate(e: Engine, now: int) returns (outcome: Outcome)
      requires Valid()
      modifies this`timerTrickling, this`answerSubscribed, this`log
      ensures Result(Snapshot(), outcome) == IceCandidateStep(old(Snapshot()), e, now)
      ensures Valid()
    {
      outcome := Ok;
      if IsExpired(timerTrickling, now) {
        timerTrickling := NoTimer;
        if !peerConnection.Connection? {
          return Failed(NullPeerConnection);
        }
        if mode == Client {
          answerSubscribed := true;
          log := log + [OfferSent(e.localDescription)];
        }
        if mode == Server {
          if !hasSignalingServer {
            return Failed(NullSignalingServer);
          }
          log := log + [AnswerSent(connectionId, e.localDescription)];
        }
      }
    }

    /** The relay client reports that it connected; delivered only to a subscribed handler. */
    method OnClientConnectedToSignalingServer()
      requires Valid()
      modifies this
      ensures Snapshot() == SignalingConnectedStep(old(Snapshot()))
      ensures Valid()
    {
      if !connectSubscribed {
        return;
      }
      peerConnection := Connection(false);
      dataChannel := LocalChannel(Connecting, true, None);
      ops := ops.(createOffer := true);
    }

    method OnClientOffered(offer: string) returns (outcome: Outcome)
      requires Valid()
      modifies this
      ensures Result(Snapshot(), outcome) == ClientOfferedStep(old(Snapshot()), offer)
      ensures Valid()
    {
      if !peerConnection.Connection? {
        return Failed(NullPeerConnection);
      }
      ops := ops.(setOfferRemote := Some(offer));
      outcome := Ok;
    }

    /** The relay client delivers the server's answer; delivered only to a subscribed handler. */
    method OnServerAnswered(clientId: int, message: string)
      requires Valid()
      modifies this
      ensures Snapshot() == ServerAnsweredStep(old(Snapshot()), clientId, message)
      ensures Valid()
    {
      if !answerSubscribed {
        return;
      }
      connectionId := clientId;
      ops := ops.(setAnswerRemote := Some(message));
    }

    method OnChannelOpen(ep: EndPoint)
      requires Valid()
      modifies this
      ensures Snapshot() == ChannelOpenStep(old(Snapshot()), ep)
      ensures Valid()
    {
      if !dataChannel.LocalChannel? {
        return;
      }
      dataChannel := OpenChannel(dataChannel);
      endPoint := Some(ep);
    }

    method OnChannelClose()
      requires Valid()
      modifies this
      ensures Snapshot() == ChannelCloseStep(old(Snapshot()))
      ensures Valid()
    {
      if !dataChannel.LocalChannel? {
        return;
      }
      dataChannel := CloseChannel(dataChannel);
    }

    method OnDataChannel(ep: EndPoint, ready: ChannelState)
      requires Valid()
      modifies this
      ensures Snapshot() == DataChannelStep(old(Snapshot()), ep, ready)
      ensures Valid()
    {
      if !peerConnection.Connection? {
        return;
      }
      dataChannel := RemoteChannel(ready);
      endPoint := Some(ep);
    }

    method OnMessage(data: Bytes)
      requires Valid()
      modifies this
      ensures Snapshot() == MessageStep(old(Snapshot()), data)
      ensures Valid()
    {
      if dataChannel.NoChannel? {
        return;
      }
      log := log + [MessageRaised(data)];
    }

    method Send(data: Bytes) returns (outcome: Outcome)
      requires Valid()
      modifies this
      ensures Result(Snapshot(), outcome) == SendStep(old(Snapshot()), data)
      ensures Valid()
    {
      if dataChannel.NoChannel? {
        return Failed(NullDataChannel);
      }
      log := log + [DataSent(data)];
      outcome := Ok;
    }
  }
}
