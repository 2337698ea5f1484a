/** The connection manager (Runtime/Core/WebRTCNetManager.cs): it owns the
    older peers, keeps the server-side candidates and the active peers in two
    lists, polls every candidate each tick in reverse index order, announces a
    candidate whose channel is open to its listener and drops it from the
    candidate list, and on a client promotes the single outbound candidate to
    the server connection.

    Peers are identified by a `PeerId` and their states live in one map, so the
    same peer can sit in both lists, as it does in the source. The listener
    and the relay server are reduced to the events the manager sends them. */
module NetManager {
  import opened Common
  import LegacyPeer

  /** What the manager does to its listener and to its relay server. */
  datatype Event =
    | PeerConnectedRaised(peer: PeerId)
    | NetworkReceived(peer: PeerId, data: Bytes)
    | RelayStarted(port: int)
    | RelayPolled
    | RelayStopped

  /** The engine and relay callbacks a managed peer can receive between ticks. */
  datatype PeerCallback =
    | RelayConnected
    | AnswerArrived(clientId: int, message: string)
    | ChannelOpened(endPoint: EndPoint)
    | ChannelClosed
    | DataChannelArrived(remote: EndPoint, ready: ChannelState)
    | MessageArrived(data: Bytes)

  /** The manager's configuration and run state, which ticks do not change. */
  datatype Setup = Setup(
    runMode: Option<RunMode>,
    isRunning: bool,
    hasSignalingServer: bool,
    offerSubscribed: bool,
    iceServers: seq<string>,
    tricklingDuration: int)

  datatype MState = MState(
    setup: Setup,
    peers: map<PeerId, LegacyPeer.State>,
    handlers: multiset<PeerId>,
    candidates: seq<PeerId>,
    actives: seq<PeerId>,
    serverCandidate: Option<PeerId>,
    serverConnection: Option<PeerId>,
    nextId: PeerId,
    log: seq<Event>)

  datatype MResult = MResult(state: MState, outcome: Outcome)

  /** The tick's engine reports, one per peer. */
  type Engines = PeerId -> LegacyPeer.Engine

  /** One peer's TriggerUpdate within a tick. The tick passes `TickPoll`; the
      lemmas about the candidate loop hold for any such poll. */
  type PeerPoll = (PeerId, LegacyPeer.State) -> LegacyPeer.Result

  function TickPoll(engines: Engines, now: int): PeerPoll
  {
    (id: PeerId, p: LegacyPeer.State) => LegacyPeer.PollStep(p, engines(id), now)
  }

  // ---------------------------------------------------------------- invariant

  /** Every peer has an id allocated before `nextId` and satisfies the peer invariant. */
  predicate PeersOk(peers: map<PeerId, LegacyPeer.State>, nextId: PeerId)
  {
    forall id | id in peers :: id < nextId && LegacyPeer.Inv(peers[id])
  }

  /** Every peer the lists, the handlers and the two client slots mention exists. */
  predicate RefsOk(keys: set<PeerId>, candidates: seq<PeerId>, actives: seq<PeerId>, handlers: multiset<PeerId>,
                   serverCandidate: Option<PeerId>, serverConnection: Option<PeerId>)
  {
    && (forall id | id in candidates :: id in keys)
    && (forall id | id in actives :: id in keys)
    && (forall id | id in handlers :: id in keys)
    && (serverCandidate.Some? ==> serverCandidate.value in keys)
    && (serverConnection.Some? ==> serverConnection.value in keys)
  }

  /** A running manager has a mode, and a server's relay server exists and
      carries the offer handler. */
  predicate SetupOk(s: Setup)
  {
    && (s.isRunning ==> s.runMode.Some?)
    && (s.runMode == Some(Server) ==> s.hasSignalingServer)
    && (s.offerSubscribed ==> s.hasSignalingServer)
  }

  predicate MInv(m: MState)
  {
    && PeersOk(m.peers, m.nextId)
    && RefsOk(m.peers.Keys, m.candidates, m.actives, m.handlers, m.serverCandidate, m.serverConnection)
    && SetupOk(m.setup)
  }

  // ---------------------------------------------------------------- announcements

  /** The peers announced to the listener in a log, with multiplicity. */
  function Announced(log: seq<Event>): multiset<PeerId>
  {
    if log == [] then multiset{}
    else Announced(log[..|log| - 1])
         + (if log[|log| - 1].PeerConnectedRaised? then multiset{log[|log| - 1].peer} else multiset{})
  }

  lemma AnnouncedSnoc(log: seq<Event>, x: Event)
    ensures Announced(log + [x]) == Announced(log) + (if x.PeerConnectedRaised? then multiset{x.peer} else multiset{})
  {
    assert (log + [x])[..|log + [x]| - 1] == log;
  }

  /** `n` copies of an event: a handler attached `n` times runs `n` times. */
  function Repeat(x: Event, n: nat): (r: seq<Event>)
    ensures |r| == n
  {
    if n == 0 then [] else Repeat(x, n - 1) + [x]
  }

  lemma {:induction false} AnnouncedRepeat(log: seq<Event>, x: Event, n: nat)
    requires !x.PeerConnectedRaised?
    ensures Announced(log + Repeat(x, n)) == Announced(log)
  {
    if n > 0 {
      assert log + Repeat(x, n) == (log + Repeat(x, n - 1)) + [x];
      AnnouncedSnoc(log + Repeat(x, n - 1), x);
      AnnouncedRepeat(log, x, n - 1);
    } else {
      assert log + Repeat(x, n) == log;
    }
  }

  function OptionSet(o: Option<PeerId>): multiset<PeerId>
  {
    if o.Some? then multiset{o.value} else multiset{}
  }

  /** Every peer that has been, is being, or may be announced: each
      announcement, each candidate, and the outbound candidate. */
  function Tokens(m: MState): multiset<PeerId>
  {
    TokensOf(m.log, m.candidates, m.serverCandidate)
  }

  function TokensOf(log: seq<Event>, candidates: seq<PeerId>, serverCandidate: Option<PeerId>): multiset<PeerId>
  {
    Announced(log) + multiset(candidates) + OptionSet(serverCandidate)
  }

  /** No peer is in two of these places or twice in one, and none has an id
      that has not been allocated yet. */
  predicate Unique(m: MState)
  {
    forall id | id in Tokens(m) :: Tokens(m)[id] == 1 && id < m.nextId
  }

  // ---------------------------------------------------------------- lifecycle

  /** A new manager after its constructor and Init: both lists empty, not running. */
  function InitStep(): (m: MState)
    ensures MInv(m) && Unique(m)
    ensures m.candidates == [] && m.actives == [] && !m.setup.isRunning
  {
    MState(Setup(None, false, false, false, [], 0), map[], multiset{}, [], [], None, None, 0, [])
  }

  /** AddPeer: attach the message handler and append the peer to the actives. */
  function AddPeerStep(m: MState, id: PeerId): MState
  {
    m.(handlers := m.handlers + multiset{id}, actives := m.actives + [id])
  }

  function SetSignalingServerInstanceStep(m: MState): MState
  {
    m.(setup := m.setup.(hasSignalingServer := true))
  }

  function SetConfigStep(m: MState, iceServers: seq<string>, tricklingDuration: int): MState
  {
    m.(setup := m.setup.(iceServers := iceServers, tricklingDuration := tricklingDuration))
  }

  /** The port the relay server listens on: the source casts to a 16-bit unsigned value. */
  function Port16(port: int): (p: int)
    ensures 0 <= p < 65536
    ensures 0 <= port < 65536 ==> p == port
    ensures (p - port) % 65536 == 0
  {
    port % 65536
  }

  /** Start: remember the mode; a server creates its relay server, attaches the
      offer handler and starts it on the port; then the manager runs. */
  function StartStep(m: MState, mode: RunMode, port: int): MState
  {
    var s := m.setup.(runMode := Some(mode), isRunning := true);
    if mode == Server then
      m.(setup := s.(hasSignalingServer := true, offerSubscribed := true), log := m.log + [RelayStarted(Port16(port))])
    else m.(setup := s)
  }

  /** Connect: a fresh client peer, configured, started and connecting,
      replaces the outbound candidate. */
  function ConnectStep(m: MState, address: string, port: int): MState
  {
    var p := LegacyPeer.ConnectStep(LegacyPeer.StartStep(m.setup.iceServers, m.setup.tricklingDuration, Client), address, port);
    m.(peers := m.peers[m.nextId := p], serverCandidate := Some(m.nextId), nextId := m.nextId + 1)
  }

  /** Stop: stop the relay server if there is one; the lists stay as they are. */
  function StopStep(m: MState): MState
  {
    if m.setup.hasSignalingServer then m.(log := m.log + [RelayStopped]) else m
  }

  /** The server peer OnClientOffered builds: configured, handed the relay
      server, started as a server, given the offer and the relay's id for the client. */
  function OfferedPeer(m: MState, clientId: int, offer: string): LegacyPeer.State
  {
    var p0 := LegacyPeer.StartStep(m.setup.iceServers, m.setup.tricklingDuration, Server);
    var p1 := if m.setup.hasSignalingServer then LegacyPeer.SetSignalingServerStep(p0) else p0;
    LegacyPeer.SetConnectionIdStep(LegacyPeer.ClientOfferedStep(p1, offer).state, clientId)
  }

  /** The relay server delivered a client's offer (only with the handler
      attached): a new server peer is appended to both lists. */
  function ClientOfferedStep(m: MState, clientId: int, offer: string): MState
  {
    if !m.setup.offerSubscribed then m
    else
      var id := m.nextId;
      m.(peers := m.peers[id := OfferedPeer(m, clientId, offer)],
         handlers := m.handlers + multiset{id},
         candidates := m.candidates + [id], actives := m.actives + [id],
         nextId := id + 1)
  }

  function ToInput(cb: PeerCallback): LegacyPeer.Input
  {
    match cb
    case RelayConnected => LegacyPeer.SignalingConnected
    case AnswerArrived(id, msg) => LegacyPeer.ServerAnswered(id, msg)
    case ChannelOpened(ep) => LegacyPeer.ChannelOpened(ep)
    case ChannelClosed => LegacyPeer.ChannelClosed
    case DataChannelArrived(ep, ready) => LegacyPeer.DataChannelArrived(ep, ready)
    case MessageArrived(d) => LegacyPeer.MessageArrived(d)
  }

  /** A callback on a managed peer. A message it raises reaches the listener
      once per attached message handler. */
  function PeerEventStep(m: MState, id: PeerId, cb: PeerCallback): MState
  {
    if id !in m.peers then m
    else
      var p := m.peers[id];
      var m1 := m.(peers := m.peers[id := LegacyPeer.Step(p, ToInput(cb)).state]);
      if cb.MessageArrived? && !p.dataChannel.NoChannel? then
        m1.(log := m1.log + Repeat(NetworkReceived(id, cb.data), m.handlers[id]))
      else m1
  }

  // ---------------------------------------------------------------- one tick

  /** TriggerUpdate on one peer; a throw inside it ends the manager's tick. */
  function PollPeer(m: MState, id: PeerId, poll: PeerPoll): (r: MResult)
    ensures r.state == m.(peers := r.state.peers)
    ensures r.state.peers.Keys == m.peers.Keys
    ensures forall j | j in m.peers && j != id :: r.state.peers[j] == m.peers[j]
    ensures id in m.peers ==> r.state.peers[id] == poll(id, m.peers[id]).state && r.outcome == poll(id, m.peers[id]).outcome
    ensures id !in m.peers ==> r == MResult(m, Ok)
  {
    if id !in m.peers then MResult(m, Ok)
    else
      var pr := poll(id, m.peers[id]);
      MResult(m.(peers := m.peers[id := pr.state]), pr.outcome)
  }

  predicate PeerOpen(m: MState, id: PeerId)
  {
    id in m.peers && LegacyPeer.IsConnectionOpen(m.peers[id])
  }

  /** The candidate loop from index `i - 1` down to 0: each candidate is
      polled; an open one is removed at its index and announced. */
  function Sweep(m: MState, i: nat, poll: PeerPoll): (r: MResult)
    requires i <= |m.candidates|
    ensures r.state == m.(peers := r.state.peers, candidates := r.state.candidates, log := r.state.log)
    ensures r.state.peers.Keys == m.peers.Keys
    decreases i
  {
    if i == 0 then MResult(m, Ok)
    else
      var k := i - 1;
      var id := m.candidates[k];
      var r := PollPeer(m, id, poll);
      if r.outcome.Failed? then r
      else if PeerOpen(r.state, id) then
        Sweep(r.state.(candidates := m.candidates[..k] + m.candidates[k + 1..],
                       log := m.log + [PeerConnectedRaised(id)]), k, poll)
      else Sweep(r.state, k, poll)
  }

  /** The loop leaves the candidates it has not reached where they were: at the end of the list. */
  lemma {:induction false} SweepKeepsUnvisited(m: MState, i: nat, poll: PeerPoll)
    requires i <= |m.candidates|
    ensures var c := Sweep(m, i, poll).state.candidates;
      && |m.candidates| - i <= |c| <= |m.candidates|
      && c[|c| - (|m.candidates| - i)..] == m.candidates[i..]
    decreases i
  {
    if i > 0 {
      var k := i - 1;
      var id := m.candidates[k];
      var r := PollPeer(m, id, poll);
      if r.outcome.Ok? {
        if PeerOpen(r.state, id) {
          var rest := m.candidates[..k] + m.candidates[k + 1..];
          assert rest[k..] == m.candidates[i..];
          SweepKeepsUnvisited(r.state.(candidates := rest, log := m.log + [PeerConnectedRaised(id)]), k, poll);
        } else {
          SweepKeepsUnvisited(r.state, k, poll);
          var c := Sweep(r.state, k, poll).state.candidates;
          assert c[|c| - (|m.candidates| - i)..] == c[|c| - (|m.candidates| - k)..][1..];
        }
      }
    }
  }

  /** The client part of a tick: poll the server connection, then the
      outbound candidate, and promote the candidate once it is open. */
  function ClientPromotion(m: MState, poll: PeerPoll): (r: MResult)
    ensures r.state.setup == m.setup && r.state.candidates == m.candidates
    ensures r.state.peers.Keys == m.peers.Keys && r.state.nextId == m.nextId
  {
    var r1 := if m.serverConnection.Some? then PollPeer(m, m.serverConnection.value, poll) else MResult(m, Ok);
    if r1.outcome.Failed? || r1.state.serverCandidate.None? then r1
    else
      var id := r1.state.serverCandidate.value;
      var r2 := PollPeer(r1.state, id, poll);
      if r2.outcome.Failed? || !PeerOpen(r2.state, id) then r2
      else
        var m3 := AddPeerStep(r2.state.(serverConnection := Some(id), serverCandidate := None), id);
        MResult(m3.(log := m3.log + [PeerConnectedRaised(id)]), Ok)
  }

  /** PollUpdate: nothing until the manager runs; then the candidate loop,
      then the relay server's poll on a server or the promotion on a client. */
  function PollStep(m: MState, engines: Engines, now: int): MResult
  {
    if !m.setup.isRunning then MResult(m, Ok)
    else
      var poll := TickPoll(engines, now);
      var r := Sweep(m, |m.candidates|, poll);
      if r.outcome.Failed? then r
      else if m.setup.runMode == Some(Server) then
        if m.setup.hasSignalingServer then MResult(r.state.(log := r.state.log + [RelayPolled]), Ok)
        else MResult(r.state, Failed(NullSignalingServer))
      else if m.setup.runMode == Some(Client) then ClientPromotion(r.state, poll)
      else r
  }

  // ---------------------------------------------------------------- traces

  datatype Input =
    | Tick(engines: Engines, now: int)
    | AddPeer(id: PeerId)
    | SetSignalingServerInstance
    | SetConfig(iceServers: seq<string>, tricklingDuration: int)
    | Start(mode: RunMode, port: int)
    | ConnectTo(address: string, port: int)
    | Stop
    | ClientOffered(clientId: int, offer: string)
    | PeerEvent(peer: PeerId, callback: PeerCallback)

  function Step(m: MState, i: Input): MResult
  {
    match i
    case Tick(engines, now) => PollStep(m, engines, now)
    case AddPeer(id) => MResult(if id in m.peers then AddPeerStep(m, id) else m, Ok)
    case SetSignalingServerInstance => MResult(SetSignalingServerInstanceStep(m), Ok)
    case SetConfig(ice, d) => MResult(SetConfigStep(m, ice, d), Ok)
    case Start(mode, port) => MResult(StartStep(m, mode, port), Ok)
    case ConnectTo(a, p) => MResult(ConnectStep(m, a, p), Ok)
    case Stop => MResult(StopStep(m), Ok)
    case ClientOffered(id, o) => MResult(ClientOfferedStep(m, id, o), Ok)
    case PeerEvent(id, cb) => MResult(PeerEventStep(m, id, cb), Ok)
  }

  function Run(m: MState, inputs: seq<Input>): MState
    decreases |inputs|
  {
    if inputs == [] then m else Run(Step(m, inputs[0]).state, inputs[1..])
  }

  // ---------------------------------------------------------------- lemmas

  /** PollUpdate does nothing until Start has set the manager running. */
  lemma PollBeforeStartIsNoOp(m: MState, engines: Engines, now: int)
    requires !m.setup.isRunning
    ensures PollStep(m, engines, now) == MResult(m, Ok)
  {
  }

  /** Start sets the manager running in the given mode; only a server starts
      a relay server, on the port truncated to 16 bits. */
  lemma StartRuns(m: MState, mode: RunMode, port: int)
    ensures var r := StartStep(m, mode, port);
      && r.setup.isRunning && r.setup.runMode == Some(mode)
      && (mode == Server ==> r.setup.offerSubscribed && r.log == m.log + [RelayStarted(port % 65536)])
      && (mode == Client ==> r.log == m.log && r.setup.offerSubscribed == m.setup.offerSubscribed)
      && r.candidates == m.candidates && r.actives == m.actives
  {
  }

  /** Stop only stops the relay server, and only if there is one. */
  lemma StopLeavesLists(m: MState)
    ensures var r := StopStep(m);
      && r == m.(log := r.log)
      && r.log == (if m.setup.hasSignalingServer then m.log + [RelayStopped] else m.log)
  {
  }

  /** Connect replaces the outbound candidate with a fresh, connecting client
      peer; no other peer and neither list changes. */
  lemma ConnectReplacesCandidate(m: MState, address: string, port: int)
    requires MInv(m)
    ensures var r := ConnectStep(m, address, port);
      && r.serverCandidate == Some(m.nextId) && m.nextId !in m.peers
      && r.peers[m.nextId].mode == Client && r.peers[m.nextId].wiring.connectSubscribed
      && r.peers[m.nextId].log == [SignalingConnecting(address, port)]
      && (forall id | id in m.peers :: id in r.peers && r.peers[id] == m.peers[id])
      && r.candidates == m.candidates && r.actives == m.actives && r.serverConnection == m.serverConnection
  {
  }

  /** A delivered offer creates a server peer that carries the offer in its
      set-remote-offer slot and the relay's id for the client, and appends it
      to both lists, so it is a candidate and an active peer at once. */
  lemma OfferedPeerInBothLists(m: MState, clientId: int, offer: string)
    requires MInv(m) && m.setup.offerSubscribed
    ensures var r := ClientOfferedStep(m, clientId, offer); var id := m.nextId;
      && r.candidates == m.candidates + [id] && r.actives == m.actives + [id]
      && id in r.candidates && id in r.actives
      && r.handlers == m.handlers + multiset{id}
      && r.peers[id].mode == Server && r.peers[id].connectionId == clientId
      && r.peers[id].ops.setOfferRemote == Some(offer) && r.peers[id].wiring.hasSignalingServer
      && LegacyPeer.ClientOfferedStep(LegacyPeer.SetSignalingServerStep(
           LegacyPeer.StartStep(m.setup.iceServers, m.setup.tricklingDuration, Server)), offer).outcome == Ok
  {
  }

  /** Without the offer handler attached (not started as a server) a client's
      offer is never delivered. */
  lemma OfferIgnoredWithoutHandler(m: MState, clientId: int, offer: string)
    requires !m.setup.offerSubscribed
    ensures ClientOfferedStep(m, clientId, offer) == m
  {
  }

  /** On a server, the relay server is polled after the candidate loop, in the same tick. */
  lemma ServerTickPollsRelayAfterSweep(m: MState, engines: Engines, now: int)
    requires MInv(m) && m.setup.isRunning && m.setup.runMode == Some(Server)
    ensures var s := Sweep(m, |m.candidates|, TickPoll(engines, now));
      s.outcome.Ok? ==> PollStep(m, engines, now) == MResult(s.state.(log := s.state.log + [RelayPolled]), Ok)
  {
  }

  /** Client promotion: an outbound candidate that is open after its poll
      becomes the server connection, is appended to the actives with its
      message handler, and is announced once; the candidate slot is emptied. */
  lemma ClientPromotes(m: MState, poll: PeerPoll)
    requires m.serverCandidate.Some?
    requires m.serverConnection.None? || PollPeer(m, m.serverConnection.value, poll).outcome.Ok?
    ensures var r1 := if m.serverConnection.Some? then PollPeer(m, m.serverConnection.value, poll).state else m;
      var id := m.serverCandidate.value;
      var r2 := PollPeer(r1, id, poll);
      var r := ClientPromotion(m, poll);
      r2.outcome.Ok? && PeerOpen(r2.state, id) ==>
        && r.outcome == Ok
        && r.state.serverConnection == Some(id) && r.state.serverCandidate.None?
        && r.state.actives == m.actives + [id]
        && r.state.handlers == m.handlers + multiset{id}
        && r.state.log == m.log + [PeerConnectedRaised(id)]
    ensures var r1 := if m.serverConnection.Some? then PollPeer(m, m.serverConnection.value, poll).state else m;
      var id := m.serverCandidate.value;
      var r2 := PollPeer(r1, id, poll);
      !PeerOpen(r2.state, id) ==>
        ClientPromotion(m, poll) == r2
        && r2.state.serverCandidate == Some(id) && r2.state.serverConnection == m.serverConnection
  {
  }

  lemma RemoveAtMultiset(s: seq<PeerId>, k: nat)
    requires k < |s|
    ensures multiset(s[..k] + s[k + 1..]) + multiset{s[k]} == multiset(s)
  {
    assert s == s[..k] + [s[k]] + s[k + 1..];
  }

  /** The candidate loop moves a peer from the candidate list to the
      announcements when it announces it, and otherwise neither: together
      they stay the same, whether the loop finishes or a peer throws. */
  lemma {:induction false} SweepConservesTokens(m: MState, i: nat, poll: PeerPoll)
    requires i <= |m.candidates|
    ensures var r := Sweep(m, i, poll).state;
      Announced(r.log) + multiset(r.candidates) == Announced(m.log) + multiset(m.candidates)
    decreases i
  {
    if i > 0 {
      var k := i - 1;
      var id := m.candidates[k];
      var r := PollPeer(m, id, poll);
      if r.outcome.Ok? {
        var open := PeerOpen(r.state, id);
        var m' := if open
          then r.state.(candidates := m.candidates[..k] + m.candidates[k + 1..], log := m.log + [PeerConnectedRaised(id)])
          else r.state;
        assert Sweep(m, i, poll) == Sweep(m', k, poll);
        AnnouncedSnoc(m.log, PeerConnectedRaised(id));
        RemoveAtMultiset(m.candidates, k);
        assert Announced(m'.log) + multiset(m'.candidates) == Announced(m.log) + multiset(m.candidates);
        SweepConservesTokens(m', k, poll);
      }
    }
  }

  /** The loop only drops candidates. */
  lemma {:induction false} SweepDropsOnly(m: MState, i: nat, poll: PeerPoll)
    requires i <= |m.candidates|
    ensures multiset(Sweep(m, i, poll).state.candidates) <= multiset(m.candidates)
    decreases i
  {
    if i > 0 {
      var k := i - 1;
      var id := m.candidates[k];
      var r := PollPeer(m, id, poll);
      if r.outcome.Ok? {
        var m' := if PeerOpen(r.state, id)
          then r.state.(candidates := m.candidates[..k] + m.candidates[k + 1..], log := m.log + [PeerConnectedRaised(id)])
          else r.state;
        assert Sweep(m, i, poll) == Sweep(m', k, poll);
        RemoveAtMultiset(m.candidates, k);
        assert multiset(m'.candidates) <= multiset(m.candidates);
        SweepDropsOnly(m', k, poll);
      }
    }
  }

  predicate Distinct(c: seq<PeerId>)
  {
    forall a, b | 0 <= a < b < |c| :: c[a] != c[b]
  }

  lemma RemoveAtDistinct(c: seq<PeerId>, k: nat)
    requires k < |c| && Distinct(c)
    ensures Distinct(c[..k] + c[k + 1..])
    ensures c[k] !in c[..k]
  {
    var d := c[..k] + c[k + 1..];
    forall a, b | 0 <= a < b < |d| ensures d[a] != d[b] {
      var a' := if a < k then a else a + 1;
      var b' := if b < k then b else b + 1;
      assert d[a] == c[a'] && d[b] == c[b'];
    }
    forall a | 0 <= a < k ensures c[..k][a] != c[k] {
      assert c[..k][a] == c[a];
    }
  }

  lemma PrefixIn(c: seq<PeerId>, k: nat, i: nat)
    requires k <= i <= |c|
    ensures forall x | x in c[..k] :: x in c[..i]
  {
    assert c[..i] == c[..k] + c[k..i];
  }

  /** After a loop that finished, no candidate it visited is still open:
      every open one has been removed and announced. The loop changes only the
      peers it visits. Candidates are distinct here (see `UniqueDistinct`), so
      polling one leaves the others alone. */
  lemma {:induction false} SweepLeavesNoOpenCandidate(m: MState, i: nat, poll: PeerPoll)
    requires i <= |m.candidates| && Distinct(m.candidates)
    ensures var r := Sweep(m, i, poll); var n := |r.state.candidates| - (|m.candidates| - i);
      && (forall id | id in m.peers && id !in m.candidates[..i] :: r.state.peers[id] == m.peers[id])
      && (forall k | 0 <= k < n :: r.state.candidates[k] in m.candidates[..i])
      && (r.outcome.Ok? ==> forall k | 0 <= k < n :: !PeerOpen(r.state, r.state.candidates[k]))
    decreases i
  {
    var r := Sweep(m, i, poll);
    var n := |r.state.candidates| - (|m.candidates| - i);
    if i > 0 {
      var k := i - 1;
      var id := m.candidates[k];
      var p := PollPeer(m, id, poll);
      assert m.candidates[..i] == m.candidates[..k] + [id];
      PrefixIn(m.candidates, k, i);
      if p.outcome.Failed? {
        assert r == p;
        forall j | 0 <= j < n ensures r.state.candidates[j] in m.candidates[..i] {
          assert m.candidates[..i][j] == m.candidates[j];
        }
      } else {
        var open := PeerOpen(p.state, id);
        var m' := if open
          then p.state.(candidates := m.candidates[..k] + m.candidates[k + 1..], log := m.log + [PeerConnectedRaised(id)])
          else p.state;
        assert r == Sweep(m', k, poll);
        RemoveAtDistinct(m.candidates, k);
        assert m'.candidates[..k] == m.candidates[..k];
        SweepLeavesNoOpenCandidate(m', k, poll);
        SweepKeepsUnvisited(m', k, poll);
        if !open {
          var c := r.state.candidates;
          assert c[n - 1..] == m.candidates[k..];
          assert c[n - 1] == id;
        }
      }
    }
  }

  /** Candidates are distinct in a state with unique tokens. */
  lemma UniqueDistinct(m: MState)
    requires Unique(m)
    ensures Distinct(m.candidates)
  {
    var c := m.candidates;
    forall a, b | 0 <= a < b < |c| ensures c[a] != c[b] {
      var x := c[a];
      var rest := c[..a] + c[a + 1..];
      RemoveAtMultiset(c, a);
      assert x in Tokens(m);
      assert Tokens(m)[x] == Announced(m.log)[x] + multiset(c)[x] + OptionSet(m.serverCandidate)[x];
      assert multiset(rest)[x] == 0;
      assert c[b] == rest[b - 1];
      assert c[b] in multiset(rest);
    }
  }

  // ---------------------------------------------------------------- at most one announcement per peer

  /** The client part of a tick moves the outbound candidate, when it
      opens, into the announcements. */
  lemma PromotionKeepsTokens(m: MState, poll: PeerPoll)
    ensures Tokens(ClientPromotion(m, poll).state) == Tokens(m)
  {
    var r1 := if m.serverConnection.Some? then PollPeer(m, m.serverConnection.value, poll) else MResult(m, Ok);
    assert r1.state.log == m.log && r1.state.candidates == m.candidates && r1.state.serverCandidate == m.serverCandidate;
    if r1.outcome.Ok? && r1.state.serverCandidate.Some? {
      var id := r1.state.serverCandidate.value;
      var r2 := PollPeer(r1.state, id, poll);
      assert r2.state.log == m.log && r2.state.candidates == m.candidates && r2.state.serverCandidate == m.serverCandidate;
      if r2.outcome.Ok? && PeerOpen(r2.state, id) {
        var r := ClientPromotion(m, poll).state;
        assert r.log == m.log + [PeerConnectedRaised(id)] && r.candidates == m.candidates && r.serverCandidate.None?;
        AnnouncedSnoc(m.log, PeerConnectedRaised(id));
      } else {
        assert ClientPromotion(m, poll) == r2;
      }
    } else {
      assert ClientPromotion(m, poll) == r1;
    }
  }

  /** A tick only moves peers from the candidates to the announcements. */
  lemma PollKeepsTokens(m: MState, engines: Engines, now: int)
    ensures var r := PollStep(m, engines, now).state;
      Tokens(r) == Tokens(m) && r.nextId == m.nextId
  {
    if m.setup.isRunning {
      var poll := TickPoll(engines, now);
      var s := Sweep(m, |m.candidates|, poll);
      SweepConservesTokens(m, |m.candidates|, poll);
      assert s.state.serverCandidate == m.serverCandidate;
      if s.outcome.Ok? {
        if m.setup.runMode == Some(Server) {
          if m.setup.hasSignalingServer {
            assert PollStep(m, engines, now).state == s.state.(log := s.state.log + [RelayPolled]);
            AnnouncedSnoc(s.state.log, RelayPolled);
          } else {
            assert PollStep(m, engines, now).state == s.state;
          }
        } else if m.setup.runMode == Some(Client) {
          assert PollStep(m, engines, now) == ClientPromotion(s.state, poll);
          PromotionKeepsTokens(s.state, poll);
        } else {
          assert PollStep(m, engines, now) == s;
        }
      } else {
        assert PollStep(m, engines, now) == s;
      }
    }
  }

  /** The tokens a step may add: only the id it allocates. */
  function Allocated(m: MState, r: MState): multiset<PeerId>
  {
    if r.nextId == m.nextId then multiset{} else multiset{m.nextId}
  }

  lemma ConnectTokens(m: MState, address: string, port: int)
    ensures var r := ConnectStep(m, address, port);
      Tokens(r) <= Tokens(m) + multiset{m.nextId} && r.nextId == m.nextId + 1
  {
    var r := ConnectStep(m, address, port);
    assert r.log == m.log && r.candidates == m.candidates && r.serverCandidate == Some(m.nextId);
  }

  lemma OfferTokens(m: MState, clientId: int, offer: string)
    ensures var r := ClientOfferedStep(m, clientId, offer);
      Tokens(r) <= Tokens(m) + Allocated(m, r) && m.nextId <= r.nextId <= m.nextId + 1
  {
    var r := ClientOfferedStep(m, clientId, offer);
    if m.setup.offerSubscribed {
      assert r.log == m.log && r.candidates == m.candidates + [m.nextId] && r.serverCandidate == m.serverCandidate;
    }
  }

  lemma EventTokens(m: MState, id: PeerId, cb: PeerCallback)
    ensures var r := PeerEventStep(m, id, cb); Tokens(r) == Tokens(m) && r.nextId == m.nextId
  {
    var r := PeerEventStep(m, id, cb);
    assert r.candidates == m.candidates && r.serverCandidate == m.serverCandidate;
    if id in m.peers && cb.MessageArrived? && !m.peers[id].dataChannel.NoChannel? {
      assert r.log == m.log + Repeat(NetworkReceived(id, cb.data), m.handlers[id]);
      AnnouncedRepeat(m.log, NetworkReceived(id, cb.data), m.handlers[id]);
    } else {
      assert r.log == m.log;
    }
  }

  /** From `m` to `r`, at most the fresh id joins the tokens, and at most one id is allocated. */
  predicate TokensGrowByFresh(m: MState, r: MState)
  {
    m.nextId <= r.nextId <= m.nextId + 1 && Tokens(r) <= Tokens(m) + Allocated(m, r)
  }

  lemma TickTokens(m: MState, i: Input)
    requires i.Tick?
    ensures TokensGrowByFresh(m, Step(m, i).state)
  {
    PollKeepsTokens(m, i.engines, i.now);
  }

  lemma StartTokens(m: MState, mode: RunMode, port: int)
    ensures Tokens(StartStep(m, mode, port)) == Tokens(m)
  {
    var r := StartStep(m, mode, port);
    assert r.candidates == m.candidates && r.serverCandidate == m.serverCandidate;
    if mode == Server {
      assert r.log == m.log + [RelayStarted(Port16(port))];
      AnnouncedSnoc(m.log, RelayStarted(Port16(port)));
    }
  }

  lemma StopTokens(m: MState)
    ensures Tokens(StopStep(m)) == Tokens(m)
  {
    AnnouncedSnoc(m.log, RelayStopped);
  }

  lemma CallTokens(m: MState, i: Input)
    requires !i.Tick? && !i.PeerEvent? && !i.ClientOffered?
    ensures TokensGrowByFresh(m, Step(m, i).state)
  {
    match i
    case Start(mode, port) => StartTokens(m, mode, port);
    case Stop => StopTokens(m);
    case ConnectTo(a, p) => ConnectTokens(m, a, p);
    case AddPeer(id) =>
    case SetSignalingServerInstance =>
    case SetConfig(ice, d) =>
  }

  /** Every step adds at most the fresh id to the tokens, and allocates at most one id. */
  lemma StepTokens(m: MState, i: Input)
    ensures TokensGrowByFresh(m, Step(m, i).state)
  {
    if i.Tick? {
      TickTokens(m, i);
    } else if i.PeerEvent? {
      EventTokens(m, i.peer, i.callback);
    } else if i.ClientOffered? {
      OfferTokens(m, i.clientId, i.offer);
    } else {
      CallTokens(m, i);
    }
  }

  lemma FreshKeepsUnique(m: MState, r: MState)
    requires Unique(m) && TokensGrowByFresh(m, r)
    ensures Unique(r)
  {
    forall id | id in Tokens(r) ensures Tokens(r)[id] == 1 && id < r.nextId {
      assert Tokens(r)[id] <= Tokens(m)[id] + Allocated(m, r)[id];
      if id !in Tokens(m) {
        assert Tokens(m)[id] == 0;
      }
    }
  }

  lemma StepKeepsUnique(m: MState, i: Input)
    requires Unique(m)
    ensures Unique(Step(m, i).state)
  {
    StepTokens(m, i);
    FreshKeepsUnique(m, Step(m, i).state);
  }

  lemma {:induction false} RunKeepsUnique(m: MState, inputs: seq<Input>)
    requires Unique(m)
    ensures Unique(Run(m, inputs))
    decreases |inputs|
  {
    if inputs != [] {
      StepKeepsUnique(m, inputs[0]);
      RunKeepsUnique(Step(m, inputs[0]).state, inputs[1..]);
    }
  }

  /** Whatever the calls, callbacks and engine reports, the listener is told
      about each peer at most once, and a peer it has been told about is no
      longer a candidate of either kind. */
  lemma AnnouncedAtMostOnce(inputs: seq<Input>)
    ensures var m := Run(InitStep(), inputs);
      forall id | id in Announced(m.log) ::
        && Announced(m.log)[id] == 1
        && id !in m.candidates && m.serverCandidate != Some(id)
  {
    var m := Run(InitStep(), inputs);
    RunKeepsUnique(InitStep(), inputs);
    forall id | id in Announced(m.log)
      ensures Announced(m.log)[id] == 1 && id !in m.candidates && m.serverCandidate != Some(id)
    {
      assert id in Tokens(m);
      assert Tokens(m)[id] == Announced(m.log)[id] + multiset(m.candidates)[id] + OptionSet(m.serverCandidate)[id];
    }
  }

  // ---------------------------------------------------------------- the structural invariant

  /** A poll that keeps every peer's invariant. */
  ghost predicate KeepsPeerInv(poll: PeerPoll)
  {
    forall id, p | LegacyPeer.Inv(p) :: LegacyPeer.Inv(poll(id, p).state)
  }

  lemma TickPollKeepsPeerInv(engines: Engines, now: int)
    ensures KeepsPeerInv(TickPoll(engines, now))
  {
    forall id, p | LegacyPeer.Inv(p) ensures LegacyPeer.Inv(TickPoll(engines, now)(id, p).state) {
      LegacyPeer.SlotsKeepInv(p, engines(id), now);
    }
  }

  lemma PollPeerKeepsMInv(m: MState, id: PeerId, poll: PeerPoll)
    requires MInv(m) && KeepsPeerInv(poll)
    ensures MInv(PollPeer(m, id, poll).state)
  {
  }

  lemma {:induction false} SweepKeepsMInv(m: MState, i: nat, poll: PeerPoll)
    requires i <= |m.candidates| && MInv(m) && KeepsPeerInv(poll)
    ensures MInv(Sweep(m, i, poll).state)
    decreases i
  {
    if i > 0 {
      var k := i - 1;
      var id := m.candidates[k];
      var r := PollPeer(m, id, poll);
      PollPeerKeepsMInv(m, id, poll);
      if r.outcome.Ok? {
        var open := PeerOpen(r.state, id);
        var rest := m.candidates[..k] + m.candidates[k + 1..];
        var m' := if open then r.state.(candidates := rest, log := m.log + [PeerConnectedRaised(id)]) else r.state;
        assert Sweep(m, i, poll) == Sweep(m', k, poll);
        RemoveAtMultiset(m.candidates, k);
        assert forall x | x in rest :: x in m.candidates by {
          forall x | x in rest ensures x in m.candidates {
            assert x in multiset(rest);
          }
        }
        SweepKeepsMInv(m', k, poll);
      }
    }
  }

  lemma AddPeerKeepsMInv(m: MState, id: PeerId)
    requires MInv(m) && id in m.peers
    ensures MInv(AddPeerStep(m, id))
  {
  }

  lemma PromotionKeepsMInv(m: MState, poll: PeerPoll)
    requires MInv(m) && KeepsPeerInv(poll)
    ensures MInv(ClientPromotion(m, poll).state)
  {
    var r1 := if m.serverConnection.Some? then PollPeer(m, m.serverConnection.value, poll) else MResult(m, Ok);
    if m.serverConnection.Some? {
      PollPeerKeepsMInv(m, m.serverConnection.value, poll);
    }
    if r1.outcome.Ok? && r1.state.serverCandidate.Some? {
      var id := r1.state.serverCandidate.value;
      var r2 := PollPeer(r1.state, id, poll);
      PollPeerKeepsMInv(r1.state, id, poll);
      if r2.outcome.Ok? && PeerOpen(r2.state, id) {
        var m2 := r2.state.(serverConnection := Some(id), serverCandidate := None);
        assert MInv(m2);
        AddPeerKeepsMInv(m2, id);
        var m3 := AddPeerStep(m2, id);
        assert ClientPromotion(m, poll).state == m3.(log := m3.log + [PeerConnectedRaised(id)]);
      } else {
        assert ClientPromotion(m, poll) == r2;
      }
    } else {
      assert ClientPromotion(m, poll) == r1;
    }
  }

  lemma PollKeepsMInv(m: MState, engines: Engines, now: int)
    requires MInv(m)
    ensures MInv(PollStep(m, engines, now).state)
  {
    if m.setup.isRunning {
      var poll := TickPoll(engines, now);
      TickPollKeepsPeerInv(engines, now);
      SweepKeepsMInv(m, |m.candidates|, poll);
      var s := Sweep(m, |m.candidates|, poll);
      if s.outcome.Ok? && m.setup.runMode == Some(Client) {
        PromotionKeepsMInv(s.state, poll);
      }
    }
  }

  lemma ConnectKeepsMInv(m: MState, address: string, port: int)
    requires MInv(m)
    ensures MInv(ConnectStep(m, address, port))
  {
  }

  lemma OfferKeepsMInv(m: MState, clientId: int, offer: string)
    requires MInv(m)
    ensures MInv(ClientOfferedStep(m, clientId, offer))
  {
  }

  lemma EventKeepsMInv(m: MState, id: PeerId, cb: PeerCallback)
    requires MInv(m)
    ensures MInv(PeerEventStep(m, id, cb))
  {
    if id in m.peers {
      LegacyPeer.StepKeepsInv(m.peers[id], ToInput(cb));
    }
  }

  lemma StartKeepsMInv(m: MState, mode: RunMode, port: int)
    requires MInv(m)
    ensures MInv(StartStep(m, mode, port))
  {
    var r := StartStep(m, mode, port);
    assert r.peers == m.peers && r.nextId == m.nextId;
    assert r.candidates == m.candidates && r.actives == m.actives && r.handlers == m.handlers;
    assert r.serverCandidate == m.serverCandidate && r.serverConnection == m.serverConnection;
  }

  lemma CallKeepsMInv(m: MState, i: Input)
    requires MInv(m) && !i.Tick? && !i.PeerEvent? && !i.ClientOffered? && !i.ConnectTo?
    ensures MInv(Step(m, i).state)
  {
    match i
    case Start(mode, port) => StartKeepsMInv(m, mode, port);
    case AddPeer(id) =>
      if id in m.peers {
        AddPeerKeepsMInv(m, id);
      }
    case Stop =>
      assert Step(m, i).state == m.(log := Step(m, i).state.log);
    case SetSignalingServerInstance =>
      assert Step(m, i).state == m.(setup := Step(m, i).state.setup);
    case SetConfig(ice, d) =>
      assert Step(m, i).state == m.(setup := Step(m, i).state.setup);
  }

  /** Every input keeps the structural invariant. */
  lemma StepKeepsMInv(m: MState, i: Input)
    requires MInv(m)
    ensures MInv(Step(m, i).state)
  {
    if i.Tick? {
      PollKeepsMInv(m, i.engines, i.now);
    } else if i.PeerEvent? {
      EventKeepsMInv(m, i.peer, i.callback);
    } else if i.ClientOffered? {
      OfferKeepsMInv(m, i.clientId, i.offer);
    } else if i.ConnectTo? {
      ConnectKeepsMInv(m, i.address, i.port);
    } else {
      CallKeepsMInv(m, i);
    }
  }

  lemma {:induction false} RunKeepsMInv(m: MState, inputs: seq<Input>)
    requires MInv(m)
    ensures MInv(Run(m, inputs))
    decreases |inputs|
  {
    if inputs != [] {
      StepKeepsMInv(m, inputs[0]);
      RunKeepsMInv(Step(m, inputs[0]).state, inputs[1..]);
    }
  }

  /** On a reachable server the relay server exists, so the tick never
      throws at the relay poll; and every peer the lists mention exists. */
  lemma ReachableServerPollsRelay(inputs: seq<Input>)
    ensures var m := Run(InitStep(), inputs);
      && MInv(m)
      && (m.setup.isRunning && m.setup.runMode == Some(Server) ==> m.setup.hasSignalingServer)
  {
    RunKeepsMInv(InitStep(), inputs);
  }

  /** On a server, a tick that finishes leaves no open peer among the candidates. */
  lemma ServerTickLeavesNoOpenCandidate(m: MState, engines: Engines, now: int)
    requires Unique(m) && m.setup.isRunning && m.setup.runMode == Some(Server)
    ensures var r := PollStep(m, engines, now);
      r.outcome.Ok? ==> forall id | id in r.state.candidates :: !PeerOpen(r.state, id)
  {
    var poll := TickPoll(engines, now);
    UniqueDistinct(m);
    SweepLeavesNoOpenCandidate(m, |m.candidates|, poll);
    var s := Sweep(m, |m.candidates|, poll);
    var r := PollStep(m, engines, now);
    if r.outcome.Ok? {
      assert r.state == s.state.(log := s.state.log + [RelayPolled]);
      forall id | id in r.state.candidates ensures !PeerOpen(r.state, id) {
        var k :| 0 <= k < |s.state.candidates| && s.state.candidates[k] == id;
        assert !PeerOpen(s.state, s.state.candidates[k]);
      }
    }
  }

  /** The invariant of the manager object: structure and unique tokens. */
  predicate Good(m: MState)
  {
    MInv(m) && Unique(m)
  }

  lemma AddPeerKeepsGood(m: MState, id: PeerId)
    requires Good(m) && id in m.peers
    ensures Good(AddPeerStep(m, id))
  {
    AddPeerKeepsMInv(m, id);
    var r := AddPeerStep(m, id);
    assert r.log == m.log && r.candidates == m.candidates && r.serverCandidate == m.serverCandidate;
    assert Tokens(r) == Tokens(m);
  }

  lemma SetupKeepsGood(m: MState, setup: Setup)
    requires Good(m) && SetupOk(setup)
    ensures Good(m.(setup := setup))
  {
    var r := m.(setup := setup);
    assert r.log == m.log && r.candidates == m.candidates && r.serverCandidate == m.serverCandidate;
    assert Tokens(r) == Tokens(m);
  }

  lemma StartKeepsGood(m: MState, mode: RunMode, port: int)
    requires Good(m)
    ensures Good(StartStep(m, mode, port))
  {
    StartKeepsMInv(m, mode, port);
    StartTokens(m, mode, port);
  }

  lemma ConnectKeepsGood(m: MState, address: string, port: int)
    requires Good(m)
    ensures Good(ConnectStep(m, address, port))
  {
    ConnectKeepsMInv(m, address, port);
    ConnectTokens(m, address, port);
    FreshKeepsUnique(m, ConnectStep(m, address, port));
  }

  lemma StopKeepsGood(m: MState)
    requires Good(m)
    ensures Good(StopStep(m))
  {
    StopTokens(m);
  }

  lemma OfferKeepsGood(m: MState, clientId: int, offer: string)
    requires Good(m)
    ensures Good(ClientOfferedStep(m, clientId, offer))
  {
    OfferKeepsMInv(m, clientId, offer);
    OfferTokens(m, clientId, offer);
    FreshKeepsUnique(m, ClientOfferedStep(m, clientId, offer));
  }

  lemma EventKeepsGood(m: MState, id: PeerId, cb: PeerCallback)
    requires Good(m)
    ensures Good(PeerEventStep(m, id, cb))
  {
    EventKeepsMInv(m, id, cb);
    EventTokens(m, id, cb);
  }

  lemma PollKeepsGood(m: MState, engines: Engines, now: int)
    requires Good(m)
    ensures Good(PollStep(m, engines, now).state)
  {
    PollKeepsMInv(m, engines, now);
    PollKeepsTokens(m, engines, now);
  }

  // ---------------------------------------------------------------- the manager object

  /** The manager. Its peers are held by identity in `peers`; each peer's
      state is updated by the peer's own step functions. */
  class WebRTCNetManager {
    var runMode: Option<RunMode>
    var isRunning: bool
    var hasSignalingServer: bool
    var offerSubscribed: bool
    var iceServers: seq<string>
    var tricklingDuration: int
    var peers: map<PeerId, LegacyPeer.State>
    var handlers: multiset<PeerId>
    var candidates: seq<PeerId>
    var actives: seq<PeerId>
    var serverCandidate: Option<PeerId>
    var serverConnection: Option<PeerId>
    var nextId: PeerId
    var log: seq<Event>

    function Snapshot(): MState
      reads this
    {
      MState(Setup(runMode, isRunning, hasSignalingServer, offerSubscribed, iceServers, tricklingDuration),
             peers, handlers, candidates, actives, serverCandidate, serverConnection, nextId, log)
    }

    predicate Valid()
      reads this
    {
      Good(Snapshot())
    }

    /** The constructor followed by Init: empty lists, not running. The
        capacity is only a hint to the list allocator. */
    constructor (maxClients: int)
      ensures Snapshot() == InitStep() && Valid()
    {
      runMode, isRunning, hasSignalingServer, offerSubscribed := None, false, false, false;
      iceServers, tricklingDuration := [], 0;
      peers, handlers, candidates, actives := map[], multiset{}, [], [];
      serverCandidate, serverConnection, nextId, log := None, None, 0, [];
    }

    method AddPeer(id: PeerId)
      requires Valid()
      modifies this
      ensures Snapshot() == (if id in old(peers) then AddPeerStep(old(Snapshot()), id) else old(Snapshot()))
      ensures Valid()
    {
      if id in peers {
        AddPeerKeepsGood(Snapshot(), id);
        handlers := handlers + multiset{id};
        actives := actives + [id];
      }
    }

    method SetSignalingServerInstance()
      requires Valid()
      modifies this
      ensures Snapshot() == SetSignalingServerInstanceStep(old(Snapshot())) && Valid()
    {
      SetupKeepsGood(Snapshot(), Snapshot().setup.(hasSignalingServer := true));
      hasSignalingServer := true;
    }

    method SetConfig(ice: seq<string>, duration: int)
      requires Valid()
      modifies this
      ensures Snapshot() == SetConfigStep(old(Snapshot()), ice, duration) && Valid()
    {
      SetupKeepsGood(Snapshot(), Snapshot().setup.(iceServers := ice, tricklingDuration := duration));
      iceServers, tricklingDuration := ice, duration;
    }

    method Start(mode: RunMode, port: int)
      requires Valid()
      modifies this
      ensures Snapshot() == StartStep(old(Snapshot()), mode, port) && Valid()
    {
      StartKeepsGood(Snapshot(), mode, port);
      runMode := Some(mode);
      if mode == Server {
        hasSignalingServer, offerSubscribed := true, true;
        log := log + [RelayStarted(Port16(port))];
      }
      isRunning := true;
    }

    method Connect(address: string, port: int)
      requires Valid()
      modifies this
      ensures Snapshot() == ConnectStep(old(Snapshot()), address, port) && Valid()
    {
      ConnectKeepsGood(Snapshot(), address, port);
      var p := LegacyPeer.StartStep(iceServers, tricklingDuration, Client);
      p := LegacyPeer.ConnectStep(p, address, port);
      peers := peers[nextId := p];
      serverCandidate := Some(nextId);
      nextId := nextId + 1;
    }

    method Stop()
      requires Valid()
      modifies this
      ensures Snapshot() == StopStep(old(Snapshot())) && Valid()
    {
      StopKeepsGood(Snapshot());
      if hasSignalingServer {
        log := log + [RelayStopped];
      }
    }

    /** The relay server's offer handler. */
    method OnClientOffered(clientId: int, offer: string)
      requires Valid()
      modifies this
      ensures Snapshot() == ClientOfferedStep(old(Snapshot()), clientId, offer) && Valid()
    {
      ghost var m0 := Snapshot();
      ghost var target := ClientOfferedStep(m0, clientId, offer);
      OfferKeepsGood(m0, clientId, offer);
      if offerSubscribed {
        var p := LegacyPeer.StartStep(iceServers, tricklingDuration, Server);
        if hasSignalingServer {
          p := LegacyPeer.SetSignalingServerStep(p);
        }
        var r := LegacyPeer.ClientOfferedStep(p, offer);
        p := LegacyPeer.SetConnectionIdStep(r.state, clientId);
        assert p == OfferedPeer(m0, clientId, offer);
        var id := nextId;
        peers := peers[id := p];
        handlers := handlers + multiset{id};
        candidates := candidates + [id];
        actives := actives + [id];
        nextId := id + 1;
        assert target.setup == Snapshot().setup && target.peers == peers && target.handlers == handlers;
        assert target.candidates == candidates && target.actives == actives && target.serverCandidate == serverCandidate;
        assert target.serverConnection == serverConnection && target.nextId == nextId && target.log == log;
      }
    }

    /** A callback on one of the managed peers; a message it raises reaches
        the listener through the manager's message handler. */
    method OnPeerEvent(id: PeerId, cb: PeerCallback)
      requires Valid()
      modifies this
      ensures Snapshot() == PeerEventStep(old(Snapshot()), id, cb) && Valid()
    {
      EventKeepsGood(Snapshot(), id, cb);
      if id in peers {
        var p := peers[id];
        peers := peers[id := LegacyPeer.Step(p, ToInput(cb)).state];
        if cb.MessageArrived? && !p.dataChannel.NoChannel? {
          log := log + Repeat(NetworkReceived(id, cb.data), handlers[id]);
        }
      }
    }

    /** TriggerUpdate on one peer. */
    method TriggerPeer(id: PeerId, poll: PeerPoll) returns (outcome: Outcome)
      modifies this`peers
      ensures MResult(Snapshot(), outcome) == PollPeer(old(Snapshot()), id, poll)
    {
      if id in peers {
        var r := poll(id, peers[id]);
        peers := peers[id := r.state];
        outcome := r.outcome;
      } else {
        outcome := Ok;
      }
    }

    /** The candidate loop, from the last index down to the first. */
    method SweepCandidates(poll: PeerPoll) returns (outcome: Outcome)
      modifies this`peers, this`candidates, this`log
      ensures MResult(Snapshot(), outcome) == Sweep(old(Snapshot()), |old(candidates)|, poll)
    {
      ghost var s0 := Snapshot();
      var i := |candidates|;
      while i > 0
        invariant 0 <= i <= |candidates|
        invariant Sweep(Snapshot(), i, poll) == Sweep(s0, |s0.candidates|, poll)
        decreases i
      {
        outcome := VisitCandidate(i - 1, poll);
        if outcome.Failed? {
          return;
        }
        i := i - 1;
      }
      outcome := Ok;
    }

    /** One turn of the candidate loop: poll the candidate at index `k` and,
        if it is open, remove it and announce it. */
    method VisitCandidate(k: nat, poll: PeerPoll) returns (outcome: Outcome)
      requires k < |candidates|
      modifies this`peers, this`candidates, this`log
      ensures outcome.Failed? ==> MResult(Snapshot(), outcome) == Sweep(old(Snapshot()), k + 1, poll)
      ensures outcome.Ok? ==> k <= |candidates| && Sweep(Snapshot(), k, poll) == Sweep(old(Snapshot()), k + 1, poll)
    {
      var id := candidates[k];
      outcome := TriggerPeer(id, poll);
      if outcome.Ok? && id in peers && LegacyPeer.IsConnectionOpen(peers[id]) {
        candidates := candidates[..k] + candidates[k + 1..];
        log := log + [PeerConnectedRaised(id)];
      }
    }

    /** The client part of a tick. */
    method PromoteServerConnection(poll: PeerPoll) returns (outcome: Outcome)
      modifies this
      ensures MResult(Snapshot(), outcome) == ClientPromotion(old(Snapshot()), poll)
    {
      ghost var m0 := Snapshot();
      outcome := Ok;
      if serverConnection.Some? {
        outcome := TriggerPeer(serverConnection.value, poll);
        if outcome.Failed? {
          return;
        }
      }
      ghost var r1 := if m0.serverConnection.Some? then PollPeer(m0, m0.serverConnection.value, poll) else MResult(m0, Ok);
      assert MResult(Snapshot(), outcome) == r1;
      if serverCandidate.None? {
        return;
      }
      var id := serverCandidate.value;
      outcome := TriggerPeer(id, poll);
      ghost var r2 := PollPeer(r1.state, id, poll);
      assert MResult(Snapshot(), outcome) == r2;
      if outcome.Failed? {
        return;
      }
      if id in peers && LegacyPeer.IsConnectionOpen(peers[id]) {
        Promote(id);
      }
    }

    /** The open outbound candidate becomes the server connection, is added
        with AddPeer and is announced. */
    method Promote(id: PeerId)
      modifies this`serverConnection, this`serverCandidate, this`handlers, this`actives, this`log
      ensures serverConnection == Some(id) && serverCandidate == None
      ensures handlers == old(handlers) + multiset{id} && actives == old(actives) + [id]
      ensures log == old(log) + [PeerConnectedRaised(id)]
    {
      serverConnection := Some(id);
      serverCandidate := None;
      handlers := handlers + multiset{id};
      actives := actives + [id];
      log := log + [PeerConnectedRaised(id)];
    }

    /** PollUpdate: the candidate loop, then the relay server's poll on a
        server or the promotion of the outbound candidate on a client. */
    method PollUpdate(engines: Engines, now: int) returns (outcome: Outcome)
      requires Valid()
      modifies this
      ensures MResult(Snapshot(), outcome) == PollStep(old(Snapshot()), engines, now) && Valid()
    {
      PollKeepsGood(Snapshot(), engines, now);
      if !isRunning {
        return Ok;
      }
      var poll := TickPoll(engines, now);
      outcome := SweepCandidates(poll);
      if outcome.Failed? {
        return;
      }
      if runMode == Some(Server) {
        if hasSignalingServer {
          log := log + [RelayPolled];
        } else {
          outcome := Failed(NullSignalingServer);
        }
      } else if runMode == Some(Client) {
        outcome := PromoteServerConnection(poll);
      }
    }
  }
}
