/** The embedded transport (Runtime/WebRTCEmbeddedTransportProvider.cs): a
    pool of connection objects that the engine's peer-to-peer layer sees, a
    dictionary from manager peers to the connection bound to each, and the
    mapping from the manager's disconnect reasons to the engine's.

    The manager this transport drives has a different interface from the one
    in net_manager.dfy, so the calls it receives are kept as a log. The
    engine's peer-to-peer layer (NetworkPeer) is reduced to the calls it
    receives, kept as a second log. */
module EmbeddedTransport {
  import opened Common

  /** The engine's delivery methods. */
  datatype DeliveryMethod = Unreliable | Reliable

  /** The manager's disconnect reasons. The transport tests three of them;
      every other value of the enumeration is `OtherReason`. */
  datatype DisconnectReason = SignalingServerUnreachable | Timeout | ConnectionRejected | OtherReason

  /** Why the engine's connection attempt failed. */
  datatype ConnectionFailedReason = Timeout | Refused

  /** Why the engine lost an established connection. */
  datatype TransportDisconnectReason = Timeout | Shutdown

  /** The WebRTC part of the configuration (UserRTCConfig); durations in ticks. */
  datatype RtcConfig = RtcConfig(
    iceServers: seq<IceServer>,
    timeoutDuration: int,
    tricklingIsManual: bool,
    tricklingDuration: int)

  /** The relay part of the configuration (WebSocketSignalingConfig), without
      the protocol selection. */
  datatype SignalingConfig = SignalingConfig(connectSecurely: bool, enableSsl: bool, sslFilePath: string)

  /** A call on the manager. `None` in a configuration argument stands for a
      structure that was never set, which C# passes as its default value. */
  datatype ManagerCall =
    | ManagerInit(maxClients: int)
    | ManagerSetConfig(rtc: Option<RtcConfig>, signaling: Option<SignalingConfig>)
    | ManagerConnect(address: string, port: int)
    | ManagerDisconnectPeer(peer: Option<PeerId>)
    | ManagerStart(mode: RunMode, listenPort: Option<int>)
    | ManagerStop
    | ManagerPoll

  /** What a connection hands to its peer's Send: nothing when no peer is
      bound (the source throws on the null peer). */
  datatype SendResult = Sent(to: PeerId, data: Bytes) | NoPeer

  /** The send a connection bound to `peer` performs. */
  function SendTo(peer: Option<PeerId>, data: Bytes): (r: SendResult)
    ensures r.Sent? <==> peer.Some?
    ensures r.Sent? ==> r.to == peer.value && r.data == data
  {
    if peer.Some? then Sent(peer.value, data) else NoPeer
  }

  /** How a disconnect report is handled: a client's failed attempt is
      reported as such and nothing else happens; every other report releases
      the peer's connection, if it has one, with the given reason. */
  datatype Disposition =
    | ConnectFailed(failure: ConnectionFailedReason)
    | Release(reason: TransportDisconnectReason)

  function Dispose(isClient: bool, reason: DisconnectReason): (d: Disposition)
    ensures d.ConnectFailed? <==> isClient && !reason.OtherReason?
    ensures d == ConnectFailed(ConnectionFailedReason.Refused) <==> isClient && reason.ConnectionRejected?
    ensures d.Release? ==> (d.reason == TransportDisconnectReason.Timeout <==> reason.Timeout?)
  {
    if isClient && (reason.SignalingServerUnreachable? || reason.Timeout?) then
      ConnectFailed(ConnectionFailedReason.Timeout)
    else if isClient && reason.ConnectionRejected? then
      ConnectFailed(ConnectionFailedReason.Refused)
    else
      Release(if reason.Timeout? then TransportDisconnectReason.Timeout else TransportDisconnectReason.Shutdown)
  }

  /** A client never reports a lost connection as a timeout: a client's
      timeout is always a failed connection attempt. */
  lemma ClientNeverTimesOutConnection(reason: DisconnectReason)
    ensures Dispose(true, reason).Release? ==> Dispose(true, reason).reason == TransportDisconnectReason.Shutdown
    ensures reason.Timeout? ==> Dispose(true, reason) == ConnectFailed(ConnectionFailedReason.Timeout)
  {
  }

  /** On a server every report releases, and the reason survives exactly
      when it is a timeout. */
  lemma ServerAlwaysReleases(reason: DisconnectReason)
    ensures Dispose(false, reason).Release?
    ensures Dispose(false, reason).reason == (if reason.Timeout? then TransportDisconnectReason.Timeout else TransportDisconnectReason.Shutdown)
  {
  }

  /** The manager call Run makes: a client starts without a port, a server with it. */
  function StartCall(mode: RunMode, port: int): (c: ManagerCall)
    ensures c.ManagerStart? && c.mode == mode
    ensures c.listenPort.Some? <==> mode == Server
    ensures c.listenPort.Some? ==> c.listenPort.value == port
  {
    ManagerStart(mode, if mode == Client then None else Some(port))
  }

  /** The connection the engine sees; `peer` is the manager peer bound to it. */
  class WebRTCConnection {
    var peer: Option<PeerId>

    /** The packet size the engine may use on this connection. */
    const Mtu: int := 1200

    constructor ()
      ensures peer == None
    {
      peer := None;
    }

    method Send(data: Bytes) returns (r: SendResult)
      ensures r == SendTo(peer, data)
    {
      r := SendTo(peer, data);
    }

    /** Reliable delivery is not offered: it is reported as an error and the
        data is sent exactly as an unreliable send would be. */
    method SendUserData(data: Bytes, deliveryMethod: DeliveryMethod) returns (r: SendResult, errorLogged: bool)
      ensures r == SendTo(peer, data)
      ensures errorLogged <==> deliveryMethod == Reliable
    {
      errorLogged := deliveryMethod == Reliable;
      r := Send(data);
    }
  }

  /** A call on the engine's peer-to-peer layer. */
  datatype HostCall =
    | OnConnected(connection: WebRTCConnection)
    | Receive(connection: WebRTCConnection, data: Bytes)
    | OnConnectFailed(failure: ConnectionFailedReason)
    | OnDisconnected(connection: WebRTCConnection, reason: TransportDisconnectReason)

  /** How a listener callback ended: normally, or by the exception the
      queue (empty) or the dictionary (key already present) throws. */
  datatype Completion = Handled | QueueEmpty | KeyExists

  class WebRTCTransport {
    var connections: map<PeerId, WebRTCConnection>
    var freeClients: seq<WebRTCConnection>
    var maxPlayers: nat
    var initialized: bool
    var rtcConfig: Option<RtcConfig>
    var signalingConfig: Option<SignalingConfig>
    var managerCalls: seq<ManagerCall>
    var hostCalls: seq<HostCall>
    /** Every connection Init created. */
    ghost var Repr: set<WebRTCConnection>
    /** Connections taken from the queue by a callback that then threw; they
        are neither free nor bound. */
    ghost var dropped: nat

    /** The pool's invariant: every connection is free, bound or dropped,
        never two of these and never twice; a bound connection is bound to
        the peer that keys it. */
    ghost predicate PoolOk()
      reads this`freeClients, this`connections, this`dropped, this`maxPlayers, this`Repr, Repr
    {
      (forall i | 0 <= i < |freeClients| :: freeClients[i] in Repr) &&
      (forall p | p in connections :: connections[p] in Repr && connections[p].peer == Some(p)) &&
      (forall i, j | 0 <= i < j < |freeClients| :: freeClients[i] != freeClients[j]) &&
      (forall i, p | 0 <= i < |freeClients| && p in connections :: freeClients[i] != connections[p]) &&
      |freeClients| + |connections| + dropped == maxPlayers
    }

    ghost predicate Valid()
      reads this, Repr
    {
      initialized && PoolOk()
    }

    /** MakeTransportInstance: a new transport, configured. */
    constructor (rtc: RtcConfig, signaling: SignalingConfig)
      ensures !initialized && rtcConfig == Some(rtc) && signalingConfig == Some(signaling)
      ensures managerCalls == [] && hostCalls == []
    {
      connections, freeClients, maxPlayers, initialized := map[], [], 0, false;
      rtcConfig, signalingConfig := Some(rtc), Some(signaling);
      managerCalls, hostCalls := [], [];
      Repr, dropped := {}, 0;
    }

    method SetConfig(rtc: RtcConfig, signaling: SignalingConfig)
      modifies this`rtcConfig, this`signalingConfig
      ensures rtcConfig == Some(rtc) && signalingConfig == Some(signaling)
    {
      rtcConfig, signalingConfig := Some(rtc), Some(signaling);
    }

    /** Init: an empty dictionary, a queue of `maxPlayers` new unbound
        connections, then Init and SetConfig on the manager. */
    method Init(players: nat)
      modifies this`connections, this`freeClients, this`Repr, this`maxPlayers, this`dropped, this`initialized, this`managerCalls
      ensures Valid() && maxPlayers == players && dropped == 0
      ensures connections == map[] && |freeClients| == players
      ensures fresh(Repr) && forall i | 0 <= i < |freeClients| :: freeClients[i].peer == None
      ensures managerCalls == old(managerCalls) + [ManagerInit(players), ManagerSetConfig(rtcConfig, signalingConfig)]
    {
      connections := map[];
      FillQueue(players);
      maxPlayers, dropped, initialized := players, 0, true;
      managerCalls := managerCalls + [ManagerInit(players), ManagerSetConfig(rtcConfig, signalingConfig)];
    }

    /** The loop of Init: a queue of `players` new unbound connections. */
    method FillQueue(players: nat)
      modifies this`freeClients, this`Repr
      ensures |freeClients| == players && fresh(Repr)
      ensures forall k | 0 <= k < players :: freeClients[k] in Repr && freeClients[k].peer == None
      ensures forall k, l | 0 <= k < l < players :: freeClients[k] != freeClients[l]
    {
      freeClients := [];
      Repr := {};
      var i := 0;
      while i < players
        invariant 0 <= i <= players && |freeClients| == i
        invariant fresh(Repr)
        invariant forall k | 0 <= k < i :: freeClients[k] in Repr && freeClients[k].peer == None
        invariant forall k, l | 0 <= k < l < i :: freeClients[k] != freeClients[l]
      {
        var c := new WebRTCConnection();
        freeClients := freeClients + [c];
        Repr := Repr + {c};
        i := i + 1;
      }
    }

    method Connect(address: string, port: int)
      requires Valid()
      modifies this`managerCalls
      ensures managerCalls == old(managerCalls) + [ManagerConnect(address, port)]
    {
      managerCalls := managerCalls + [ManagerConnect(address, port)];
    }

    /** Disconnect: ask the manager to drop the connection's peer. */
    method Disconnect(connection: WebRTCConnection)
      requires Valid()
      modifies this`managerCalls
      ensures managerCalls == old(managerCalls) + [ManagerDisconnectPeer(connection.peer)]
    {
      managerCalls := managerCalls + [ManagerDisconnectPeer(connection.peer)];
    }

    method Run(mode: RunMode, port: int)
      requires Valid()
      modifies this`managerCalls
      ensures managerCalls == old(managerCalls) + [StartCall(mode, port)]
    {
      if mode == Client {
        managerCalls := managerCalls + [ManagerStart(mode, None)];
      } else {
        managerCalls := managerCalls + [ManagerStart(mode, Some(port))];
      }
    }

    method Shutdown()
      requires Valid()
      modifies this`managerCalls
      ensures managerCalls == old(managerCalls) + [ManagerStop]
    {
      managerCalls := managerCalls + [ManagerStop];
    }

    method PollEvents()
      requires Valid()
      modifies this`managerCalls
      ensures managerCalls == old(managerCalls) + [ManagerPoll]
    {
      managerCalls := managerCalls + [ManagerPoll];
    }

    /** OnPeerConnected: take the connection at the head of the queue, bind
        the peer to it, add it under the peer and tell the engine. An empty
        queue throws before anything changes; a peer that already has a
        connection throws after the head was taken and bound, so that
        connection is lost to the pool. */
    method OnPeerConnected(peer: PeerId) returns (r: Completion)
      requires Valid()
      modifies this`freeClients, this`connections, this`hostCalls, this`dropped, Repr
      ensures Valid()
      ensures old(freeClients) == [] ==> r == QueueEmpty && freeClients == [] && connections == old(connections) && hostCalls == old(hostCalls)
      ensures old(freeClients) != [] && peer in old(connections) ==>
        r == KeyExists && freeClients == old(freeClients)[1..] && connections == old(connections) &&
        hostCalls == old(hostCalls) && dropped == old(dropped) + 1
      ensures old(freeClients) != [] && peer !in old(connections) ==>
        r == Handled && freeClients == old(freeClients)[1..] && connections == old(connections)[peer := old(freeClients)[0]] &&
        hostCalls == old(hostCalls) + [OnConnected(old(freeClients)[0])] && dropped == old(dropped)
      ensures old(freeClients) != [] ==> old(freeClients)[0].peer == Some(peer)
      ensures forall c | c in Repr && (old(freeClients) == [] || c != old(freeClients)[0]) :: c.peer == old(c.peer)
    {
      if freeClients == [] {
        return QueueEmpty;
      }
      var connection := freeClients[0];
      freeClients := freeClients[1..];
      connection.peer := Some(peer);
      if peer in connections {
        dropped := dropped + 1;
        return KeyExists;
      }
      connections := connections[peer := connection];
      hostCalls := hostCalls + [OnConnected(connection)];
      r := Handled;
    }

    /** Data from a peer: handed to the engine with the peer's connection,
        or dropped when the peer has none. */
    method OnNetworkReceive(peer: PeerId, data: Bytes)
      requires Valid()
      modifies this`hostCalls
      ensures hostCalls == old(hostCalls) + (if peer in connections then [Receive(connections[peer], data)] else [])
    {
      if peer in connections {
        hostCalls := hostCalls + [Receive(connections[peer], data)];
      }
    }

    /** The unmanaged receive path behaves as the managed one. */
    method OnMessageReceiveUnmanaged(peer: PeerId, data: Bytes)
      requires Valid()
      modifies this`hostCalls
      ensures hostCalls == old(hostCalls) + (if peer in connections then [Receive(connections[peer], data)] else [])
    {
      OnNetworkReceive(peer, data);
    }

    /** OnPeerDisconnected, with the engine's role as `isClient`. */
    method OnPeerDisconnected(peer: PeerId, reason: DisconnectReason, isClient: bool)
      requires Valid()
      modifies this`freeClients, this`connections, this`hostCalls
      ensures Valid()
      ensures Dispose(isClient, reason).ConnectFailed? ==>
        hostCalls == old(hostCalls) + [OnConnectFailed(Dispose(isClient, reason).failure)] &&
        freeClients == old(freeClients) && connections == old(connections)
      ensures Dispose(isClient, reason).Release? && peer in old(connections) ==>
        hostCalls == old(hostCalls) + [OnDisconnected(old(connections)[peer], Dispose(isClient, reason).reason)] &&
        connections == old(connections) - {peer} && freeClients == old(freeClients) + [old(connections)[peer]]
      ensures Dispose(isClient, reason).Release? && peer !in old(connections) ==>
        hostCalls == old(hostCalls) && freeClients == old(freeClients) && connections == old(connections)
    {
      var d := Dispose(isClient, reason);
      if d.ConnectFailed? {
        hostCalls := hostCalls + [OnConnectFailed(d.failure)];
        return;
      }
      if peer in connections {
        var connection := connections[peer];
        hostCalls := hostCalls + [OnDisconnected(connection, d.reason)];
        connections := connections - {peer};
        freeClients := freeClients + [connection];
      }
    }
  }
}
