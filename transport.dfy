/** The older transport (Runtime/WebRTCTransportProvider.cs): it owns the
    connection manager of net_manager.dfy, configures it on every Run, and
    keeps a pool of connection objects and a dictionary from manager peers
    to the connection bound to each. Connections are taken from the pool and
    never returned to it. The engine's peer-to-peer layer (NetworkPeer) is
    reduced to the calls it receives, kept as a log. */
module Transport {
  import opened Common
  import NetManager

  /** What a connection hands to its peer's Send: nothing when no peer is
      bound (the source throws on the null peer). */
  datatype SendResult = Sent(to: PeerId, data: Bytes) | NoPeer

  /** The connection the engine sees; `peer` is the manager peer bound to it. */
  class WebRTCConnection {
    var peer: Option<PeerId>

    /** The packet size the engine may use on this connection. */
    const Mtu: int := 1200

    constructor ()
      ensures peer == None
    {
      peer := None;
    }

    method Send(data: Bytes) returns (r: SendResult)
      ensures r.Sent? <==> peer.Some?
      ensures r.Sent? ==> r.to == peer.value && r.data == data
    {
      r := if peer.Some? then Sent(peer.value, data) else NoPeer;
    }
  }

  /** A call on the engine's peer-to-peer layer. */
  datatype HostCall =
    | OnConnected(connection: WebRTCConnection)
    | Receive(connection: WebRTCConnection, data: Bytes)

  /** How a listener callback ended: normally, or by the exception the
      queue (empty) or the dictionary (key already present) throws. */
  datatype Completion = Handled | QueueEmpty | KeyExists

  class WebRTCTransport {
    var connections: map<PeerId, WebRTCConnection>
    var freeClients: seq<WebRTCConnection>
    var netManager: NetManager.WebRTCNetManager?
    var maxPlayers: nat
    /** The configuration handed to the manager on Run; durations in ticks. */
    var iceServers: seq<string>
    var maxIceTricklingDuration: int
    var hostCalls: seq<HostCall>
    /** Every connection Init created. */
    ghost var Repr: set<WebRTCConnection>
    /** Connections taken from the queue by a callback that then threw; they
        are neither free nor bound. */
    ghost var dropped: nat

    /** The pool's invariant: every connection is free, bound or dropped,
        never two of these and never twice; a bound connection is bound to
        the peer that keys it. */
    ghost predicate PoolOk()
      reads this`freeClients, this`connections, this`dropped, this`maxPlayers, this`Repr, Repr
    {
      (forall i | 0 <= i < |freeClients| :: freeClients[i] in Repr) &&
      (forall p | p in connections :: connections[p] in Repr && connections[p].peer == Some(p)) &&
      (forall i, j | 0 <= i < j < |freeClients| :: freeClients[i] != freeClients[j]) &&
      (forall i, p | 0 <= i < |freeClients| && p in connections :: freeClients[i] != connections[p]) &&
      |freeClients| + |connections| + dropped == maxPlayers
    }

    /** After Init: the manager exists and keeps its own invariant. */
    ghost predicate Valid()
      reads this, Repr, netManager
    {
      netManager != null && netManager.Valid() && PoolOk()
    }

    /** MakeTransportInstance: a transport holding the provider's configuration. */
    constructor (ice: seq<string>, tricklingDuration: int)
      ensures iceServers == ice && maxIceTricklingDuration == tricklingDuration
      ensures netManager == null && hostCalls == []
    {
      connections, freeClients, netManager, maxPlayers := map[], [], null, 0;
      iceServers, maxIceTricklingDuration := ice, tricklingDuration;
      hostCalls := [];
      Repr, dropped := {}, 0;
    }

    /** Init: an empty dictionary, a queue of `players` new unbound
        connections and a new, initialised manager. */
    method Init(players: nat)
      modifies this`connections, this`freeClients, this`Repr, this`maxPlayers, this`dropped, this`netManager
      ensures Valid() && fresh(netManager) && netManager.Snapshot() == NetManager.InitStep()
      ensures maxPlayers == players && dropped == 0
      ensures connections == map[] && |freeClients| == players
      ensures fresh(Repr) && forall i | 0 <= i < |freeClients| :: freeClients[i].peer == None
    {
      connections := map[];
      FillQueue(players);
      maxPlayers, dropped := players, 0;
      assert PoolOk();
      netManager := new NetManager.WebRTCNetManager(players);
    }

    /** The loop of Init: a queue of `players` new unbound connections. */
    method FillQueue(players: nat)
      modifies this`freeClients, this`Repr
      ensures |freeClients| == players && fresh(Repr)
      ensures forall k | 0 <= k < players :: freeClients[k] in Repr && freeClients[k].peer == None
      ensures forall k, l | 0 <= k < l < players :: freeClients[k] != freeClients[l]
    {
      freeClients := [];
      Repr := {};
      var i := 0;
      while i < players
        invariant 0 <= i <= players && |freeClients| == i
        invariant fresh(Repr)
        invariant forall k | 0 <= k < i :: freeClients[k] in Repr && freeClients[k].peer == None
        invariant forall k, l | 0 <= k < l < i :: freeClients[k] != freeClients[l]
      {
        var c := new WebRTCConnection();
        freeClients := freeClients + [c];
        Repr := Repr + {c};
        i := i + 1;
      }
    }

    method Connect(address: string, port: int)
      requires Valid()
      modifies netManager
      ensures Valid()
      ensures netManager.Snapshot() == NetManager.ConnectStep(old(netManager.Snapshot()), address, port)
    {
      netManager.Connect(address, port);
    }

    /** Disconnect does nothing: the connection stays bound and out of the pool. */
    method Disconnect(connection: WebRTCConnection)
      requires Valid()
      ensures Valid()
    {
    }

    /** Run: configure the manager, then start it as a client (no port) or as
        a server on the port. */
    method Run(mode: RunMode, port: int)
      requires Valid()
      modifies netManager
      ensures Valid()
      ensures netManager.Snapshot() ==
        NetManager.StartStep(NetManager.SetConfigStep(old(netManager.Snapshot()), iceServers, maxIceTricklingDuration),
                             mode, if mode == Client then 0 else port)
    {
      netManager.SetConfig(iceServers, maxIceTricklingDuration);
      if mode == Client {
        netManager.Start(mode, 0);
      } else {
        netManager.Start(mode, port);
      }
    }

    method Shutdown()
      requires Valid()
      modifies netManager
      ensures Valid()
      ensures netManager.Snapshot() == NetManager.StopStep(old(netManager.Snapshot()))
    {
      netManager.Stop();
    }

    /** PollEvents: one manager tick with the engine's reports of this tick. */
    method PollEvents(engines: NetManager.Engines, now: int) returns (outcome: Outcome)
      requires Valid()
      modifies netManager
      ensures Valid()
      ensures NetManager.MResult(netManager.Snapshot(), outcome) == NetManager.PollStep(old(netManager.Snapshot()), engines, now)
    {
      outcome := netManager.PollUpdate(engines, now);
    }

    /** OnPeerConnected: take the connection at the head of the queue, bind
        the peer to it, add it under the peer and tell the engine. An empty
        queue throws before anything changes; a peer that already has a
        connection throws after the head was taken and bound, so that
        connection is lost to the pool. The pool never grows. */
    method OnPeerConnected(peer: PeerId) returns (r: Completion)
      requires Valid()
      modifies this`freeClients, this`connections, this`hostCalls, this`dropped, Repr
      ensures Valid()
      ensures old(freeClients) == [] ==> r == QueueEmpty && freeClients == [] && connections == old(connections) && hostCalls == old(hostCalls)
      ensures old(freeClients) != [] && peer in old(connections) ==>
        r == KeyExists && freeClients == old(freeClients)[1..] && connections == old(connections) &&
        hostCalls == old(hostCalls) && dropped == old(dropped) + 1
      ensures old(freeClients) != [] && peer !in old(connections) ==>
        r == Handled && freeClients == old(freeClients)[1..] && connections == old(connections)[peer := old(freeClients)[0]] &&
        hostCalls == old(hostCalls) + [OnConnected(old(freeClients)[0])] && dropped == old(dropped)
      ensures old(freeClients) != [] ==> old(freeClients)[0].peer == Some(peer)
      ensures forall c | c in Repr && (old(freeClients) == [] || c != old(freeClients)[0]) :: c.peer == old(c.peer)
    {
      if freeClients == [] {
        return QueueEmpty;
      }
      var connection := freeClients[0];
      freeClients := freeClients[1..];
      connection.peer := Some(peer);
      if peer in connections {
        dropped := dropped + 1;
        return KeyExists;
      }
      connections := connections[peer := connection];
      hostCalls := hostCalls + [OnConnected(connection)];
      r := Handled;
    }

    /** Data from a peer: handed to the engine with the peer's connection,
        or dropped when the peer has none. */
    method OnNetworkReceive(peer: PeerId, data: Bytes)
      requires Valid()
      modifies this`hostCalls
      ensures Valid()
      ensures hostCalls == old(hostCalls) + (if peer in connections then [Receive(connections[peer], data)] else [])
    {
      if peer in connections {
        hostCalls := hostCalls + [Receive(connections[peer], data)];
      }
    }

    /** OnPeerDisconnected does nothing: the peer's connection is not returned. */
    method OnPeerDisconnected(peer: PeerId)
      requires Valid()
      ensures Valid()
    {
    }
  }
}
