/** Types shared by the three peer variants, the connection manager and the
    transports: the run mode, the engine's enumerations, the tick-based timer,
    the outcome of an operation that may dereference a missing object, and the
    observable effects a peer has on its collaborators. */
module Common {

  datatype Option<T> = None | Some(value: T)

  type Bytes = seq<bv8>

  /** Identity of a peer object, used where the source keeps references to peers. */
  type PeerId = nat

  /** A peer's role, fixed when it is started. */
  datatype RunMode = Client | Server

  /** Candidate gathering state reported by the engine (New = 0, Gathering = 1, Complete = 2). */
  datatype GatheringState = New | Gathering | Complete

  /** ICE connection state reported by the engine; only Connected is acted upon. */
  datatype IceConnectionState =
    | IceNew | IceChecking | IceConnected | IceCompleted | IceFailed | IceDisconnected | IceClosed

  /** Ready state of a data channel, as the engine reports it. */
  datatype ChannelState = Connecting | Open | Closing | Closed

  /** The peer's data channel: none yet, one this peer created (it carries the
      open/close/message handlers), or one the remote side created (it carries
      the message handler and, in the native peer, the close handler). */
  datatype DataChannel =
    | NoChannel
    | LocalChannel(ready: ChannelState, ordered: bool, maxRetransmits: Option<int>)
    | RemoteChannel(ready: ChannelState)

  /** The engine's peer connection object, absent until it is constructed. */
  datatype PeerConnection = NoPeerConnection | Connection(closed: bool)

  /** An ICE server descriptor. */
  datatype IceServer = IceServer(urls: seq<string>, username: string, credential: string)

  /** The remote endpoint, extracted by a description parser that is not part of
      this model; it arrives as an opaque value with the callback. */
  datatype EndPoint = EndPoint(ip: string, port: int)

  /** A deadline in integer ticks of the host's clock; NoTimer never expires. */
  datatype Timer = NoTimer | Deadline(tick: int)

  predicate IsExpired(t: Timer, now: int)
  {
    t.Deadline? && now >= t.tick
  }

  /** A timer created at `now` that runs for `duration` ticks. */
  function StartTimer(now: int, duration: int): (t: Timer)
    ensures !IsExpired(t, now - 1) || duration < 0
    ensures duration >= 0 ==> (IsExpired(t, now + duration) && !IsExpired(t, now + duration - 1))
  {
    Deadline(now + duration)
  }

  /** Which object a failing call dereferenced while it was still null. */
  datatype Fault = NullPeerConnection | NullDataChannel | NullSignalingClient | NullSignalingServer

  /** How an operation ended: normally, or by throwing on a null reference, in
      which case the state holds what the operation changed before the throw. */
  datatype Outcome = Ok | Failed(cause: Fault)

  /** What a peer does to its collaborators: the relay, the engine and the
      observers of its events. */
  datatype Effect =
    | SignalingConnecting(address: string, port: int)
    | SignalingPolled
    | OfferSent(offer: string)
    | AnswerSent(to: int, answer: string)
    | PeerConnectionClosed
    | DataChannelClosed
    | SignalingServerStopped
    | DataSent(data: Bytes)
    | TimeoutRaised
    | ConnectionClosedRaised
    | MessageRaised(data: Bytes)

  predicate IsSend(e: Effect)
  {
    e.OfferSent? || e.AnswerSent?
  }

  /** The number of local descriptions sent to the remote side in a log. */
  function CountSends(log: seq<Effect>): (n: nat)
    ensures n <= |log|
  {
    if log == [] then 0
    else CountSends(log[..|log| - 1]) + (if IsSend(log[|log| - 1]) then 1 else 0)
  }

  lemma {:induction false} CountSendsAppend(a: seq<Effect>, b: seq<Effect>)
    ensures CountSends(a + b) == CountSends(a) + CountSends(b)
    decreases |b|
  {
    if b == [] {
      assert a + b == a;
    } else {
      var b' := b[..|b| - 1];
      assert (a + b)[..|a + b| - 1] == a + b';
      CountSendsAppend(a, b');
    }
  }

  /** Appending one effect adds one exactly when it is a send. */
  lemma CountSendsSnoc(log: seq<Effect>, x: Effect)
    ensures CountSends(log + [x]) == CountSends(log) + (if IsSend(x) then 1 else 0)
  {
    assert (log + [x])[..|log + [x]| - 1] == log;
  }

  /** A log without sends counts none. */
  lemma {:induction false} NoSendsCountZero(log: seq<Effect>)
    requires forall k :: 0 <= k < |log| ==> !IsSend(log[k])
    ensures CountSends(log) == 0
    decreases |log|
  {
    if log != [] {
      NoSendsCountZero(log[..|log| - 1]);
    }
  }

  /** Appending effects that are not sends keeps the count. */
  lemma NoSendAppend(log: seq<Effect>, extra: seq<Effect>)
    requires forall k :: 0 <= k < |extra| ==> !IsSend(extra[k])
    ensures CountSends(log + extra) == CountSends(log)
  {
    CountSendsAppend(log, extra);
    NoSendsCountZero(extra);
  }

  /** The number of timeout signals raised in a log. */
  function CountTimeouts(log: seq<Effect>): (n: nat)
    ensures n <= |log|
  {
    if log == [] then 0
    else CountTimeouts(log[..|log| - 1]) + (if log[|log| - 1].TimeoutRaised? then 1 else 0)
  }

  lemma {:induction false} CountTimeoutsAppend(a: seq<Effect>, b: seq<Effect>)
    ensures CountTimeouts(a + b) == CountTimeouts(a) + CountTimeouts(b)
    decreases |b|
  {
    if b == [] {
      assert a + b == a;
    } else {
      var b' := b[..|b| - 1];
      assert (a + b)[..|a + b| - 1] == a + b';
      CountTimeoutsAppend(a, b');
    }
  }

  /** Appending one effect adds one exactly when it is a timeout signal. */
  lemma CountTimeoutsSnoc(log: seq<Effect>, x: Effect)
    ensures CountTimeouts(log + [x]) == CountTimeouts(log) + (if x.TimeoutRaised? then 1 else 0)
  {
    assert (log + [x])[..|log + [x]| - 1] == log;
  }

  /** A log without timeout signals counts none. */
  lemma {:induction false} NoTimeoutsCountZero(log: seq<Effect>)
    requires forall k :: 0 <= k < |log| ==> !log[k].TimeoutRaised?
    ensures CountTimeouts(log) == 0
    decreases |log|
  {
    if log != [] {
      NoTimeoutsCountZero(log[..|log| - 1]);
    }
  }

  /** Appending effects that are not timeout signals keeps the count. */
  lemma NoTimeoutAppend(log: seq<Effect>, extra: seq<Effect>)
    requires forall k :: 0 <= k < |extra| ==> !extra[k].TimeoutRaised?
    ensures CountTimeouts(log + extra) == CountTimeouts(log)
  {
    CountTimeoutsAppend(log, extra);
    NoTimeoutsCountZero(extra);
  }

  /** True exactly when a data channel exists and the engine reports it Open. */
  predicate ChannelIsOpen(dc: DataChannel)
  {
    !dc.NoChannel? && dc.ready == Open
  }

  /** The channel after the engine closed it; no channel stays no channel. */
  function CloseChannel(dc: DataChannel): (r: DataChannel)
    ensures r.NoChannel? <==> dc.NoChannel?
    ensures !ChannelIsOpen(r)
  {
    match dc
    case NoChannel => NoChannel
    case LocalChannel(_, o, m) => LocalChannel(Closed, o, m)
    case RemoteChannel(_) => RemoteChannel(Closed)
  }

  /** The channel after its open handler ran (the engine reports it Open). */
  function OpenChannel(dc: DataChannel): (r: DataChannel)
    requires !dc.NoChannel?
    ensures ChannelIsOpen(r)
  {
    match dc
    case LocalChannel(_, o, m) => LocalChannel(Open, o, m)
    case RemoteChannel(_) => RemoteChannel(Open)
  }
}
