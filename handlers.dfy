/**
 * The websocket handlers of controllers/websocket_controller.go (control channel) and
 * controllers/websocket/websocket_controller.go (camera channel). Both files hold the same
 * two handlers, differing only in the registry key suffix and in whether non-binary frames
 * are forwarded, so they are modelled once here with the channel as a parameter.
 *
 * A handler run consumes a finite sequence of events on its connection: an inbound frame,
 * a read error, or a registry call made meanwhile by another connection's handler. The run
 * ends at the first read error, or when the sequence is exhausted (the connection's next
 * read fails). What the handler does to the outside world is returned as an ordered trace
 * of effects: its own registry calls, presence updates, forwarded writes and the close.
 */
module Handlers {
  import opened Wrappers
  import Registry
  import opened CommonController
  import opened SocketSession

  newtype byte = x: int | 0 <= x < 256

  /** gorilla/websocket message types. */
  type MsgType = int
  const TextMessage: MsgType := 1
  const BinaryMessage: MsgType := 2

  const StatusBadRequest: int := 400
  const StatusUnauthorized: int := 401

  /** One message as ReadMessage returns it. */
  datatype Frame = Frame(msgType: MsgType, data: seq<byte>)

  datatype Event =
    | Inbound(frame: Frame)          // ReadMessage returned a message
    | ReadError                      // ReadMessage failed
    | Concurrent(op: Registry.Op)    // another handler called the shared registry

  datatype Effect =
    | Registered(op: Registry.Op)                   // this handler's own registry call
    | Presence(deviceId: string, online: bool)      // IAMOnline(device, online); its error is ignored
    | Send(dest: Registry.Conn, frame: Frame)       // WriteMessage on the peer; its error is ignored
    | Close(conn: Registry.Conn)                    // conn.Close() in the deferred teardown

  /** The two copies of the handlers. */
  datatype Channel = Control | Camera

  /** The registry key of an id: the camera channel appends "_Cam", the control channel uses the raw id. */
  function Key(ch: Channel, id: string): (k: string)
    ensures |id| <= |k| && k[..|id|] == id
    ensures ch == Control ==> k == id
    ensures ch == Camera ==> k[|id|..] == "_Cam"
  {
    if ch == Camera then id + "_Cam" else id
  }

  /** The camera loop skips every non-binary message; the control loop forwards every type. */
  predicate Forwards(ch: Channel, msgType: MsgType): (fw: bool)
    ensures msgType == BinaryMessage ==> fw
    ensures ch == Camera && fw ==> msgType == BinaryMessage
  {
    ch == Control || msgType == BinaryMessage
  }

  /** The message written to the peer: the camera channel writes BinaryMessage, the control channel the type read. */
  function Outbound(ch: Channel, f: Frame): (o: Frame)
    ensures o.data == f.data
    ensures Forwards(ch, f.msgType) ==> o == f
  {
    if ch == Camera then Frame(BinaryMessage, f.data) else f
  }

  /** Which end of a pair a loop serves, with the registry key of the device concerned. */
  datatype Endpoint = DeviceEnd(deviceKey: string) | UserEnd(deviceKey: string)

  /** The peer a frame goes to: the controlling user's connection, or the device's connection. */
  function Peer(r: Registry.State, end: Endpoint): Option<Registry.Conn> {
    match end
    case DeviceEnd(k) =>
      (match Registry.UserByDevice(r, k)
       case Some(s) => Some(s.conn)
       case None => None)
    case UserEnd(k) => Registry.DeviceConn(r, k)
  }

  // ---------------------------------------------------------------------------
  // The forwarding loop
  // ---------------------------------------------------------------------------

  datatype RelayResult = RelayResult(state: Registry.State, effects: seq<Effect>)

  /**
   * The read loop: for each message it looks the peer up in the current registry and, if
   * the channel forwards that type and a peer exists, writes the message to it once; a
   * read error ends the loop; write errors are ignored.
   */
  function Relay(r: Registry.State, ch: Channel, end: Endpoint, events: seq<Event>): (res: RelayResult)
    ensures |res.effects| <= |ForwardedFrames(ch, events)|
    decreases |events|
  {
    if events == [] then RelayResult(r, [])
    else
      match events[0]
      case ReadError => RelayResult(r, [])
      case Concurrent(op) => Relay(Registry.Apply(r, op), ch, end, events[1..])
      case Inbound(f) =>
        var sent := if Forwards(ch, f.msgType) && Peer(r, end).Some? then [Send(Peer(r, end).value, Outbound(ch, f))] else [];
        var rest := Relay(r, ch, end, events[1..]);
        RelayResult(rest.state, sent + rest.effects)
  }

  /** The messages read before the first read error. */
  function Frames(events: seq<Event>): seq<Frame>
    decreases |events|
  {
    if events == [] || events[0].ReadError? then []
    else if events[0].Inbound? then [events[0].frame] + Frames(events[1..])
    else Frames(events[1..])
  }

  /** The messages read before the first read error that the channel forwards. */
  function ForwardedFrames(ch: Channel, events: seq<Event>): seq<Frame>
    decreases |events|
  {
    if events == [] || events[0].ReadError? then []
    else if events[0].Inbound? && Forwards(ch, events[0].frame.msgType) then [events[0].frame] + ForwardedFrames(ch, events[1..])
    else ForwardedFrames(ch, events[1..])
  }

  /** The other handlers' registry calls that happen before the first read error. */
  function OthersOps(events: seq<Event>): seq<Registry.Op>
    decreases |events|
  {
    if events == [] || events[0].ReadError? then []
    else if events[0].Concurrent? then [events[0].op] + OthersOps(events[1..])
    else OthersOps(events[1..])
  }

  /** The messages carried by a trace of effects. */
  function Payloads(effects: seq<Effect>): seq<Frame>
    requires forall i :: 0 <= i < |effects| ==> effects[i].Send?
  {
    seq(|effects|, i requires 0 <= i < |effects| => effects[i].frame)
  }

  /** One write of each frame to `dest`, in order. */
  function SendAll(dest: Registry.Conn, frames: seq<Frame>): seq<Effect> {
    seq(|frames|, i requires 0 <= i < |frames| => Send(dest, frames[i]))
  }

  /** `a` is `b` with some elements left out. */
  predicate IsSubsequence<T(==)>(a: seq<T>, b: seq<T>)
    decreases |b|
  {
    if b == [] then a == []
    else IsSubsequence(a, b[1..]) || (a != [] && a[0] == b[0] && IsSubsequence(a[1..], b[1..]))
  }

  /** Every element of a subsequence is an element of the sequence. */
  lemma {:induction false} SubsequenceMembers<T>(a: seq<T>, b: seq<T>)
    requires IsSubsequence(a, b)
    ensures forall x :: x in a ==> x in b
    decreases |b|
  {
    if b != [] {
      if IsSubsequence(a, b[1..]) {
        SubsequenceMembers(a, b[1..]);
      } else {
        SubsequenceMembers(a[1..], b[1..]);
        assert a == [a[0]] + a[1..];
      }
    }
  }

  /** A forwarded message is written unchanged: the camera channel only forwards binary messages. */
  lemma OutboundUnchanged(ch: Channel, f: Frame)
    requires Forwards(ch, f.msgType)
    ensures Outbound(ch, f) == f
  {
  }

  /** The loop ignores everything after the first read error. */
  lemma {:induction false} RelayStopsAtReadError(r: Registry.State, ch: Channel, end: Endpoint, pre: seq<Event>, post: seq<Event>)
    ensures Relay(r, ch, end, pre + [ReadError] + post) == Relay(r, ch, end, pre)
    decreases |pre|
  {
    var all := pre + [ReadError] + post;
    if pre == [] {
      assert all[0] == ReadError;
    } else {
      assert all[0] == pre[0] && all[1..] == pre[1..] + [ReadError] + post;
      match pre[0]
      case ReadError =>
      case Concurrent(op) => RelayStopsAtReadError(Registry.Apply(r, op), ch, end, pre[1..], post);
      case Inbound(f) => RelayStopsAtReadError(r, ch, end, pre[1..], post);
    }
  }

  /**
   * The loop only writes: every effect is a write of a forwarded message, unmodified, at
   * most once per message read and in the order read (a subsequence of the forwarded
   * messages, since a message with no peer is dropped).
   */
  lemma {:induction false} RelayWritesForwardedFrames(r: Registry.State, ch: Channel, end: Endpoint, events: seq<Event>)
    ensures forall i :: 0 <= i < |Relay(r, ch, end, events).effects| ==> Relay(r, ch, end, events).effects[i].Send?
    ensures IsSubsequence(Payloads(Relay(r, ch, end, events).effects), ForwardedFrames(ch, events))
    decreases |events|
  {
    if events != [] {
      match events[0]
      case ReadError =>
      case Concurrent(op) => RelayWritesForwardedFrames(Registry.Apply(r, op), ch, end, events[1..]);
      case Inbound(f) =>
        RelayWritesForwardedFrames(r, ch, end, events[1..]);
        var rest := Relay(r, ch, end, events[1..]).effects;
        var out := Relay(r, ch, end, events).effects;
        if Forwards(ch, f.msgType) && Peer(r, end).Some? {
          OutboundUnchanged(ch, f);
          assert out == [Send(Peer(r, end).value, f)] + rest;
          assert Payloads(out) == [f] + Payloads(rest);
        } else {
          assert out == rest;
        }
    }
  }

  /** The loop itself never changes the registry: its final state is the other handlers' calls applied in order. */
  lemma {:induction false} RelayStateIsOthersOps(r: Registry.State, ch: Channel, end: Endpoint, events: seq<Event>)
    ensures Relay(r, ch, end, events).state == Registry.ApplyAll(r, OthersOps(events))
    decreases |events|
  {
    if events != [] {
      match events[0]
      case ReadError =>
      case Concurrent(op) =>
        RelayStateIsOthersOps(Registry.Apply(r, op), ch, end, events[1..]);
        assert OthersOps(events)[1..] == OthersOps(events[1..]);
      case Inbound(f) => RelayStateIsOthersOps(r, ch, end, events[1..]);
    }
  }

  /**
   * The peer the loop looks up is `p` at every read up to the first read error; between
   * reads other handlers may change the registry freely, the peer included.
   */
  predicate PeerStays(r: Registry.State, end: Endpoint, events: seq<Event>, p: Option<Registry.Conn>)
    decreases |events|
  {
    if events == [] then true
    else
      match events[0]
      case ReadError => true
      case Concurrent(op) => PeerStays(Registry.Apply(r, op), end, events[1..], p)
      case Inbound(_) => Peer(r, end) == p && PeerStays(r, end, events[1..], p)
  }

  /**
   * With a peer that stays the same connection throughout (other handlers may register or
   * leave meanwhile), every forwarded message is written exactly once, unmodified and in
   * order, to that peer.
   */
  lemma {:induction false} RelayWithStablePeer(r: Registry.State, ch: Channel, end: Endpoint, events: seq<Event>, dest: Registry.Conn)
    requires PeerStays(r, end, events, Some(dest))
    ensures Relay(r, ch, end, events) == RelayResult(Registry.ApplyAll(r, OthersOps(events)), SendAll(dest, ForwardedFrames(ch, events)))
    decreases |events|
  {
    RelayStateIsOthersOps(r, ch, end, events);
    if events != [] && !events[0].ReadError? {
      match events[0]
      case ReadError =>
      case Concurrent(op) =>
        RelayWithStablePeer(Registry.Apply(r, op), ch, end, events[1..], dest);
      case Inbound(f) =>
        RelayWithStablePeer(r, ch, end, events[1..], dest);
        var rest := ForwardedFrames(ch, events[1..]);
        if Forwards(ch, f.msgType) {
          assert SendAll(dest, [f] + rest) == [Send(dest, f)] + SendAll(dest, rest);
        }
    }
  }

  /** With no peer at any read (other handlers may change the registry meanwhile), every message is dropped silently. */
  lemma {:induction false} RelayWithoutPeer(r: Registry.State, ch: Channel, end: Endpoint, events: seq<Event>)
    requires PeerStays(r, end, events, None)
    ensures Relay(r, ch, end, events) == RelayResult(Registry.ApplyAll(r, OthersOps(events)), [])
    decreases |events|
  {
    RelayStateIsOthersOps(r, ch, end, events);
    if events != [] && !events[0].ReadError? {
      match events[0]
      case ReadError =>
      case Concurrent(op) => RelayWithoutPeer(Registry.Apply(r, op), ch, end, events[1..]);
      case Inbound(f) => RelayWithoutPeer(r, ch, end, events[1..]);
    }
  }

  // ---------------------------------------------------------------------------
  // Admission and teardown
  // ---------------------------------------------------------------------------

  /** The identity lookup by access token (GetDeviceDetails / GetUserDetails). */
  datatype Lookup = Found(id: string) | LookupFailed(reason: string)

  /** The websocket upgrade: a new connection, or a handshake error. */
  datatype Upgrade = Upgraded(conn: Registry.Conn) | UpgradeFailed

  /** How a handler ends: a JSON error reply before any upgrade, a failed upgrade, or a closed connection. */
  datatype Outcome = Rejected(status: int, error: string) | NotUpgraded | Closed

  datatype Run = Run(outcome: Outcome, state: Registry.State, effects: seq<Effect>)

  const DeviceIdNotFound: string := "deviceId not found"
  const MissingIds: string := "missing userId or deviceId"

  /**
   * The device handler: token, identity, non-empty id, upgrade (a failure sets the device
   * offline), AddDevice under the channel key, online, the loop as the device end, and the
   * deferred RemoveDevice of the same key, offline and close.
   */
  function DeviceRun(ch: Channel, r: Registry.State, authHeader: string, identify: string -> Lookup,
                     upgrade: Upgrade, events: seq<Event>): Run
  {
    match GetMyToken(authHeader)
    case Failure(e) => Run(Rejected(StatusUnauthorized, e), r, [])
    case Success(token) =>
      match identify(token)
      case LookupFailed(reason) => Run(Rejected(StatusUnauthorized, reason), r, [])
      case Found(deviceId) =>
        if deviceId == "" then Run(Rejected(StatusBadRequest, DeviceIdNotFound), r, [])
        else
          match upgrade
          case UpgradeFailed => Run(NotUpgraded, r, [Presence(deviceId, false)])
          case Upgraded(conn) =>
            var key := Key(ch, deviceId);
            var relay := Relay(Registry.AddDevice(r, key, conn), ch, DeviceEnd(key), events);
            Run(Closed, Registry.RemoveDevice(relay.state, key),
                [Registered(Registry.AddDeviceOp(key, conn)), Presence(deviceId, true)]
                + relay.effects
                + [Registered(Registry.RemoveDeviceOp(key)), Presence(deviceId, false), Close(conn)])
  }

  /**
   * The user handler: token, identity, non-empty user id and `deviceId` query parameter,
   * upgrade, AddUser under the channel keys, the loop as the user end, and the deferred
   * RemoveUser of the same key and close. No presence call on either path.
   */
  function UserRun(ch: Channel, r: Registry.State, authHeader: string, identify: string -> Lookup,
                   deviceQuery: string, upgrade: Upgrade, events: seq<Event>): Run
  {
    match GetMyToken(authHeader)
    case Failure(e) => Run(Rejected(StatusUnauthorized, e), r, [])
    case Success(token) =>
      match identify(token)
      case LookupFailed(reason) => Run(Rejected(StatusUnauthorized, reason), r, [])
      case Found(userId) =>
        if userId == "" || deviceQuery == "" then Run(Rejected(StatusBadRequest, MissingIds), r, [])
        else
          match upgrade
          case UpgradeFailed => Run(NotUpgraded, r, [])
          case Upgraded(conn) =>
            var userKey := Key(ch, userId);
            var deviceKey := Key(ch, deviceQuery);
            var relay := Relay(Registry.AddUser(r, userKey, deviceKey, conn), ch, UserEnd(deviceKey), events);
            Run(Closed, Registry.RemoveUser(relay.state, userKey),
                [Registered(Registry.AddUserOp(userKey, deviceKey, conn))]
                + relay.effects
                + [Registered(Registry.RemoveUserOp(userKey)), Close(conn)])
  }

  /** A registry call or a close in a trace. */
  predicate Touches(e: Effect) {
    e.Registered? || e.Close?
  }

  /**
   * A rejected or failed admission never registers or closes anything and leaves the
   * registry as it was; a bad token or a failed lookup answers 401 with its message, an
   * empty id 400, and only a device's failed upgrade sets presence (that device, offline).
   */
  lemma DeviceRunWithoutUpgrade(ch: Channel, r: Registry.State, authHeader: string, identify: string -> Lookup,
                                upgrade: Upgrade, events: seq<Event>)
    ensures var run := DeviceRun(ch, r, authHeader, identify, upgrade, events);
            && (GetMyToken(authHeader).Failure? ==> run == Run(Rejected(StatusUnauthorized, GetMyToken(authHeader).error), r, []))
            && (GetMyToken(authHeader).Success? && identify(GetMyToken(authHeader).value).LookupFailed? ==>
                  run == Run(Rejected(StatusUnauthorized, identify(GetMyToken(authHeader).value).reason), r, []))
            && (GetMyToken(authHeader).Success? && identify(GetMyToken(authHeader).value).Found?
                && identify(GetMyToken(authHeader).value).id == "" ==>
                  run == Run(Rejected(StatusBadRequest, DeviceIdNotFound), r, []))
            && (GetMyToken(authHeader).Success? && identify(GetMyToken(authHeader).value).Found?
                && identify(GetMyToken(authHeader).value).id != "" && upgrade == UpgradeFailed ==>
                  run == Run(NotUpgraded, r, [Presence(identify(GetMyToken(authHeader).value).id, false)]))
            && (run.outcome.Rejected? ==> run.state == r && run.effects == [])
            && (run.outcome == NotUpgraded ==>
                  upgrade == UpgradeFailed && run.state == r && |run.effects| == 1 && run.effects[0].Presence? && !run.effects[0].online)
            && (run.outcome != Closed ==> forall e :: e in run.effects ==> !Touches(e))
  {
  }

  lemma UserRunWithoutUpgrade(ch: Channel, r: Registry.State, authHeader: string, identify: string -> Lookup,
                              deviceQuery: string, upgrade: Upgrade, events: seq<Event>)
    ensures var run := UserRun(ch, r, authHeader, identify, deviceQuery, upgrade, events);
            && (GetMyToken(authHeader).Failure? ==> run == Run(Rejected(StatusUnauthorized, GetMyToken(authHeader).error), r, []))
            && (GetMyToken(authHeader).Success? && identify(GetMyToken(authHeader).value).LookupFailed? ==>
                  run == Run(Rejected(StatusUnauthorized, identify(GetMyToken(authHeader).value).reason), r, []))
            && (GetMyToken(authHeader).Success? && identify(GetMyToken(authHeader).value).Found?
                && (identify(GetMyToken(authHeader).value).id == "" || deviceQuery == "") ==>
                  run == Run(Rejected(StatusBadRequest, MissingIds), r, []))
            && (GetMyToken(authHeader).Success? && identify(GetMyToken(authHeader).value).Found?
                && identify(GetMyToken(authHeader).value).id != "" && deviceQuery != "" && upgrade == UpgradeFailed ==>
                  run == Run(NotUpgraded, r, []))
            && (run.outcome != Closed ==> run.state == r && run.effects == [])
            && (run.outcome == Closed <==>
                  GetMyToken(authHeader).Success? && identify(GetMyToken(authHeader).value).Found?
                  && identify(GetMyToken(authHeader).value).id != "" && deviceQuery != "" && upgrade.Upgraded?)
  {
  }

  /** An admitted device's run, unfolded: register, online, the loop, deregister, offline, close. */
  lemma AdmittedDeviceRun(ch: Channel, r: Registry.State, authHeader: string, identify: string -> Lookup,
                          token: string, deviceId: string, conn: Registry.Conn, events: seq<Event>)
    requires GetMyToken(authHeader) == Success(token)
    requires identify(token) == Found(deviceId) && deviceId != ""
    ensures var key := Key(ch, deviceId);
            var relay := Relay(Registry.AddDevice(r, key, conn), ch, DeviceEnd(key), events);
            DeviceRun(ch, r, authHeader, identify, Upgraded(conn), events)
            == Run(Closed, Registry.RemoveDevice(relay.state, key),
                   [Registered(Registry.AddDeviceOp(key, conn)), Presence(deviceId, true)]
                   + relay.effects
                   + [Registered(Registry.RemoveDeviceOp(key)), Presence(deviceId, false), Close(conn)])
  {
  }

  /** An admitted user's run, unfolded: register, the loop, remove the user, close. */
  lemma AdmittedUserRun(ch: Channel, r: Registry.State, authHeader: string, identify: string -> Lookup,
                        token: string, userId: string, deviceQuery: string, conn: Registry.Conn, events: seq<Event>)
    requires GetMyToken(authHeader) == Success(token)
    requires identify(token) == Found(userId) && userId != "" && deviceQuery != ""
    ensures var userKey := Key(ch, userId);
            var deviceKey := Key(ch, deviceQuery);
            var relay := Relay(Registry.AddUser(r, userKey, deviceKey, conn), ch, UserEnd(deviceKey), events);
            UserRun(ch, r, authHeader, identify, deviceQuery, Upgraded(conn), events)
            == Run(Closed, Registry.RemoveUser(relay.state, userKey),
                   [Registered(Registry.AddUserOp(userKey, deviceKey, conn))]
                   + relay.effects
                   + [Registered(Registry.RemoveUserOp(userKey)), Close(conn)])
  {
  }

  /**
   * A device session that got through admission: it registers under the channel key, then
   * goes online, then only writes frames, then deregisters the same key, goes offline and
   * closes; afterwards neither GetDeviceConn nor GetUserByDevice find that key.
   */
  lemma DeviceRunLifecycle(ch: Channel, r: Registry.State, authHeader: string, identify: string -> Lookup,
                           token: string, deviceId: string, conn: Registry.Conn, events: seq<Event>)
    requires GetMyToken(authHeader) == Success(token)
    requires identify(token) == Found(deviceId) && deviceId != ""
    ensures var run := DeviceRun(ch, r, authHeader, identify, Upgraded(conn), events);
            var key := Key(ch, deviceId);
            var n := |run.effects|;
            && run.outcome == Closed
            && n >= 5
            && run.effects[..2] == [Registered(Registry.AddDeviceOp(key, conn)), Presence(deviceId, true)]
            && (forall i :: 2 <= i < n - 3 ==> run.effects[i].Send?)
            && run.effects[n - 3..] == [Registered(Registry.RemoveDeviceOp(key)), Presence(deviceId, false), Close(conn)]
            && run.state == Registry.RemoveDevice(Registry.ApplyAll(Registry.AddDevice(r, key, conn), OthersOps(events)), key)
            && Registry.DeviceConn(run.state, key).None?
            && Registry.UserByDevice(run.state, key).None?
  {
    var key := Key(ch, deviceId);
    var r1 := Registry.AddDevice(r, key, conn);
    RelayWritesForwardedFrames(r1, ch, DeviceEnd(key), events);
    RelayStateIsOthersOps(r1, ch, DeviceEnd(key), events);
    var run := DeviceRun(ch, r, authHeader, identify, Upgraded(conn), events);
    var sent := Relay(r1, ch, DeviceEnd(key), events).effects;
    assert run.effects == [Registered(Registry.AddDeviceOp(key, conn)), Presence(deviceId, true)] + sent
                          + [Registered(Registry.RemoveDeviceOp(key)), Presence(deviceId, false), Close(conn)];
    forall i | 2 <= i < |run.effects| - 3 ensures run.effects[i].Send? {
      assert run.effects[i] == sent[i - 2];
    }
  }

  /**
   * A user session that got through admission: it registers (user key, device key), then
   * only writes frames, then removes the same user key and closes; the final registry is the
   * other handlers' calls applied after the AddUser, then the RemoveUser, and GetUser finds
   * no session under that key.
   */
  lemma UserRunLifecycle(ch: Channel, r: Registry.State, authHeader: string, identify: string -> Lookup,
                         token: string, userId: string, deviceQuery: string, conn: Registry.Conn, events: seq<Event>)
    requires GetMyToken(authHeader) == Success(token)
    requires identify(token) == Found(userId) && userId != "" && deviceQuery != ""
    ensures var run := UserRun(ch, r, authHeader, identify, deviceQuery, Upgraded(conn), events);
            var userKey := Key(ch, userId);
            var n := |run.effects|;
            && run.outcome == Closed
            && n >= 3
            && run.effects[0] == Registered(Registry.AddUserOp(userKey, Key(ch, deviceQuery), conn))
            && (forall i :: 1 <= i < n - 2 ==> run.effects[i].Send?)
            && run.effects[n - 2..] == [Registered(Registry.RemoveUserOp(userKey)), Close(conn)]
            && run.state == Registry.RemoveUser(Registry.ApplyAll(Registry.AddUser(r, userKey, Key(ch, deviceQuery), conn), OthersOps(events)), userKey)
            && Registry.User(run.state, userKey).None?
  {
    var userKey, deviceKey := Key(ch, userId), Key(ch, deviceQuery);
    var r1 := Registry.AddUser(r, userKey, deviceKey, conn);
    var relay := Relay(r1, ch, UserEnd(deviceKey), events);
    var run := UserRun(ch, r, authHeader, identify, deviceQuery, Upgraded(conn), events);
    AdmittedUserRun(ch, r, authHeader, identify, token, userId, deviceQuery, conn, events);
    RelayStateIsOthersOps(r1, ch, UserEnd(deviceKey), events);
    assert run.state == Registry.RemoveUser(relay.state, userKey);
    RelayWritesForwardedFrames(r1, ch, UserEnd(deviceKey), events);
    var sent := relay.effects;
    assert run.effects == [Registered(Registry.AddUserOp(userKey, deviceKey, conn))] + sent
                          + [Registered(Registry.RemoveUserOp(userKey)), Close(conn)];
    forall i | 1 <= i < |run.effects| - 2 ensures run.effects[i].Send? {
      assert run.effects[i] == sent[i - 1];
    }
  }

  // ---------------------------------------------------------------------------
  // The handlers as they run
  // ---------------------------------------------------------------------------

  /** A registry call made by another connection's handler. */
  method Perform(sm: SessionManager, op: Registry.Op)
    requires sm.Valid()
    modifies sm
    ensures sm.Valid()
    ensures sm.Model() == Registry.Apply(old(sm.Model()), op)
  {
    match op
    case AddDeviceOp(d, c) => sm.AddDevice(d, c);
    case RemoveDeviceOp(d) => sm.RemoveDevice(d);
    case AddUserOp(u, d, c) => sm.AddUser(u, d, c);
    case RemoveUserOp(u) => sm.RemoveUser(u);
  }

  /** The per-frame peer lookup: GetUserByDevice(key).Conn at a device end, GetDeviceConn(key) at a user end. */
  method FindPeer(sm: SessionManager, end: Endpoint) returns (peer: Option<Registry.Conn>)
    requires sm.Valid()
    ensures peer.Some? <==> (if end.DeviceEnd? then Registry.UserByDevice(sm.Model(), end.deviceKey).Some?
                                               else end.deviceKey in sm.devices)
    ensures end.DeviceEnd? && peer.Some? ==> peer.value == Registry.UserByDevice(sm.Model(), end.deviceKey).value.conn
    ensures end.UserEnd? && peer.Some? ==> peer.value == sm.devices[end.deviceKey]
  {
    match end
    case DeviceEnd(k) =>
      var session := sm.GetUserByDevice(k);
      peer := if session.Some? then Some(session.value.conn) else None;
    case UserEnd(k) =>
      peer := sm.GetDeviceConn(k);
  }

  /** The read loop, against the shared registry; its run is exactly Relay. */
  method RelayLoop(sm: SessionManager, ch: Channel, end: Endpoint, events: seq<Event>) returns (effects: seq<Effect>)
    requires sm.Valid()
    modifies sm
    ensures sm.Valid()
    ensures Relay(old(sm.Model()), ch, end, events) == RelayResult(sm.Model(), effects)
  {
    effects := [];
    var i := 0;
    while i < |events| && !events[i].ReadError?
      invariant 0 <= i <= |events|
      invariant sm.Valid()
      invariant var rest := Relay(sm.Model(), ch, end, events[i..]);
                Relay(old(sm.Model()), ch, end, events) == RelayResult(rest.state, effects + rest.effects)
      decreases |events| - i
    {
      assert events[i..][1..] == events[i + 1..];
      match events[i] {
        case Concurrent(op) =>
          Perform(sm, op);
        case Inbound(f) =>
          var sent: seq<Effect> := [];
          if Forwards(ch, f.msgType) {
            var peer := FindPeer(sm, end);
            if peer.Some? {
              sent := [Send(peer.value, Outbound(ch, f))];
            }
          }
          ghost var rest := Relay(sm.Model(), ch, end, events[i + 1..]);
          assert effects + (sent + rest.effects) == (effects + sent) + rest.effects;
          effects := effects + sent;
      }
      i := i + 1;
    }
  }

  /** HandleDeviceWS / HandleDeviceWSCam, on the channel's own registry. */
  method ServeDevice(ch: Channel, sm: SessionManager, authHeader: string, identify: string -> Lookup,
                     upgrade: Upgrade, events: seq<Event>) returns (outcome: Outcome, effects: seq<Effect>)
    requires sm.Valid()
    modifies sm
    ensures sm.Valid()
    ensures DeviceRun(ch, old(sm.Model()), authHeader, identify, upgrade, events) == Run(outcome, sm.Model(), effects)
  {
    var token := GetMyToken(authHeader);
    if token.Failure? {
      return Rejected(StatusUnauthorized, token.error), [];
    }
    var details := identify(token.value);
    if details.LookupFailed? {
      return Rejected(StatusUnauthorized, details.reason), [];
    }
    var deviceId := details.id;
    if deviceId == "" {
      return Rejected(StatusBadRequest, DeviceIdNotFound), [];
    }
    if upgrade.UpgradeFailed? {
      return NotUpgraded, [Presence(deviceId, false)];
    }
    var conn := upgrade.conn;
    var key := Key(ch, deviceId);
    sm.AddDevice(key, conn);
    effects := [Registered(Registry.AddDeviceOp(key, conn)), Presence(deviceId, true)];
    var sent := RelayLoop(sm, ch, DeviceEnd(key), events);
    effects := effects + sent;
    // deferred teardown
    sm.RemoveDevice(key);
    effects := effects + [Registered(Registry.RemoveDeviceOp(key)), Presence(deviceId, false), Close(conn)];
    outcome := Closed;
  }

  /** HandleUserWS / HandleUserWSCam, on the channel's own registry. */
  method ServeUser(ch: Channel, sm: SessionManager, authHeader: string, identify: string -> Lookup,
                   deviceQuery: string, upgrade: Upgrade, events: seq<Event>) returns (outcome: Outcome, effects: seq<Effect>)
    requires sm.Valid()
    modifies sm
    ensures sm.Valid()
    ensures UserRun(ch, old(sm.Model()), authHeader, identify, deviceQuery, upgrade, events) == Run(outcome, sm.Model(), effects)
  {
    var token := GetMyToken(authHeader);
    if token.Failure? {
      return Rejected(StatusUnauthorized, token.error), [];
    }
    var details := identify(token.value);
    if details.LookupFailed? {
      return Rejected(StatusUnauthorized, details.reason), [];
    }
    var userId := details.id;
    if userId == "" || deviceQuery == "" {
      return Rejected(StatusBadRequest, MissingIds), [];
    }
    if upgrade.UpgradeFailed? {
      return NotUpgraded, [];
    }
    var conn := upgrade.conn;
    var userKey := Key(ch, userId);
    var deviceKey := Key(ch, deviceQuery);
    sm.AddUser(userKey, deviceKey, conn);
    effects := [Registered(Registry.AddUserOp(userKey, deviceKey, conn))];
    var sent := RelayLoop(sm, ch, UserEnd(deviceKey), events);
    effects := effects + sent;
    // deferred teardown
    sm.RemoveUser(userKey);
    effects := effects + [Registered(Registry.RemoveUserOp(userKey)), Close(conn)];
    outcome := Closed;
  }
}
