/**
 * controllers/websocket_controller.go: the control channel. The package keeps its own
 * SessionManager, registers devices and users under their raw ids and forwards every
 * message type unchanged.
 */
module ControlChannel {
  import Registry
  import opened SocketSession
  import opened Wrappers
  import opened CommonController
  import opened Handlers

  /** The package: its handlers and the package-level registry no other package shares. */
  class WebsocketController {
    const sessionManager: SessionManager

    constructor ()
      ensures fresh(sessionManager)
      ensures sessionManager.Valid() && sessionManager.Model() == Registry.Empty()
    {
      sessionManager := new SessionManager();
    }

    /** HandleDeviceWS: runs as DeviceRun on the control channel, changing only this package's registry. */
    method HandleDeviceWS(authHeader: string, identify: string -> Lookup, upgrade: Upgrade, events: seq<Event>)
      returns (outcome: Outcome, effects: seq<Effect>)
      requires sessionManager.Valid()
      modifies sessionManager
      ensures sessionManager.Valid()
      ensures DeviceRun(Control, old(sessionManager.Model()), authHeader, identify, upgrade, events)
              == Run(outcome, sessionManager.Model(), effects)
    {
      outcome, effects := ServeDevice(Control, sessionManager, authHeader, identify, upgrade, events);
    }

    /** HandleUserWS: runs as UserRun on the control channel, changing only this package's registry. */
    method HandleUserWS(authHeader: string, identify: string -> Lookup, deviceQuery: string, upgrade: Upgrade, events: seq<Event>)
      returns (outcome: Outcome, effects: seq<Effect>)
      requires sessionManager.Valid()
      modifies sessionManager
      ensures sessionManager.Valid()
      ensures UserRun(Control, old(sessionManager.Model()), authHeader, identify, deviceQuery, upgrade, events)
              == Run(outcome, sessionManager.Model(), effects)
    {
      outcome, effects := ServeUser(Control, sessionManager, authHeader, identify, deviceQuery, upgrade, events);
    }
  }

  /** The control loop forwards every message it reads, whatever its type. */
  lemma {:induction false} ControlForwardsEveryType(events: seq<Event>)
    ensures ForwardedFrames(Control, events) == Frames(events)
    decreases |events|
  {
    if events != [] && !events[0].ReadError? {
      ControlForwardsEveryType(events[1..]);
    }
  }

  /**
   * With its peer the same connection throughout (other handlers may change the registry
   * meanwhile), a control loop writes each message it reads (text or binary) exactly once
   * to the peer, with the same type and bytes, in order.
   */
  lemma ControlRelaysEveryFrame(r: Registry.State, end: Endpoint, events: seq<Event>, dest: Registry.Conn)
    requires PeerStays(r, end, events, Some(dest))
    ensures Relay(r, Control, end, events).effects == SendAll(dest, Frames(events))
  {
    RelayWithStablePeer(r, Control, end, events, dest);
    ControlForwardsEveryType(events);
  }

  /** The control device handler registers and deregisters the raw device id. */
  lemma ControlDeviceUsesRawId(r: Registry.State, authHeader: string, identify: string -> Lookup,
                               token: string, deviceId: string, conn: Registry.Conn, events: seq<Event>)
    requires GetMyToken(authHeader) == Success(token)
    requires identify(token) == Found(deviceId) && deviceId != ""
    ensures var run := DeviceRun(Control, r, authHeader, identify, Upgraded(conn), events);
            && run.effects[0] == Registered(Registry.AddDeviceOp(deviceId, conn))
            && run.effects[|run.effects| - 3] == Registered(Registry.RemoveDeviceOp(deviceId))
            && Registry.DeviceConn(run.state, deviceId).None?
  {
    DeviceRunLifecycle(Control, r, authHeader, identify, token, deviceId, conn, events);
    var run := DeviceRun(Control, r, authHeader, identify, Upgraded(conn), events);
    assert run.effects[..2][0] == run.effects[0];
    var n := |run.effects|;
    assert run.effects[n - 3..][0] == run.effects[n - 3];
  }

  /** The control user handler registers (userId, deviceId) and removes userId, both raw. */
  lemma ControlUserUsesRawIds(r: Registry.State, authHeader: string, identify: string -> Lookup,
                              token: string, userId: string, deviceQuery: string, conn: Registry.Conn, events: seq<Event>)
    requires GetMyToken(authHeader) == Success(token)
    requires identify(token) == Found(userId) && userId != "" && deviceQuery != ""
    ensures var run := UserRun(Control, r, authHeader, identify, deviceQuery, Upgraded(conn), events);
            && run.effects[0] == Registered(Registry.AddUserOp(userId, deviceQuery, conn))
            && run.effects[|run.effects| - 2] == Registered(Registry.RemoveUserOp(userId))
  {
    UserRunLifecycle(Control, r, authHeader, identify, token, userId, deviceQuery, conn, events);
    var run := UserRun(Control, r, authHeader, identify, deviceQuery, Upgraded(conn), events);
    var n := |run.effects|;
    assert run.effects[n - 2..][0] == run.effects[n - 2];
  }
}
