/**
 * controllers/websocket/websocket_controller.go: the camera channel. The package keeps its
 * own SessionManager, registers under "_Cam" keys and forwards binary messages only.
 */
module CameraChannel {
  import Registry
  import opened SocketSession
  import opened Wrappers
  import opened CommonController
  import opened Handlers

  /** The package: its handlers and the package-level registry no other package shares. */
  class WebsocketController {
    const sessionManager: SessionManager

    constructor ()
      ensures fresh(sessionManager)
      ensures sessionManager.Valid() && sessionManager.Model() == Registry.Empty()
    {
      sessionManager := new SessionManager();
    }

    /** HandleDeviceWSCam: runs as DeviceRun on the camera channel, changing only this package's registry. */
    method HandleDeviceWSCam(authHeader: string, identify: string -> Lookup, upgrade: Upgrade, events: seq<Event>)
      returns (outcome: Outcome, effects: seq<Effect>)
      requires sessionManager.Valid()
      modifies sessionManager
      ensures sessionManager.Valid()
      ensures DeviceRun(Camera, old(sessionManager.Model()), authHeader, identify, upgrade, events)
              == Run(outcome, sessionManager.Model(), effects)
    {
      outcome, effects := ServeDevice(Camera, sessionManager, authHeader, identify, upgrade, events);
    }

    /** HandleUserWSCam: runs as UserRun on the camera channel, changing only this package's registry. */
    method HandleUserWSCam(authHeader: string, identify: string -> Lookup, deviceQuery: string, upgrade: Upgrade, events: seq<Event>)
      returns (outcome: Outcome, effects: seq<Effect>)
      requires sessionManager.Valid()
      modifies sessionManager
      ensures sessionManager.Valid()
      ensures UserRun(Camera, old(sessionManager.Model()), authHeader, identify, deviceQuery, upgrade, events)
              == Run(outcome, sessionManager.Model(), effects)
    {
      outcome, effects := ServeUser(Camera, sessionManager, authHeader, identify, deviceQuery, upgrade, events);
    }
  }

  /** Every write a camera loop makes is a BinaryMessage carrying bytes it read in a binary message. */
  lemma CameraWritesOnlyBinary(r: Registry.State, end: Endpoint, events: seq<Event>)
    ensures var effects := Relay(r, Camera, end, events).effects;
            forall i :: 0 <= i < |effects| ==>
              effects[i].Send? && effects[i].frame.msgType == BinaryMessage && effects[i].frame in Frames(events)
  {
    RelayWritesForwardedFrames(r, Camera, end, events);
    var effects := Relay(r, Camera, end, events).effects;
    SubsequenceMembers(Payloads(effects), ForwardedFrames(Camera, events));
    ForwardedAreBinaryFrames(events);
    forall i | 0 <= i < |effects|
      ensures effects[i].frame.msgType == BinaryMessage && effects[i].frame in Frames(events)
    {
      assert Payloads(effects)[i] == effects[i].frame;
    }
  }

  /** The binary messages of `fs`, in order. */
  function BinaryFrames(fs: seq<Frame>): seq<Frame>
    ensures forall f :: f in BinaryFrames(fs) <==> f in fs && f.msgType == BinaryMessage
  {
    if fs == [] then []
    else if fs[0].msgType == BinaryMessage then [fs[0]] + BinaryFrames(fs[1..])
    else BinaryFrames(fs[1..])
  }

  /** The camera channel forwards exactly the binary messages read, in order. */
  lemma {:induction false} ForwardedAreBinaryFrames(events: seq<Event>)
    ensures ForwardedFrames(Camera, events) == BinaryFrames(Frames(events))
    ensures forall f :: f in ForwardedFrames(Camera, events) <==> f in Frames(events) && f.msgType == BinaryMessage
    decreases |events|
  {
    if events != [] && !events[0].ReadError? {
      ForwardedAreBinaryFrames(events[1..]);
      if events[0].Inbound? {
        assert Frames(events) == [events[0].frame] + Frames(events[1..]);
        assert ([events[0].frame] + Frames(events[1..]))[1..] == Frames(events[1..]);
      }
    }
  }

  /** A camera loop that reads no binary message writes nothing, whatever the registry does. */
  lemma {:induction false} CameraDropsNonBinary(r: Registry.State, end: Endpoint, events: seq<Event>)
    requires forall i :: 0 <= i < |events| && events[i].Inbound? ==> events[i].frame.msgType != BinaryMessage
    ensures Relay(r, Camera, end, events).effects == []
    decreases |events|
  {
    if events != [] && !events[0].ReadError? {
      if events[0].Concurrent? {
        CameraDropsNonBinary(Registry.Apply(r, events[0].op), end, events[1..]);
      } else {
        CameraDropsNonBinary(r, end, events[1..]);
      }
    }
  }

  /** The camera device handler registers and deregisters deviceId + "_Cam". */
  lemma CameraDeviceUsesCamKey(r: Registry.State, authHeader: string, identify: string -> Lookup,
                               token: string, deviceId: string, conn: Registry.Conn, events: seq<Event>)
    requires GetMyToken(authHeader) == Success(token)
    requires identify(token) == Found(deviceId) && deviceId != ""
    ensures var run := DeviceRun(Camera, r, authHeader, identify, Upgraded(conn), events);
            && run.effects[0] == Registered(Registry.AddDeviceOp(deviceId + "_Cam", conn))
            && run.effects[1] == Presence(deviceId, true)
            && run.effects[|run.effects| - 3] == Registered(Registry.RemoveDeviceOp(deviceId + "_Cam"))
            && Registry.DeviceConn(run.state, deviceId + "_Cam").None?
  {
    DeviceRunLifecycle(Camera, r, authHeader, identify, token, deviceId, conn, events);
    var run := DeviceRun(Camera, r, authHeader, identify, Upgraded(conn), events);
    assert run.effects[..2][0] == run.effects[0] && run.effects[..2][1] == run.effects[1];
    var n := |run.effects|;
    assert run.effects[n - 3..][0] == run.effects[n - 3];
  }

  /** The camera user handler registers (userId + "_Cam", deviceId + "_Cam") and removes userId + "_Cam". */
  lemma CameraUserUsesCamKeys(r: Registry.State, authHeader: string, identify: string -> Lookup,
                              token: string, userId: string, deviceQuery: string, conn: Registry.Conn, events: seq<Event>)
    requires GetMyToken(authHeader) == Success(token)
    requires identify(token) == Found(userId) && userId != "" && deviceQuery != ""
    ensures var run := UserRun(Camera, r, authHeader, identify, deviceQuery, Upgraded(conn), events);
            && run.effects[0] == Registered(Registry.AddUserOp(userId + "_Cam", deviceQuery + "_Cam", conn))
            && run.effects[|run.effects| - 2] == Registered(Registry.RemoveUserOp(userId + "_Cam"))
  {
    UserRunLifecycle(Camera, r, authHeader, identify, token, userId, deviceQuery, conn, events);
    var run := UserRun(Camera, r, authHeader, identify, deviceQuery, Upgraded(conn), events);
    var n := |run.effects|;
    assert run.effects[n - 2..][0] == run.effects[n - 2];
  }

  /** The identity lookup of the scenario below: a device token and a user token. */
  function ScenarioIdentity(token: string): Lookup {
    if token == "tokD1" then Found("D1")
    else if token == "tokU1" then Found("U1")
    else LookupFailed("mongo: no documents in result")
  }

  /** The scenario's device-side events: U1 registers, then a text message, the payload, a read error. */
  function ScenarioEvents(): seq<Event> {
    [Concurrent(Registry.AddUserOp("U1_Cam", "D1_Cam", 2)),
     Inbound(Frame(TextMessage, [0x01])), Inbound(Frame(BinaryMessage, [0xAA, 0xBB])), ReadError]
  }

  /** D1's camera handler run in the scenario, from a new registry with connection 1. */
  function ScenarioRun(): Run {
    DeviceRun(Camera, Registry.Empty(), "Bearer tokD1", ScenarioIdentity, Upgraded(1), ScenarioEvents())
  }

  /** Regrouping a six-element trace; generic, so the solver does not unfold the elements. */
  lemma SixInOrder<T>(a: T, b: T, c: T, d: T, e: T, f: T)
    ensures [a, b] + [c] + [d, e, f] == [a, b, c, d, e, f]
  {
  }

  lemma ScenarioKey()
    ensures Key(Camera, "D1") == "D1_Cam"
  {
    assert "D1" + "_Cam" == "D1_Cam";
  }

  /** The scenario's device token is accepted. */
  lemma ScenarioToken()
    ensures GetMyToken("Bearer tokD1") == Success("tokD1")
  {
    BearerTokenRoundTrip("Bearer", " ", "tokD1", "");
    assert "Bearer" + " " + "tokD1" + "" == "Bearer tokD1";
  }

  /** The scenario's device loop: the text message is dropped, the payload goes to U1's connection. */
  lemma ScenarioRelay()
    ensures var r1 := Registry.AddDevice(Registry.Empty(), "D1_Cam", 1);
            Relay(r1, Camera, DeviceEnd("D1_Cam"), ScenarioEvents())
            == RelayResult(Registry.AddUser(r1, "U1_Cam", "D1_Cam", 2), [Send(2, Frame(BinaryMessage, [0xAA, 0xBB]))])
  {
    var payload := Frame(BinaryMessage, [0xAA, 0xBB]);
    var r1 := Registry.AddDevice(Registry.Empty(), "D1_Cam", 1);
    var r2 := Registry.AddUser(r1, "U1_Cam", "D1_Cam", 2);
    var events := ScenarioEvents();
    assert Peer(r2, DeviceEnd("D1_Cam")) == Some(2);
    assert Relay(r2, Camera, DeviceEnd("D1_Cam"), events[3..]) == RelayResult(r2, []);
    assert Relay(r2, Camera, DeviceEnd("D1_Cam"), events[2..]) == RelayResult(r2, [Send(2, payload)]);
    assert Relay(r2, Camera, DeviceEnd("D1_Cam"), events[1..]) == RelayResult(r2, [Send(2, payload)]);
    assert events[0] == Concurrent(Registry.AddUserOp("U1_Cam", "D1_Cam", 2));
    assert Registry.Apply(r1, events[0].op) == r2;
  }

  /** The registry after the scenario: D1 gone, U1's session still naming D1. */
  function ScenarioFinal(): Registry.State {
    Registry.RemoveDevice(Registry.AddUser(Registry.AddDevice(Registry.Empty(), "D1_Cam", 1), "U1_Cam", "D1_Cam", 2), "D1_Cam")
  }

  /** D1's run in the scenario: closed, ending in ScenarioFinal, with the trace written out. */
  lemma ScenarioRunIs()
    ensures ScenarioRun() == Run(Closed, ScenarioFinal(),
                                           [Registered(Registry.AddDeviceOp("D1_Cam", 1)), Presence("D1", true),
                                            Send(2, Frame(BinaryMessage, [0xAA, 0xBB])),
                                            Registered(Registry.RemoveDeviceOp("D1_Cam")), Presence("D1", false), Close(1)])
  {
    var e0, e1, e2 := Registered(Registry.AddDeviceOp("D1_Cam", 1)), Presence("D1", true), Send(2, Frame(BinaryMessage, [0xAA, 0xBB]));
    var e3, e4, e5 := Registered(Registry.RemoveDeviceOp("D1_Cam")), Presence("D1", false), Close(1);
    ScenarioToken();
    ScenarioKey();
    var r1 := Registry.AddDevice(Registry.Empty(), "D1_Cam", 1);
    var relay := Relay(r1, Camera, DeviceEnd("D1_Cam"), ScenarioEvents());
    ScenarioRelay();
    assert relay == RelayResult(Registry.AddUser(r1, "U1_Cam", "D1_Cam", 2), [e2]);
    assert ScenarioIdentity("tokD1") == Found("D1");
    AdmittedDeviceRun(Camera, Registry.Empty(), "Bearer tokD1", ScenarioIdentity, "tokD1", "D1", 1, ScenarioEvents());
    assert ScenarioRun() == Run(Closed, Registry.RemoveDevice(relay.state, "D1_Cam"), [e0, e1] + relay.effects + [e3, e4, e5]);
    SixInOrder(e0, e1, e2, e3, e4, e5);
  }

  /**
   * End to end: device D1 is admitted on connection 1; while its loop runs, user U1's
   * handler registers for D1 on connection 2 (the call UserRunLifecycle shows it makes);
   * D1 reads a text message, which is dropped, then the binary payload AA BB, which U1's
   * connection receives exactly once. D1's read then fails: it deregisters, goes offline
   * and closes, and a frame U1 sends afterwards finds no device and is dropped.
   */
  lemma CameraEndToEnd()
    ensures var run := ScenarioRun();
            && run.outcome == Closed
            && run.effects == [Registered(Registry.AddDeviceOp("D1_Cam", 1)), Presence("D1", true),
                               Send(2, Frame(BinaryMessage, [0xAA, 0xBB])),
                               Registered(Registry.RemoveDeviceOp("D1_Cam")), Presence("D1", false), Close(1)]
            && Registry.DeviceConn(run.state, "D1_Cam").None?
            && Registry.User(run.state, "U1_Cam") == Some(Registry.Session("U1_Cam", "D1_Cam", 2))
            && Relay(run.state, Camera, UserEnd("D1_Cam"), [Inbound(Frame(BinaryMessage, [0x01]))]).effects == []
  {
    ScenarioRunIs();
    var r3 := ScenarioFinal();
    assert Peer(r3, UserEnd("D1_Cam")).None?;
    assert "U1_Cam" in r3.users;
  }
}
