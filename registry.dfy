/**
 * The pairing registry of mywebsocket/socketSession.go as a value: the three maps of a
 * SessionManager and the effect of each of its operations on them. The class in
 * socket_session.dfy is proved against these functions; the lemmas here state what the
 * operations guarantee across calls, including where the inverse index goes stale.
 */
module Registry {
  import opened Wrappers

  /** An upgraded websocket connection, identified by an opaque handle. */
  type Conn = nat

  /** Session: a user connection and the device it controls. */
  datatype Session = Session(userId: string, deviceId: string, conn: Conn)

  /**
   * The three maps: device id to device connection, user id to user session, and the
   * inverse index device id to the id of the user controlling it.
   */
  datatype State = State(
    devices: map<string, Conn>,
    users: map<string, Session>,
    userByDevice: map<string, string>)

  /** NewSessionManager. */
  function Empty(): State {
    State(map[], map[], map[])
  }

  /** AddDevice: insert or overwrite the device's connection. */
  function AddDevice(r: State, deviceId: string, conn: Conn): State {
    r.(devices := r.devices[deviceId := conn])
  }

  /** RemoveDevice: drop the device's connection and its inverse-index entry. */
  function RemoveDevice(r: State, deviceId: string): State {
    r.(devices := r.devices - {deviceId}, userByDevice := r.userByDevice - {deviceId})
  }

  /** AddUser: store a new session for the user and point the device's inverse entry at the user. */
  function AddUser(r: State, userId: string, deviceId: string, conn: Conn): State {
    r.(users := r.users[userId := Session(userId, deviceId, conn)],
       userByDevice := r.userByDevice[deviceId := userId])
  }

  /**
   * RemoveUser: if the user has a session, delete the inverse entry of that session's
   * device, whoever it names now; then delete the session.
   */
  function RemoveUser(r: State, userId: string): State {
    var inverse := if userId in r.users then r.userByDevice - {r.users[userId].deviceId} else r.userByDevice;
    r.(users := r.users - {userId}, userByDevice := inverse)
  }

  /** GetDeviceConn: the device's connection, or nil. */
  function DeviceConn(r: State, deviceId: string): Option<Conn> {
    if deviceId in r.devices then Some(r.devices[deviceId]) else None
  }

  /** GetUser: the user's session, or nil. */
  function User(r: State, userId: string): Option<Session> {
    if userId in r.users then Some(r.users[userId]) else None
  }

  /** GetUserByDevice: the session of the user the inverse index names for the device, or nil. */
  function UserByDevice(r: State, deviceId: string): Option<Session> {
    if deviceId !in r.userByDevice then None else User(r, r.userByDevice[deviceId])
  }

  // ---------------------------------------------------------------------------
  // Operations as data, so that histories of calls can be stated
  // ---------------------------------------------------------------------------

  datatype Op =
    | AddDeviceOp(deviceId: string, conn: Conn)
    | RemoveDeviceOp(deviceId: string)
    | AddUserOp(userId: string, deviceId: string, conn: Conn)
    | RemoveUserOp(userId: string)

  function Apply(r: State, op: Op): State {
    match op
    case AddDeviceOp(d, c) => AddDevice(r, d, c)
    case RemoveDeviceOp(d) => RemoveDevice(r, d)
    case AddUserOp(u, d, c) => AddUser(r, u, d, c)
    case RemoveUserOp(u) => RemoveUser(r, u)
  }

  /** The state after the calls `ops`, in order. */
  function ApplyAll(r: State, ops: seq<Op>): State
    decreases |ops|
  {
    if ops == [] then r else ApplyAll(Apply(r, ops[0]), ops[1..])
  }

  // ---------------------------------------------------------------------------
  // What each call does, as seen through the three lookups
  // ---------------------------------------------------------------------------

  /** A fresh registry answers nil to every lookup. */
  lemma EmptyAnswersNil(deviceId: string, userId: string)
    ensures DeviceConn(Empty(), deviceId).None?
    ensures User(Empty(), userId).None?
    ensures UserByDevice(Empty(), deviceId).None?
  {
  }

  /** AddDevice changes the answer of GetDeviceConn for that device only, and no other lookup. */
  lemma AddDeviceObserved(r: State, deviceId: string, conn: Conn, d: string, u: string)
    ensures DeviceConn(AddDevice(r, deviceId, conn), d) == if d == deviceId then Some(conn) else DeviceConn(r, d)
    ensures User(AddDevice(r, deviceId, conn), u) == User(r, u)
    ensures UserByDevice(AddDevice(r, deviceId, conn), d) == UserByDevice(r, d)
  {
  }

  /** After RemoveDevice, both device lookups answer nil; sessions are untouched. */
  lemma RemoveDeviceObserved(r: State, deviceId: string, d: string, u: string)
    ensures DeviceConn(RemoveDevice(r, deviceId), deviceId).None?
    ensures UserByDevice(RemoveDevice(r, deviceId), deviceId).None?
    ensures d != deviceId ==> DeviceConn(RemoveDevice(r, deviceId), d) == DeviceConn(r, d)
    ensures d != deviceId ==> UserByDevice(RemoveDevice(r, deviceId), d) == UserByDevice(r, d)
    ensures User(RemoveDevice(r, deviceId), u) == User(r, u)
  {
  }

  /**
   * AddUser: last writer wins on the device, and every other device whose inverse entry
   * already named this user now also answers with the new session (the stale entry left
   * when a user re-registers for another device).
   */
  lemma AddUserObserved(r: State, userId: string, deviceId: string, conn: Conn, d: string)
    ensures UserByDevice(AddUser(r, userId, deviceId, conn), deviceId) == Some(Session(userId, deviceId, conn))
    ensures User(AddUser(r, userId, deviceId, conn), userId) == Some(Session(userId, deviceId, conn))
    ensures DeviceConn(AddUser(r, userId, deviceId, conn), d) == DeviceConn(r, d)
    ensures d != deviceId && d in r.userByDevice && r.userByDevice[d] == userId ==>
              UserByDevice(AddUser(r, userId, deviceId, conn), d) == Some(Session(userId, deviceId, conn))
    ensures d != deviceId && (d !in r.userByDevice || r.userByDevice[d] != userId) ==>
              UserByDevice(AddUser(r, userId, deviceId, conn), d) == UserByDevice(r, d)
  {
  }

  /**
   * RemoveUser: the user's session is gone; if there was one, its device answers nil even
   * when another user has since taken it over; an unknown user changes nothing.
   */
  lemma RemoveUserObserved(r: State, userId: string, d: string, u: string)
    ensures User(RemoveUser(r, userId), userId).None?
    ensures userId in r.users ==> UserByDevice(RemoveUser(r, userId), r.users[userId].deviceId).None?
    ensures userId !in r.users ==> RemoveUser(r, userId) == r
    ensures DeviceConn(RemoveUser(r, userId), d) == DeviceConn(r, d)
    ensures d in r.userByDevice && r.userByDevice[d] == userId ==> UserByDevice(RemoveUser(r, userId), d).None?
    ensures u != userId ==> User(RemoveUser(r, userId), u) == User(r, u)
    ensures (userId !in r.users || d != r.users[userId].deviceId) && (d !in r.userByDevice || r.userByDevice[d] != userId) ==>
              UserByDevice(RemoveUser(r, userId), d) == UserByDevice(r, d)
  {
  }

  // ---------------------------------------------------------------------------
  // The invariant the code keeps
  // ---------------------------------------------------------------------------

  /** Every stored session is filed under its own user id (AddUser builds it from its key). */
  ghost predicate Valid(r: State) {
    forall u :: u in r.users ==> r.users[u].userId == u
  }

  /** GetUserByDevice answers nil or a session stored in `users`, filed under the id the inverse index names. */
  lemma UserByDeviceIsStored(r: State, deviceId: string)
    requires Valid(r)
    ensures UserByDevice(r, deviceId).Some? ==>
              && deviceId in r.userByDevice
              && UserByDevice(r, deviceId).value in r.users.Values
              && UserByDevice(r, deviceId).value.userId == r.userByDevice[deviceId]
  {
    if UserByDevice(r, deviceId).Some? {
      var u := r.userByDevice[deviceId];
      assert r.users[u] in r.users.Values;
    }
  }

  lemma ApplyPreservesValid(r: State, op: Op)
    requires Valid(r)
    ensures Valid(Apply(r, op))
  {
  }

  /** Valid holds after every history of calls that starts from a valid registry. */
  lemma {:induction false} ApplyAllPreservesValid(r: State, ops: seq<Op>)
    requires Valid(r)
    ensures Valid(ApplyAll(r, ops))
    decreases |ops|
  {
    if ops != [] {
      ApplyPreservesValid(r, ops[0]);
      ApplyAllPreservesValid(Apply(r, ops[0]), ops[1..]);
    }
  }

  // ---------------------------------------------------------------------------
  // Soundness of the inverse index, and where the code loses it
  // ---------------------------------------------------------------------------

  /**
   * Every inverse entry names a user who has a session and that session is for this
   * device: the "only if" half of the pairing invariant.
   */
  ghost predicate SoundPairing(r: State) {
    forall d :: d in r.userByDevice ==>
      r.userByDevice[d] in r.users && r.users[r.userByDevice[d]].deviceId == d
  }

  /** Under a sound index, a device's frames reach only a session that was opened for that device. */
  lemma SoundPairingRoutesToPairedSession(r: State, deviceId: string)
    requires SoundPairing(r)
    ensures UserByDevice(r, deviceId).Some? ==> UserByDevice(r, deviceId).value.deviceId == deviceId
    ensures deviceId in r.userByDevice ==> UserByDevice(r, deviceId).Some?
  {
  }

  /** A call that registers an already-registered user for a different device. */
  predicate Retargets(r: State, op: Op) {
    op.AddUserOp? && op.userId in r.users && r.users[op.userId].deviceId != op.deviceId
  }

  /** No call of the history re-registers a live user for another device. */
  ghost predicate NoRetarget(r: State, ops: seq<Op>)
    decreases |ops|
  {
    ops == [] || (!Retargets(r, ops[0]) && NoRetarget(Apply(r, ops[0]), ops[1..]))
  }

  lemma ApplyPreservesSoundPairing(r: State, op: Op)
    requires SoundPairing(r)
    requires !Retargets(r, op)
    ensures SoundPairing(Apply(r, op))
  {
    var r' := Apply(r, op);
    forall d | d in r'.userByDevice
      ensures r'.userByDevice[d] in r'.users && r'.users[r'.userByDevice[d]].deviceId == d
    {
      match op
      case AddDeviceOp(_, _) =>
      case RemoveDeviceOp(_) =>
      case AddUserOp(u, dev, c) =>
      case RemoveUserOp(u) =>
    }
  }

  /** The index stays sound across any history in which no live user switches device. */
  lemma {:induction false} ApplyAllPreservesSoundPairing(r: State, ops: seq<Op>)
    requires SoundPairing(r)
    requires NoRetarget(r, ops)
    ensures SoundPairing(ApplyAll(r, ops))
    decreases |ops|
  {
    if ops != [] {
      ApplyPreservesSoundPairing(r, ops[0]);
      ApplyAllPreservesSoundPairing(Apply(r, ops[0]), ops[1..]);
    }
  }

  /**
   * A user who re-registers for another device leaves the old device's inverse entry in
   * place: the old device's GetUserByDevice now returns a session for a different device.
   */
  lemma RetargetLeavesStaleEntry(c1: Conn, c2: Conn)
    ensures var r := AddUser(AddUser(Empty(), "U1", "D1", c1), "U1", "D2", c2);
            && !SoundPairing(r)
            && UserByDevice(r, "D1") == Some(Session("U1", "D2", c2))
  {
    var r := AddUser(AddUser(Empty(), "U1", "D1", c1), "U1", "D2", c2);
    assert r.userByDevice["D1"] == "U1";
  }

  /**
   * Last writer wins, and the superseded user's RemoveUser then clears the device's
   * pairing to the newer user: the newer user still has a session but no longer
   * receives the device's frames.
   */
  lemma SupersededRemoveUserClearsNewerPairing(c1: Conn, c2: Conn)
    ensures var r := AddUser(AddUser(Empty(), "U1", "D", c1), "U2", "D", c2);
            && UserByDevice(r, "D") == Some(Session("U2", "D", c2))
            && UserByDevice(RemoveUser(r, "U1"), "D").None?
            && User(RemoveUser(r, "U1"), "U2") == Some(Session("U2", "D", c2))
  {
    var r := AddUser(AddUser(Empty(), "U1", "D", c1), "U2", "D", c2);
    assert r.users["U1"].deviceId == "D";
  }

  /**
   * A device disconnect removes its pairing: the controlling user keeps a session but is
   * no longer found for the device, and stays unfound when the device reconnects.
   */
  lemma DeviceDisconnectClearsPairing(r: State, deviceId: string, userId: string, dc: Conn, uc: Conn, dc2: Conn)
    ensures var r' := RemoveDevice(AddUser(AddDevice(r, deviceId, dc), userId, deviceId, uc), deviceId);
            && UserByDevice(AddUser(AddDevice(r, deviceId, dc), userId, deviceId, uc), deviceId) == Some(Session(userId, deviceId, uc))
            && UserByDevice(r', deviceId).None?
            && DeviceConn(r', deviceId).None?
            && User(r', userId) == Some(Session(userId, deviceId, uc))
            && UserByDevice(AddDevice(r', deviceId, dc2), deviceId).None?
            && DeviceConn(AddDevice(r', deviceId, dc2), deviceId) == Some(dc2)
  {
  }

  /**
   * The teardown of an older connection of the same device removes the entry a newer
   * connection of that device registered (the key carries no connection identity).
   */
  lemma StaleDeviceTeardownEvictsReconnect(r: State, deviceId: string, older: Conn, newer: Conn)
    ensures DeviceConn(AddDevice(AddDevice(r, deviceId, older), deviceId, newer), deviceId) == Some(newer)
    ensures DeviceConn(RemoveDevice(AddDevice(AddDevice(r, deviceId, older), deviceId, newer), deviceId), deviceId).None?
  {
  }

  /** Likewise for a user: the older connection's RemoveUser deletes the newer connection's session. */
  lemma StaleUserTeardownEvictsReconnect(r: State, userId: string, deviceId: string, older: Conn, newer: Conn)
    ensures User(RemoveUser(AddUser(AddUser(r, userId, deviceId, older), userId, deviceId, newer), userId), userId).None?
    ensures UserByDevice(RemoveUser(AddUser(AddUser(r, userId, deviceId, older), userId, deviceId, newer), userId), deviceId).None?
  {
  }
}
