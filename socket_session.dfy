/**
 * SessionManager (mywebsocket/socketSession.go): the in-memory pairing registry as a class
 * whose three map fields every mutator updates in place. Each method is atomic here; the
 * read/write lock that makes it so in the source is not modelled.
 */
module SocketSession {
  import opened Wrappers
  import Registry

  class SessionManager {
    /** deviceId -> device websocket connection */
    var devices: map<string, Registry.Conn>
    /** userId -> user session */
    var users: map<string, Registry.Session>
    /** deviceId -> userId (who controls this device) */
    var userByDevice: map<string, string>

    /** The registry's contents as a value. */
    function Model(): Registry.State
      reads this
    {
      Registry.State(devices, users, userByDevice)
    }

    ghost predicate Valid()
      reads this
    {
      Registry.Valid(Model())
    }

    /** NewSessionManager: all three maps empty. */
    constructor ()
      ensures devices == map[] && users == map[] && userByDevice == map[]
      ensures Model() == Registry.Empty() && Valid()
    {
      devices := map[];
      users := map[];
      userByDevice := map[];
    }

    // ========== Devices ==========

    /** Insert or overwrite the device's connection; sessions and the inverse index are untouched. */
    method AddDevice(deviceId: string, conn: Registry.Conn)
      requires Valid()
      modifies this
      ensures Valid()
      ensures devices == old(devices)[deviceId := conn] && deviceId in devices && devices[deviceId] == conn
      ensures users == old(users) && userByDevice == old(userByDevice)
      ensures Model() == Registry.AddDevice(old(Model()), deviceId, conn)
    {
      devices := devices[deviceId := conn];
    }

    /** Remove the device from both `devices` and the inverse index; sessions are untouched. */
    method RemoveDevice(deviceId: string)
      requires Valid()
      modifies this
      ensures Valid()
      ensures devices == old(devices) - {deviceId} && deviceId !in devices
      ensures userByDevice == old(userByDevice) - {deviceId} && deviceId !in userByDevice
      ensures users == old(users)
      ensures Model() == Registry.RemoveDevice(old(Model()), deviceId)
    {
      devices := devices - {deviceId};
      userByDevice := userByDevice - {deviceId};
    }

    /** The device's connection, or None; changes nothing. */
    method GetDeviceConn(deviceId: string) returns (conn: Option<Registry.Conn>)
      ensures conn.Some? <==> deviceId in devices
      ensures conn.Some? ==> conn.value == devices[deviceId]
      ensures conn == Registry.DeviceConn(Model(), deviceId)
    {
      conn := if deviceId in devices then Some(devices[deviceId]) else None;
    }

    // ========== Users ==========

    /**
     * Store the session (userId, deviceId, conn) under userId and make userId the controller
     * of deviceId, superseding any earlier controller; `devices` is untouched and so is any
     * other inverse entry, including a stale one naming this user for its previous device.
     */
    method AddUser(userId: string, deviceId: string, conn: Registry.Conn)
      requires Valid()
      modifies this
      ensures Valid()
      ensures users == old(users)[userId := Registry.Session(userId, deviceId, conn)]
      ensures userByDevice == old(userByDevice)[deviceId := userId]
      ensures devices == old(devices)
      ensures Model() == Registry.AddUser(old(Model()), userId, deviceId, conn)
    {
      users := users[userId := Registry.Session(userId, deviceId, conn)];
      userByDevice := userByDevice[deviceId := userId];
    }

    /**
     * Delete the user's session; if it had one, delete the inverse entry of its device
     * without checking whom that entry names now. An unknown user changes nothing.
     */
    method RemoveUser(userId: string)
      requires Valid()
      modifies this
      ensures Valid()
      ensures users == old(users) - {userId} && userId !in users
      ensures userId in old(users) ==> userByDevice == old(userByDevice) - {old(users)[userId].deviceId}
      ensures userId !in old(users) ==> userByDevice == old(userByDevice) && users == old(users)
      ensures devices == old(devices)
      ensures Model() == Registry.RemoveUser(old(Model()), userId)
    {
      if userId in users {
        var s := users[userId];
        userByDevice := userByDevice - {s.deviceId};
      }
      users := users - {userId};
    }

    /** The user's session, or None; changes nothing. */
    method GetUser(userId: string) returns (s: Option<Registry.Session>)
      requires Valid()
      ensures s.Some? <==> userId in users
      ensures s.Some? ==> s.value == users[userId] && s.value.userId == userId
      ensures s == Registry.User(Model(), userId)
    {
      s := if userId in users then Some(users[userId]) else None;
    }

    // ========== One-user-per-device lookup ==========

    /**
     * The session of the user the inverse index names for the device: None when the device
     * has no entry or the named user has no session, otherwise a session stored in `users`
     * under that name. Changes nothing.
     */
    method GetUserByDevice(deviceId: string) returns (s: Option<Registry.Session>)
      requires Valid()
      ensures s.None? <==> deviceId !in userByDevice || userByDevice[deviceId] !in users
      ensures s.Some? ==> s.value == users[userByDevice[deviceId]]
      ensures s.Some? ==> s.value in users.Values && s.value.userId == userByDevice[deviceId]
      ensures s == Registry.UserByDevice(Model(), deviceId)
    {
      if deviceId !in userByDevice {
        return None;
      }
      var userId := userByDevice[deviceId];
      s := if userId in users then Some(users[userId]) else None;
    }
  }
}
