# Device/user websocket relay: a Dafny model

The server pairs a car device with the user who controls it over websockets. Each side
opens a connection through an HTTP handler that works in four steps:

1. It authenticates the bearer token before the upgrade.
2. It upgrades the connection.
3. It registers the connection in an in-memory `SessionManager`.
4. It forwards every message it reads to the peer that the registry names at that moment.
   A device's messages go to the user controlling it. A user's messages go to the device they asked for.

The handlers come in two copies:

- The **control** channel uses raw ids as keys and forwards every message type.
- The **camera** channel appends `_Cam` to every key and forwards binary messages only.

Each copy has its own package-level registry.

The model has these parts:

- `Registry`: the registry's three maps as a value. It holds:
  - the four mutations and three lookups;
  - histories of calls;
  - the invariants the code keeps, and the ones it does not keep.
- `SocketSession`: the `SessionManager` class. Its map fields are updated in place.
  Every method is proved equal to the matching `Registry` function or lookup.
- `CommonController`: `GetMyToken`, with Go's `strings.Fields` and `unicode.IsSpace`
  written out, and the `SuccessResponse`/`ErrorResponse` envelopes.
- `Handlers`: one handler pair, parameterised by the channel. The pure specification is:
  - `Relay` for the read loop;
  - `DeviceRun` and `UserRun` for a whole handler run.

  The imperative `RelayLoop`, `ServeDevice` and `ServeUser` run against a `SessionManager`.
  Each is proved to produce exactly its specification's result.
- `ControlChannel` and `CameraChannel`: each package as a class owning its own
  `sessionManager`, plus the channel-specific properties.

### Modelling choices

**Connection reads.** A connection's reads are a finite sequence of `Event`s. An event is one of:

- an inbound message;
- a read error;
- a registry call made meanwhile by another connection's handler. This is how
  interleaving with other connections enters the model.

**Effects.** A handler's effects are returned as an ordered trace:

- its own registry calls;
- `IAMOnline` presence updates;
- writes to the peer;
- the close.

**Identity lookup.** The database lookup that turns a token into an id is a function parameter.

**Upgrade.** The outcome of the websocket upgrade is a parameter.

### Where the code and its comments disagree, and where the code loses its intended invariants (the model follows the code)

- **`RemoveDevice` removes the inverse entry.** `mywebsocket/socketSession.go:46-54`
  removes the device's `userByDevice` entry as well as its connection, although its comment
  (lines 51-53) says the inverse entry is kept. `Registry.DeviceDisconnectClearsPairing` shows
  the consequence: the controlling user keeps a session but is no longer paired, and stays
  unpaired when the device reconnects, so it no longer receives the device's messages.
- **`RemoveUser` does not check the inverse entry.** `RemoveUser` (lines 78-87) deletes the
  inverse entry of the user's device without checking that the entry still names that user.
  `Registry.SupersededRemoveUserClearsNewerPairing` shows the consequence: when the
  superseded user disconnects, the newer controller is unpaired.
- **`AddUser` leaves a stale entry on retarget.** `AddUser` (lines 64-76) never removes the
  inverse entry of the user's previous device. A device still has at most one controller
  (`userByDevice` is a map), but that entry can then name a user whose session is for another
  device, so the device's messages go to a session opened for a different device. The index
  is guaranteed sound (every entry names a live session for that device) for histories in
  which no live user switches device (`Registry.ApplyAllPreservesSoundPairing`); a switch
  whose old entry still names the user breaks it (`Registry.RetargetLeavesStaleEntry`).
- **The key has no connection identity.** The deferred teardown of an older connection
  removes the entry of a newer connection with the same key
  (`Registry.StaleDeviceTeardownEvictsReconnect`, `Registry.StaleUserTeardownEvictsReconnect`).

## Model

| member | source | states |
|---|---|---|
| CommonController.Fields | controllers/common/common_controller.go:67 | every field `strings.Fields` returns is non-empty and contains no Unicode whitespace |
| CommonController.IsSpace | controllers/common/common_controller.go:67 | no contract; defines Go's `unicode.IsSpace`: tab, newline, vertical tab, form feed, carriage return, space, U+0085, U+00A0, the Unicode space separators and the line and paragraph separators |
| CommonController.EqualFold | controllers/common/common_controller.go:67 | no contract; defines `strings.EqualFold` as equal length and position-wise equality after ASCII lower-casing |
| CommonController.FieldsOfJoin | controllers/common/common_controller.go:67 | splitting fields joined by single spaces gives back exactly those fields |
| CommonController.GetMyToken | controllers/common/common_controller.go:61-73 | empty header iff "authorization header missing"; success iff at least two fields and the first equals "bearer" ignoring case; the token is the second field; every other failure is the invalid-format message |
| CommonController.BearerTokenRoundTrip | controllers/common/common_controller.go:61-73 | any case spelling of "Bearer", any whitespace, a token and optional trailing whitespace-led text parse to exactly that token |
| CommonController.SuccessResponse | controllers/common/common_controller.go:108-115 | status 200, success true, message and data as given, error null |
| CommonController.ErrorResponse | controllers/common/common_controller.go:118-125 | the given status, success false, data null, message and error details as given |
| Registry.EmptyAnswersNil | mywebsocket/socketSession.go:30-36 | a new manager answers nil to GetDeviceConn, GetUser and GetUserByDevice |
| Registry.Empty | mywebsocket/socketSession.go:30-36 | no contract; defines the new manager as three empty maps |
| Registry.AddDevice | mywebsocket/socketSession.go:40-44 | no contract; defines AddDevice as overwriting the device's connection |
| Registry.RemoveDevice | mywebsocket/socketSession.go:46-54 | no contract; defines RemoveDevice as deleting the device's connection and its inverse entry |
| Registry.AddUser | mywebsocket/socketSession.go:64-76 | no contract; defines AddUser as storing the session under the user id and pointing the device's inverse entry at the user |
| Registry.RemoveUser | mywebsocket/socketSession.go:78-87 | no contract; defines RemoveUser as deleting the session and, when it existed, its device's inverse entry |
| Registry.DeviceConn | mywebsocket/socketSession.go:56-60 | no contract; defines GetDeviceConn as the map lookup, nil when absent |
| Registry.User | mywebsocket/socketSession.go:89-93 | no contract; defines GetUser as the map lookup, nil when absent |
| Registry.UserByDevice | mywebsocket/socketSession.go:99-108 | no contract; defines GetUserByDevice as the inverse entry followed by GetUser, nil when either is missing |
| Registry.AddDeviceObserved | mywebsocket/socketSession.go:40-44 | AddDevice changes only GetDeviceConn of that device, to the new connection |
| Registry.RemoveDeviceObserved | mywebsocket/socketSession.go:46-54 | after RemoveDevice the device has neither a connection nor a controlling user; other devices and all sessions are unchanged |
| Registry.AddUserObserved | mywebsocket/socketSession.go:64-76 | AddUser makes the user the device's controller (last writer wins); devices are unchanged; devices whose inverse entry already named the user also answer with the new session |
| Registry.RemoveUserObserved | mywebsocket/socketSession.go:78-87 | after RemoveUser the session is gone and its device, and every device naming the user, answer nil; an unknown user changes nothing; every other user's session is unchanged, and so is every other device whose inverse entry did not name the user |
| Registry.UserByDeviceIsStored | mywebsocket/socketSession.go:99-108 | GetUserByDevice answers nil or a session stored under the user id the inverse index names |
| Registry.ApplyAllPreservesValid | mywebsocket/socketSession.go:40-87 | every session stays filed under its own user id across any history of calls |
| Registry.SoundPairingRoutesToPairedSession | mywebsocket/socketSession.go:95-108 | under a sound inverse index, a device's lookup only returns a session opened for that device |
| Registry.ApplyAllPreservesSoundPairing | mywebsocket/socketSession.go:40-87 | the inverse index stays sound across any history in which no live user re-registers for another device |
| Registry.RetargetLeavesStaleEntry | mywebsocket/socketSession.go:64-76 | a user re-registered for D2 is still returned for D1, with a session for D2 |
| Registry.SupersededRemoveUserClearsNewerPairing | mywebsocket/socketSession.go:78-87 | when the superseded user is removed, the device loses its newer controller, who keeps a session |
| Registry.DeviceDisconnectClearsPairing | mywebsocket/socketSession.go:46-54 | after RemoveDevice the device has no controller, although the user's session remains; after the device reconnects it still has none |
| Registry.StaleDeviceTeardownEvictsReconnect | mywebsocket/socketSession.go:40-54 | the teardown of an older device connection deletes a newer connection's entry |
| Registry.StaleUserTeardownEvictsReconnect | mywebsocket/socketSession.go:64-87 | the teardown of an older user connection deletes a newer connection's session and pairing |
| SocketSession.SessionManager.constructor | mywebsocket/socketSession.go:30-36 | all three maps are empty |
| SocketSession.SessionManager.AddDevice | mywebsocket/socketSession.go:40-44 | devices[deviceId] := conn; the other maps are unchanged |
| SocketSession.SessionManager.RemoveDevice | mywebsocket/socketSession.go:46-54 | the device leaves both devices and userByDevice; users is unchanged |
| SocketSession.SessionManager.GetDeviceConn | mywebsocket/socketSession.go:56-60 | Some iff the device is registered, with its connection; equal to the registry lookup DeviceConn |
| SocketSession.SessionManager.AddUser | mywebsocket/socketSession.go:64-76 | users[userId] := Session(userId, deviceId, conn) and userByDevice[deviceId] := userId; devices unchanged |
| SocketSession.SessionManager.RemoveUser | mywebsocket/socketSession.go:78-87 | the session leaves users; if it existed, its device's inverse entry goes too; an unknown user changes nothing |
| SocketSession.SessionManager.GetUser | mywebsocket/socketSession.go:89-93 | Some iff the user has a session, which carries that user id; equal to the registry lookup User |
| SocketSession.SessionManager.GetUserByDevice | mywebsocket/socketSession.go:99-108 | nil iff the device has no inverse entry or the named user has no session; otherwise that user's stored session |
| Handlers.FindPeer | controllers/websocket_controller.go:77 | a device end's peer is the connection of GetUserByDevice's session; a user end's peer is GetDeviceConn of the device (the user-end lookup is at line 141; the camera copies are at lines 89 and 163 of controllers/websocket/websocket_controller.go) |
| Handlers.Key | controllers/websocket/websocket_controller.go:66-75 | the key starts with the raw id; on the control channel it is the raw id, on the camera channel the id followed by "_Cam" |
| Handlers.Forwards | controllers/websocket/websocket_controller.go:84-86 | binary messages are always forwarded; the camera channel forwards nothing else |
| Handlers.Outbound | controllers/websocket/websocket_controller.go:92 | the write carries the bytes read; a forwarded message is written unchanged |
| Handlers.Peer | controllers/websocket_controller.go:77 | no contract; defines the peer lookup: a device end asks GetUserByDevice for its key and takes the session's connection, a user end asks GetDeviceConn for its device key |
| Handlers.Relay | controllers/websocket_controller.go:69-81 | the loop writes at most once per forwarded message read before the first read error |
| Handlers.RelayLoop | controllers/websocket_controller.go:69-81 | the loop against the shared registry produces exactly the specified loop's writes and final registry |
| Handlers.RelayStopsAtReadError | controllers/websocket_controller.go:70-74 | nothing after the first read error has any effect |
| Handlers.RelayWritesForwardedFrames | controllers/websocket/websocket_controller.go:78-94 | the loop only writes; what it writes is the forwarded messages, unmodified, in order, each at most once |
| Handlers.RelayStateIsOthersOps | controllers/websocket_controller.go:69-81 | the loop itself never changes the registry; only other handlers' calls do |
| Handlers.RelayWithStablePeer | controllers/websocket_controller.go:76-80 | when the peer lookup gives the same connection at every read (other handlers may change the registry meanwhile), each forwarded message is written exactly once to it, unmodified and in order |
| Handlers.RelayWithoutPeer | controllers/websocket/websocket_controller.go:89-93 | when the peer lookup finds nothing at every read (other handlers may change the registry meanwhile), every message is dropped silently |
| Handlers.DeviceRun | controllers/websocket_controller.go:28-83 | no contract; defines a device handler run: token, identity lookup, empty-id check, upgrade, then AddDevice, online, the read loop, and the deferred RemoveDevice, offline and close |
| Handlers.UserRun | controllers/websocket_controller.go:88-147 | no contract; defines a user handler run: token, identity lookup, missing-id check, upgrade, then AddUser, the read loop, and the deferred RemoveUser and close |
| Handlers.ServeDevice | controllers/websocket_controller.go:28-83 | the device handler against the registry produces exactly DeviceRun's outcome, registry and trace |
| Handlers.ServeUser | controllers/websocket_controller.go:88-147 | the user handler against the registry produces exactly UserRun's outcome, registry and trace |
| Handlers.DeviceRunWithoutUpgrade | controllers/websocket_controller.go:34-55 | a bad token or failed lookup answers 401 with its error; an empty device id answers 400 "deviceId not found"; a failed upgrade only sets that device offline; a rejection changes nothing; no registration or close without upgrade |
| Handlers.UserRunWithoutUpgrade | controllers/websocket_controller.go:93-120 | a bad token or failed lookup answers 401 with its error; an empty user id or deviceId answers 400 "missing userId or deviceId"; a failed upgrade has no effect; the connection is served iff the token, the lookup, both ids and the upgrade succeed; otherwise nothing changes |
| Handlers.DeviceRunLifecycle | controllers/websocket/websocket_controller.go:57-94 | an admitted device registers, goes online, only writes, deregisters the same key, goes offline and closes; afterwards its key finds neither a connection nor a user |
| Handlers.UserRunLifecycle | controllers/websocket/websocket_controller.go:135-167 | an admitted user registers, only writes, removes the same key and closes; the final registry is the other handlers' calls after AddUser, then RemoveUser; afterwards that key has no session |
| ControlChannel.WebsocketController.constructor | controllers/websocket_controller.go:18-25 | the package owns a fresh, empty registry |
| ControlChannel.WebsocketController.HandleDeviceWS | controllers/websocket_controller.go:28-83 | runs as DeviceRun on the control channel, changing only this package's registry |
| ControlChannel.WebsocketController.HandleUserWS | controllers/websocket_controller.go:88-147 | runs as UserRun on the control channel, changing only this package's registry |
| ControlChannel.ControlForwardsEveryType | controllers/websocket_controller.go:69-81 | the control loop forwards every message read, whatever its type |
| ControlChannel.ControlRelaysEveryFrame | controllers/websocket_controller.go:133-145 | when the peer lookup gives the same connection at every read, every message read is written once to it with the same type and bytes, in order, whatever other handlers do meanwhile |
| ControlChannel.ControlDeviceUsesRawId | controllers/websocket_controller.go:57-64 | the control device handler registers and removes the raw device id |
| ControlChannel.ControlUserUsesRawIds | controllers/websocket_controller.go:123-130 | the control user handler registers the raw (userId, deviceId) and removes the raw userId |
| CameraChannel.WebsocketController.constructor | controllers/websocket/websocket_controller.go:18-25 | the package owns a fresh, empty registry of its own |
| CameraChannel.WebsocketController.HandleDeviceWSCam | controllers/websocket/websocket_controller.go:28-96 | runs as DeviceRun on the camera channel, changing only this package's registry |
| CameraChannel.WebsocketController.HandleUserWSCam | controllers/websocket/websocket_controller.go:101-169 | runs as UserRun on the camera channel, changing only this package's registry |
| CameraChannel.CameraWritesOnlyBinary | controllers/websocket/websocket_controller.go:84-93 | every camera write is a BinaryMessage carrying a message that was read |
| CameraChannel.ForwardedAreBinaryFrames | controllers/websocket/websocket_controller.go:84-86 | the camera channel forwards exactly the binary messages read, in the order read |
| CameraChannel.CameraDropsNonBinary | controllers/websocket/websocket_controller.go:158-160 | a camera loop that reads no binary message writes nothing |
| CameraChannel.CameraDeviceUsesCamKey | controllers/websocket/websocket_controller.go:66-75 | the camera device handler registers and removes deviceId + "_Cam"; presence uses the raw id |
| CameraChannel.CameraUserUsesCamKeys | controllers/websocket/websocket_controller.go:142-149 | the camera user handler registers (userId + "_Cam", deviceId + "_Cam") and removes userId + "_Cam" |
| CameraChannel.CameraEndToEnd | controllers/websocket/websocket_controller.go:28-96 | in a concrete session, a device's text message is dropped and its binary message reaches its user once; after the device's teardown the user's session remains and a message the user sends finds no device and is dropped |

## Left out

- **Locking.** The `sync.RWMutex` is not modelled. Each registry call is atomic, and
  interleaving enters only as other handlers' calls between two reads. Concurrent
  `WriteMessage` calls on one connection are not modelled.
- **Libraries.** The gorilla websocket library, gin and logging are outside the model.
  - A connection is an opaque number.
  - Upgrade success or failure is a parameter.
  - Write errors are ignored, as in the source, so a write is only an effect.
- **Database lookups.** `GetDeviceDetails` and `GetUserDetails` are a parameter mapping a
  token to an id or a failure message. Their database queries are not part of this model.
- **Presence.** `IAMOnline` is recorded only as a `Presence` effect naming the raw device
  id; the database update it makes is not part of this model. Its error is ignored, as in the source.
- **The 10-second context timeout** is not modelled. It only bounds the identity lookup.
- **401 bodies.** A rejection carries the error text. The source puts the Go `error` value
  into the JSON body, and the JSON encoding of that value is not modelled.
- **ObjectID hex.** The source derives ids with `ObjectID.Hex()`, which never returns an
  empty string. The model keeps the empty-id checks as written, on an arbitrary id string.
- CommonController.EqualFold: implements ASCII case folding, not Unicode simple folding. It
  is exact for the only comparison made, against "bearer".
- **Strings.** Strings are sequences of code points. Decoding a header from UTF-8 bytes is not modelled.
- **The read loop.** An unbounded read loop is modelled as a finite event sequence. The end
  of the sequence stands for the read that fails when the peer goes away.
- **Out of scope:** the rest of `common_controller.go`, i.e. OTP, password hashing, mail,
  uploads, the AWS session, `GetMyId` and `ToObjectID`. None of it is on the websocket path.
