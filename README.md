# go-mp-server core, modelled in Dafny

The modelled system is a small multiplayer server library written in Go. It
has three parts, each in its own Dafny module.

**The engine** (`Engine`, server.dfy, and `Tick`, tick.dfy). A `Server` accepts
QUIC connections. It builds one application client per connection with a
factory and keeps each client in a registry keyed by its connection. It reads
one message per inbound stream and hands it to the `OnMsg` callback. It fires
`TickFn` on a ticker, and it can broadcast one encoded message to every
registered connection. The model runs the goroutines as one sequential
interleaving:

- `acceptLoop`, the stream-accept loop of `handleConnection`, `handleStream`
  and `tickLoop` are each a step method.
- Each step method consumes the outcomes the transport delivers: an accept
  succeeded or failed, a stream read or failed, a message decoded or did not.
- Connections are objects, so every accepted connection is a newly allocated
  one.
- Callbacks are not run. Each invocation is recorded in `trace`. The `OnConn`
  and `OnDisc` records also carry what `GetClientByConn` returns for the
  connection while the callback runs; the `OnMsg` and `TickFn` records do not.
- Ghost fields count the live goroutines. `Valid()` states two invariants:
  - the `sync.WaitGroup` counter equals the number of live goroutines;
  - the registry holds exactly the connections whose handler is still in its
    stream-accept loop, each with that handler's client.

**The custom-client example** (`CustomClientUsage`, custom_client.dfy) has two
client types:

- `CustomClient` has a permission list, a level that grants `admin` from level
  ten on, and the `OnMsg` branches `level_up` and `admin_command`.
- `GameClient` has health clamped at zero, an inventory that merges pick-ups by
  item id, and a metadata map that is created on first use.

**The chat example** (`ChatServer`, chat.dfy) moves clients between rooms. It
relays chat and private messages and lets administrators mute, unmute, kick
and list users. Each handler receives the `GetClients` snapshot as a sequence
and returns the messages it passes to `sendMessageToClient`, in order. The
`TickFn` of this example computes per-room statistics.

`Wire` (wire.dfy) holds the shared `Option`, the `Byte` type and `Message`.

## Model

| member | source | states |
|---|---|---|
| Tick.TickPeriod | pkg/server/server.go:72 | The tick period is one second in nanoseconds divided by the rate, with Go's truncating integer division. A zero rate has no period (the division panics). For a positive rate, `p*rate <= 1e9 < (p+1)*rate`, and the mirrored bounds hold for a negative rate. The period is positive exactly when `0 < rate <= 1e9`. |
| Tick.PositiveQuotient | pkg/server/server.go:72 | The quotient of one second by a positive divisor satisfies the floor bounds, is non-negative, and is positive exactly when the divisor is at most one second. |
| Engine.New | pkg/server/server.go:53-79 | A listen failure is returned first, and a zero tick rate then panics. Otherwise the result is a fresh, idle, valid server whose period is `TickPeriod(rate)` and that keeps the factory. Its four callback slots are unset, its trace is empty and its context is not cancelled. |
| Engine.Server.constructor | pkg/server/server.go:74-78 | A new server has an empty registry, no callbacks set, a zero counter, no goroutines and an empty trace. |
| Engine.Server.Start | pkg/server/server.go:81-90 | Start uses a fresh (uncancelled) context. It adds one accept loop and one tick loop, and the counter grows by exactly two. |
| Engine.Server.Stop | pkg/server/server.go:92-96 | Stop cancels the context. |
| Engine.Server.QuiescentIffIdle | pkg/server/server.go:85-88 | Under `Valid()`, the counter is zero exactly when no goroutine is alive, which is when `wg.Wait()` in `Stop` returns. The registry is then empty. |
| Engine.AcceptRun | pkg/server/server.go:114-130 | Before cancellation, every accept error is skipped and every success spawns one handler. After cancellation, the first error ends the loop and only the successes before it spawn. |
| Engine.FirstFailure | pkg/server/server.go:144-156 | The index of the first failed accept: all outcomes before it succeeded, and it is a failure unless it is the end. |
| Engine.Server.RunAcceptLoop | pkg/server/server.go:114-130 | Whether the loop returns, and how many handlers it spawns, agree with `AcceptRun`. Each spawned connection is new and enters the `handleConnection` start-up set. The counter grows by one per spawn and drops by one when the loop returns. `Valid()` is kept. |
| Engine.Server.SpawnConnection | pkg/server/server.go:127-128 | One `wg.Add(1)` per new connection handler. |
| Engine.Server.BeginConnection | pkg/server/server.go:132-139 | The factory's client is stored under the connection before `OnConn` runs. `OnConn` therefore sees `GetClientByConn(conn) == Some(c)`, and it runs only if it is set. |
| Engine.Server.RunStreamLoop | pkg/server/server.go:144-156 | Each accepted stream spawns exactly one `handleStream` bound to the connection's client, and the loop goes on until an error. On the first error, `OnDisc` (if set) runs once with that error. The entry is then deleted and the handler's counter unit is released. Otherwise the registry and trace are unchanged. |
| Engine.Server.SpawnStream | pkg/server/server.go:154-155 | One `wg.Add(1)` per stream worker, which holds the connection's client. |
| Engine.Server.EndConnection | pkg/server/server.go:145-153 | `OnDisc` runs before `Delete`, so it still sees the client registered. The entry is removed afterwards and the counter drops by one. |
| Engine.Server.RunStream | pkg/server/server.go:159-177 | `OnMsg` runs at most once, and only when both the read and the decode succeed and the callback is set. The stream is closed on every path, and the worker's counter unit is released. |
| Engine.Server.RunTickLoop | pkg/server/server.go:98-112 | A non-positive period makes the ticker panic. Otherwise each tick runs `TickFn` when it is set and adds nothing else to the trace. The loop returns exactly when the context is cancelled, releasing one counter unit. |
| Engine.Server.Broadcast | pkg/server/server.go:179-200 | If encoding fails, nothing is attempted. Otherwise there is exactly one delivery attempt per registry entry, with the same encoded bytes. The attempts cover the registry's connections, each exactly once, whatever the other attempts returned. |
| Engine.Server.GetClients | pkg/server/server.go:226-235 | There is one element per registry entry. Under a visiting order that lists every registered connection exactly once, the i-th element is the client stored for the i-th connection. |
| Engine.Server.GetClientByConn | pkg/server/server.go:237-245 | Returns the stored client exactly when the connection is registered, and nothing otherwise. |
| CustomClientUsage.CustomClient.constructor | examples/custom_client_usage.go:22-31 | A new custom client is `anonymous`, at level 1, and holds only `read`. |
| CustomClientUsage.CustomClient.HasPermission | examples/custom_client_usage.go:34-41 | True exactly when the permission occurs in the list. |
| CustomClientUsage.Granted | examples/custom_client_usage.go:47-51 | After a grant, the permission is held and the old list is a prefix of the new one. The list grows by at most one and gains no other member. It is unchanged exactly when the permission was already held. |
| CustomClientUsage.GrantIdempotent | examples/custom_client_usage.go:47-51 | Granting twice is the same as granting once. |
| CustomClientUsage.CustomClient.GrantPermission | examples/custom_client_usage.go:47-51 | The permission list becomes `Granted(old list, perm)`. |
| CustomClientUsage.CustomClient.OnConnect | examples/custom_client_usage.go:161-165 | The user name becomes `player_` followed by the id. |
| CustomClientUsage.CustomClient.LevelUp | examples/custom_client_usage.go:191-195 | The level rises by one, `admin` is granted from level ten on, and afterwards level ten or more implies `admin`. |
| CustomClientUsage.CustomClient.OnMessage | examples/custom_client_usage.go:171-197 | On `level_up`, the effect is `LevelUp` with no reply. On `admin_command` without `admin`, the only effect is the denied reply, which is written if a stream opened. Everything else changes nothing. Level ten or more implying `admin` is preserved. |
| CustomClientUsage.GameClient.constructor | examples/custom_client_usage.go:88-98 | A new game client has health 100, team `neutral`, an empty inventory, an empty metadata map and no id. |
| CustomClientUsage.GameClient.GetID | examples/custom_client_usage.go:77 | Returns the id. |
| CustomClientUsage.GameClient.GetConn | examples/custom_client_usage.go:78 | Returns the connection. |
| CustomClientUsage.GameClient.GetMeta | examples/custom_client_usage.go:79 | Returns the metadata map, which may be nil. |
| CustomClientUsage.GameClient.SetID | examples/custom_client_usage.go:80 | A later `GetID` returns the id that was set. |
| CustomClientUsage.GameClient.SetMeta | examples/custom_client_usage.go:81-86 | A nil map is created first. Afterwards the key maps to the value, every other key keeps its value, and the key set is the old one plus the key. |
| CustomClientUsage.AfterDamage | examples/custom_client_usage.go:105-110 | Health after damage is never negative. It is the plain difference whenever that is non-negative, and zero otherwise. |
| CustomClientUsage.GameClient.TakeDamage | examples/custom_client_usage.go:105-110 | Health becomes `AfterDamage(old health, damage)`. |
| CustomClientUsage.FindItem | examples/custom_client_usage.go:113-118 | The index of the first slot holding the id, or the inventory length when no slot holds it. |
| CustomClientUsage.Merged | examples/custom_client_usage.go:112-120 | If a slot holds the item's id, only the first such slot changes: its quantity grows by the item's, and the length is unchanged. Otherwise the item is appended. |
| CustomClientUsage.MergedTotal | examples/custom_client_usage.go:112-120 | A pick-up raises the total quantity by the item's quantity. It adds a slot exactly when no slot had the item's id. |
| CustomClientUsage.MergedIds | examples/custom_client_usage.go:112-120 | The ids present after a pick-up are the old ids plus the item's id. |
| CustomClientUsage.GameClient.AddItem | examples/custom_client_usage.go:112-120 | The search loop, with its early return, leaves the inventory equal to `Merged(old inventory, item)`. |
| CustomClientUsage.GameClient.OnConnect | examples/custom_client_usage.go:209-212 | The metadata is the old map, or an empty one when there was none, with `connected_at` set to the connection time. Every other key keeps its value. |
| CustomClientUsage.GameClient.OnMessage | examples/custom_client_usage.go:214-233 | `attack` costs ten health, clamped at zero. `pickup_item` merges one `sword` into the inventory. No other type changes health or inventory. |
| ChatServer.ChatClient.constructor | examples/chat_server.go:25-35 | A new chat client is `Guest` in `lobby`, is neither admin nor muted, and has sent nothing. |
| ChatServer.ChatClient.CanSendMessage | examples/chat_server.go:37-39 | True exactly when the client is not muted. |
| ChatServer.ChatClient.IncrementMessages | examples/chat_server.go:41-43 | The sent-message count rises by exactly one. |
| ChatServer.RoomRecipients | examples/chat_server.go:337-344 | Every recipient is in the snapshot, in the room and not the excluded client. Every such client of the snapshot is a recipient. |
| ChatServer.QualifyingIndices | examples/chat_server.go:337-344 | The positions it lists are valid snapshot positions, in strictly increasing order. |
| ChatServer.QualifyingExactly | examples/chat_server.go:337-344 | A position is listed exactly when its client is in the room and is not the excluded client. |
| ChatServer.RecipientsInOrder | examples/chat_server.go:337-344 | The recipients are the snapshot entries at the qualifying positions, in snapshot order. So each qualifying entry gets exactly one send. |
| ChatServer.RecipientsCount | examples/chat_server.go:337-344 | A qualifying client occurs among the recipients as often as in the snapshot. Any other client does not occur. |
| ChatServer.RecipientsSnoc | examples/chat_server.go:339-343 | One more client in the snapshot adds it to the recipients exactly when it is in the room and is not excluded. |
| ChatServer.BroadcastToRoom | examples/chat_server.go:337-344 | One message per recipient of `RoomRecipients`, in snapshot order. A null exclusion leaves the sender in. |
| ChatServer.FindByNickname | examples/chat_server.go:346-377 | The index of the first client with the nickname, or the snapshot length when there is none. |
| ChatServer.FirstWithNickname | examples/chat_server.go:348-354 | The scan with early return finds `FindByNickname`'s index. |
| ChatServer.SetMuted | examples/chat_server.go:346-366 | Only the first client with the nickname gets the new mute flag. No other client and no other field changes, and nothing changes when no client has the nickname. |
| ChatServer.KickUser | examples/chat_server.go:368-377 | A connection is closed exactly when some client has the nickname, and it is the first such client's connection. |
| ChatServer.ListUsers | examples/chat_server.go:379-400 | One reply to the administrator, holding exactly one row per client, in snapshot order. |
| ChatServer.HandleChatMessage | examples/chat_server.go:172-205 | A muted sender gets only an error, and its count is unchanged. A payload that does not decode changes nothing. Otherwise the count rises by one and the line goes to everyone in the sender's room, sender included. |
| ChatServer.HandleJoinRoom | examples/chat_server.go:126-170 | A payload that does not decode changes nothing. Otherwise the room becomes the requested one. The old room, without the mover, hears `user_left`, and the new room, without the mover, hears `user_joined`. The mover receives exactly one message, the final confirmation. |
| ChatServer.HandlePrivateMessage | examples/chat_server.go:207-258 | If no client has the nickname, only an error goes to the sender. Otherwise exactly one message goes to the first such client, followed by one confirmation to the sender. A payload that does not decode sends nothing. |
| ChatServer.HandleAdminCommand | examples/chat_server.go:260-290 | A non-admin gets an error, and nothing changes. Otherwise `mute`, `unmute`, `kick` and `list_users` have the effects of `SetMuted`, `KickUser` and `ListUsers`. Any other command, or a payload that does not decode, does nothing. |
| ChatServer.HandleSetNickname | examples/chat_server.go:292-315 | A payload that does not decode changes nothing. Otherwise the nickname changes and one confirmation with the old and new names goes to the client. |
| ChatServer.NatToDecimal | examples/chat_server.go:53 | A non-empty string of decimal digits with no leading zero, except for the number zero itself. |
| ChatServer.DecimalRoundTrip | examples/chat_server.go:53 | Reading the digits back gives the number. |
| ChatServer.DecimalUnique | examples/chat_server.go:53 | Any digit string without a leading zero that reads back as `n` is `NatToDecimal(n)`. So the `%d` digits are determined. |
| ChatServer.IntToDecimal | examples/chat_server.go:53 | `%d`: the text starts with a minus sign exactly for a negative number. The digits that follow have no leading zero and read back as the magnitude. |
| ChatServer.OnConnect | examples/chat_server.go:52-67 | The id becomes `user_<unix seconds>`, and one welcome naming the client's nickname and room goes to the client. |
| ChatServer.OnDisconnect | examples/chat_server.go:69-83 | `user_left` goes to everyone else in the client's room. The leaving client never receives it, although it is still in the snapshot. |
| ChatServer.SumIgnores | examples/chat_server.go:110-113 | Changing the count of a room not listed leaves the sum over the listed rooms unchanged. |
| ChatServer.SumIncrement | examples/chat_server.go:110-113 | Raising the count of one of the listed rooms, which are distinct, raises the sum by one. |
| ChatServer.TallySeen | examples/chat_server.go:111-113 | Counting a room already counted keeps the per-room counts exact, and the sum grows by one. |
| ChatServer.TallyNew | examples/chat_server.go:111-113 | Counting a new room gives it a count of one and lists it once, and the sum grows by one. |
| ChatServer.RoomStats | examples/chat_server.go:110-113 | The statistics have a key exactly for each room some client is in, and each count is the number of clients in that room. Over the rooms, each listed once, the counts sum to the number of clients. |
| ChatServer.Tick | examples/chat_server.go:106-117 | Statistics are produced exactly when some client is online and the second is a multiple of thirty. They are then the per-room counts. |

## Left out

- The QUIC transport is not modelled: listen, accept, stream open/read/write/close, datagrams (`SendDatagram`) and `CloseWithError`. Their results are inputs to the step methods, and a kick is reported as the connection it would close.
- Goroutines, `sync.Map` internals and `sync.WaitGroup` blocking are not modelled. Each goroutine is a step method, and `Wait` is the condition that the counter is zero.
- `Engine.Server.GetClients`, `Engine.Server.Broadcast`: `sync.Map.Range` visits entries in no specified order, so these contracts fix no order, only that each entry is visited exactly once.
- `Engine.Server.RunAcceptLoop`: does not state that the spawned connections are pairwise distinct. Each is newly allocated when it is spawned.
- Cancellation is a flag the step methods read. The timing of a cancellation relative to accepts and ticks is expressed only through the outcomes a step receives. Cancellation reaches `OnDisc` as the failed `AcceptStream` error; there is no separate shutdown cause.
- `Engine.Server.RunTickLoop`: when the period is not positive, `time.NewTicker` panics inside the `tickLoop` goroutine and nothing recovers it, so the whole Go process ends. `TickerPanic` marks that point. The model then releases the loop's counter unit and lets the server carry on, and that later state has no Go counterpart.
- `Engine.Server.Stop`: calling it before `Start` dereferences a nil cancel function in the Go code; the model does not represent that panic.
- Callback code is not run by the engine model. A panic inside a callback, which the Go code does not recover, is not modelled.
- JSON, msgpack and `fmt.Sprintf` payload text are not modelled. Encoding and decoding are functions that may fail, and chat messages are datatypes holding the values the text would carry. Timestamps in chat lines are left out.
- The failures of `sendMessageToClient` (marshal, stream open, write) are not modelled: each call is recorded as one send, because none of them changes state.
- Wall-clock time is not modelled: `time.Now`, `LastSeen`/`UpdateLastSeen`, `JoinedAt` and the `joined_at` user-list column. Where the code uses the time, it becomes a parameter (`nowNanos`, `unixSeconds`, `second`).
- Floating point is not modelled: `Point3D`, `MoveTo` and the `move` branch of the game `OnMsg`. `CustomClientUsage.GameClient.OnMessage` treats `move` like an unknown type.
- Go's fixed-width `int` overflow is not modelled for `Level`, `Health`, `Quantity`, `MessagesSent` and the tick period, so these are unbounded integers. `time.Duration` overflow cannot occur for the values of line 72.
- The base `server.Client` type (`NewClient`, `GetID`, `SetID`, metadata) is not part of this model. Its initial id is a constructor parameter (`baseId`), and the chat and custom clients keep only the fields their code uses.
- The chat `OnMsg` switch (examples/chat_server.go:88-103) is not a member of its own. Each of its cases is the handler of the same name.
- Logging (`fmt.Println`, `log.Printf`, `println`) is not modelled.
- The default-client example, `NewDefaultServer`, the TLS configuration, self-signed certificates, `pkg/server/client.go`, `pkg/server/message.go` and the command-line programs are not part of this model.
- Two details follow the code rather than the intuitive design. `OnDisc` runs before the registry `Delete`, so a disconnect callback still finds its client registered. `Store` replaces an existing entry rather than rejecting it.
