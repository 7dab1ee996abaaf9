# Serverless WebSocket chat: connection registry and message router

This project models the core of a serverless WebSocket chat backend. The core has two parts:

- **The connection registry** (`ConnectionManager`). It keeps one item per WebSocket connection in a
  key-value table, keyed by `connectionId`. It lists the items whose `connected` flag is set. It
  pushes messages to connections through a management endpoint, and it deletes a connection's item
  when the push mechanism reports that connection gone.
- **The message router** (`MessageHandler`). It validates each inbound message, dispatches on its
  `type` tag (CHAT, JOIN_ROOM, LEAVE_ROOM, PING), and makes at most one registry call: a broadcast
  to everybody but the sender, or a unicast PONG to the sender. It returns a `{statusCode, body}`
  outcome. It also validates the two custom routes, `sendToUser` and `sendToRoom`.

Modules:

- `Wrappers`: the `Option` type.
- `MessageTypes`: the message tags and the outbound envelopes (CHAT, SYSTEM, PONG).
- `Registry`: the registry as values.
  - The table is a `map<string, Record>`.
  - `Send` is what one push does.
  - `Broadcast` is the broadcast loop, step by step over a scan snapshot.
  - `Fanout` is the order-free meaning of a broadcast: who gets a post, what the table loses, and
    what the count is.
- `Connections`: `class ConnectionManager`. It has these fields:
  - `table`, the store's table;
  - `endpoint`, which is `None` until `SetEndpointUrl`;
  - `posts`, the log of every post the push mechanism received.

  Each method is proved against the `Registry` definitions.
- `Routing`: the router's decisions as pure functions. A `Plan` is
  the registry call a message leads to, plus the outcome.
- `Handling`: `class MessageHandler` over a `ConnectionManager`. Each handler is proved to perform
  its `Routing` plan (the predicate `Performed`). The module also holds lemmas about the whole
  router and a few concrete scenarios.

The external services are not modelled as code. They become an `Environment` value, which states:

- whether the table scan succeeds;
- whether a put or delete of a given id succeeds;
- what the push mechanism reports for a given recipient (`Delivered`, `Gone` or `OtherError`).

The clock is a parameter, `now`.

## Model

| member | source | states |
|---|---|---|
| MessageTypes.Tag | message_handler.py:28-37 | every message type has a non-empty wire tag, the string the inbound `type` is compared against |
| Registry.NewItem | connection_manager.py:28-34 | the stored item carries the id and `connected = true`; user data is kept exactly when it is truthy (present and non-empty), and then unchanged |
| Registry.Upsert | connection_manager.py:36 | a put makes the id present with a fresh item; every other item is kept as it was; items stay filed under their own id |
| Registry.Delete | connection_manager.py:45 | a delete removes exactly that id from the key set and keeps every other item unchanged |
| Registry.UpsertIdempotent | connection_manager.py:26-38 | adding the same connection twice leaves the same table as adding it once |
| Registry.UpsertOverwrites | connection_manager.py:26-38 | a second add of an id replaces the first item completely (no merge of user data) |
| Registry.DeleteIdempotent | connection_manager.py:43-47 | removing twice is removing once; removing an absent id changes nothing |
| Registry.ListingSize | connection_manager.py:52-58 | a listing has exactly as many items as the table has active connections |
| Registry.DistinctCard | connection_manager.py:52-58 | a sequence of ids without repeats has as many elements as its set (used to count listings and posts) |
| Registry.IdsOfAt | connection_manager.py:52-58 | the id sequence of a listing matches the items position by position |
| Registry.TargetsAt | connection_manager.py:72-75 | the recipient sequence of a post log matches the posts position by position |
| Registry.Send | connection_manager.py:63-85 | with no endpoint: false, nothing posted, table unchanged; otherwise exactly one post to the id; success iff the push is delivered; a gone report with a successful delete removes the recipient; any other error, or a failed delete, leaves the table as it was; no other item is ever touched |
| Registry.ExclusionList | connection_manager.py:88-89 | a missing or empty exclusion list means nobody is excluded; a given list is used as is |
| Registry.DistinctSnoc | connection_manager.py:94-98 | appending one id keeps a sequence repeat-free iff the id is new |
| Registry.Recipients | connection_manager.py:94-96 | a broadcast addresses exactly the snapshot ids that are non-empty and not excluded, each once when the snapshot has no repeats |
| Registry.Broadcast | connection_manager.py:87-101 | with no endpoint, a broadcast posts nothing, removes nothing and counts 0 |
| Registry.BroadcastCountBound | connection_manager.py:92-98 | the success count never exceeds the number of addressed connections |
| Registry.BroadcastPostsToRecipients | connection_manager.py:94-97 | with an endpoint, the posts go to the addressed connections in snapshot order, one per addressed snapshot item, all carrying the broadcast message; over a snapshot without repeated ids, no connection gets two posts |
| Registry.BroadcastCountsDeliveries | connection_manager.py:97-98 | the count is the number of addressed connections whose push is delivered |
| Registry.BroadcastReclaimsGone | connection_manager.py:78-82 | after a broadcast the table has lost exactly the addressed connections reported gone whose delete succeeds; every kept item is unchanged, including the non-recipients |
| Registry.CountDeliveredOfDistinct | connection_manager.py:97-98 | over repeat-free ids, counting the delivered ones equals measuring the set of ids reached |
| Registry.ReachedWithinAudience | connection_manager.py:92-101 | the connections reached are a subset of those addressed, so the count is at most that number; it is 0 when no active connection is eligible |
| Registry.SubsetCard | connection_manager.py:92-101 | a subset of ids is no larger than its superset |
| Registry.RecipientsOfListing | connection_manager.py:91-96 | over a successful scan listing, the ids a broadcast addresses are exactly the active, eligible connections, each once |
| Registry.BroadcastMeetsFanout | connection_manager.py:87-101 | a broadcast over any scan listing (or over nothing, when the scan fails) posts the message once to each active, eligible connection and to nobody else; it removes exactly the gone ones; its count is the number reached |
| Connections.ConnectionManager.constructor | connection_manager.py:14-18 | a new manager works on the given table, with no management endpoint and nothing posted |
| Connections.ConnectionManager.SetEndpointUrl | connection_manager.py:20-24 | configures the endpoint; the table, its keying invariant and the posts are unchanged |
| Connections.ConnectionManager.AddConnection | connection_manager.py:26-41 | returns whether the put succeeded; on success the table is the upsert of the new item, on failure unchanged; nothing is posted |
| Connections.ConnectionManager.RemoveConnection | connection_manager.py:43-50 | returns whether the delete succeeded; on success the id is gone, on failure the table is unchanged; nothing is posted |
| Connections.ConnectionManager.GetAllConnections | connection_manager.py:52-61 | a successful scan yields each item with `connected` set exactly once, copied from the table, and no other; a failed scan yields the empty list |
| Connections.ConnectionManager.SendMessage | connection_manager.py:63-85 | the result, the new table and the new posts are exactly those of `Send` on the old state |
| Connections.ConnectionManager.BroadcastMessage | connection_manager.py:87-101 | the old posts are kept as a prefix; the new posts, the new table and the count meet `Fanout` and `Reached` on the old table, whatever order the scan returns |
| Routing.Get | message_handler.py:48-49 | a present key yields its value, even an empty one; only an absent key yields the default |
| Routing.Reject | message_handler.py:17-26 | a rejection is a 400 with no registry call |
| Routing.ChatPlan | message_handler.py:44-67 | 200 iff the message is present and non-empty, else a 400 "Chat message is empty" with no call; on 200, one CHAT broadcast excluding exactly the sender, with the message text and the timestamp; room and user name default only when their key is absent |
| Routing.JoinRoomPlan | message_handler.py:69-94 | 200 iff `room_id` is present and non-empty, else a 400 "Room ID is required" with no call; on 200, one SYSTEM broadcast "<username> has joined the room" for that room, excluding the sender |
| Routing.LeaveRoomPlan | message_handler.py:96-121 | as for joining, with "<username> has left the room" and "Left room" |
| Routing.PingPlan | message_handler.py:123-132 | a PING leads to one PONG unicast to the sender with the timestamp, and a 200 "Pong sent" |
| Routing.ProcessPlan | message_handler.py:16-42 | a non-object, a missing or empty type, and an unknown type are each a 400 with their own body; the outcome is always 200 or 400; it is 400 iff no registry call is made; a unicast happens iff the tag is PING, and then only to the sender; every broadcast excludes the sender |
| Routing.DispatchByTag | message_handler.py:21-42 | each handled tag reaches its own handler, with a missing `data` read as `{}`; the outbound-only tags SYSTEM and PONG are rejected as unknown |
| Routing.HandleCustomRoute | message_handler.py:134-172 | a body that does not decode is a 400 "Invalid JSON"; the outcome is always 200 or 400; it is 200 iff the route is `sendToUser` or `sendToRoom` and all its required fields are present and non-empty; any other route is a 400 "Unhandled route: <route>" |
| Handling.MessageHandler.constructor | message_handler.py:13-14 | the handler works on the given connection manager |
| Handling.MessageHandler.ProcessMessage | message_handler.py:16-42 | returns the outcome of `ProcessPlan`, and the registry and post log change exactly as its registry call prescribes |
| Handling.MessageHandler.HandleChatMessage | message_handler.py:44-67 | returns the outcome of `ChatPlan`, and performs its broadcast, or nothing |
| Handling.MessageHandler.HandleJoinRoom | message_handler.py:69-94 | returns the outcome of `JoinRoomPlan`, and performs its broadcast, or nothing |
| Handling.MessageHandler.HandleLeaveRoom | message_handler.py:96-121 | returns the outcome of `LeaveRoomPlan`, and performs its broadcast, or nothing |
| Handling.MessageHandler.HandlePing | message_handler.py:123-132 | returns 200 "Pong sent" whatever the send reports, and performs exactly one send of a PONG to the sender |
| Handling.SenderNotAmongRecipients | message_handler.py:62-65 | no post a message's broadcast makes goes to its sender |
| Handling.PingIsUnicast | message_handler.py:37-38 | with an endpoint, a PING adds exactly one post, a PONG to the sender; the table changes only if the sender is reported gone |
| Handling.SinglePost | message_handler.py:62-65 | repeat-free posts whose recipients are exactly one connection are a single post to it |
| Handling.PairBroadcast | connection_manager.py:87-101 | over two active connections with every push delivered, a broadcast excluding one of them reaches only the other, once, and removes nothing |
| Handling.PairManager | connection_manager.py:26-41 | adding two connections to an empty table gives a table of exactly those two connected items |
| Handling.ChatScenario | message_handler.py:44-67 | with two clients, a CHAT from one reaches only the other, carrying the given room, user name and text |
| Handling.JoinScenario | message_handler.py:69-94 | with two clients, a JOIN_ROOM from one sends only the other the SYSTEM notice "bob has joined the room" |
| Handling.GoneScenario | connection_manager.py:78-82 | a send to a connection reported gone fails and removes it, so the registry no longer holds it; a later listing omits it; a later remove still succeeds |

## Left out

- The storage service, the management endpoint and their clients are not code here. They are
  the `table` field, the `endpoint` field, the `posts` log and the `Environment` outcomes.
- `table_name` and the resource handles are left out. The constructor takes the table's contents
  instead.
- JSON encoding and decoding, and UTF-8 encoding, are left out. Outbound messages are `Envelope`
  values. Inbound messages are decoded JSON as an `Inbound` value. A custom-route body is
  `NoBody`, `InvalidJson` or decoded fields.
- `time.time()` is left out. It is the parameter `now`, the same for every envelope of one event.
- Logging is left out. It has no effect on behaviour.
- app.py, the event entry point, is not part of this model. Its 500 path for exceptions is left
  out too.
- Room membership and targeted delivery are left out. In the source they are placeholder comments
  that do nothing, so the model does nothing there either.
- Concurrency is left out: one event runs at a time against the table.
- Inbound `data` is `Option<Data>` with `Data = map<string, string>`: a missing `data` is `{}`,
  and a present one is a mapping from strings to strings. Other shapes cannot be represented:
  - A `data` that is not a mapping makes CHAT, JOIN_ROOM and LEAVE_ROOM raise where they read it
    (message_handler.py:45, 70, 97), which app.py turns into a 500. A PING never reads `data` and
    still sends its PONG; a missing or unknown type still gets its own 400.
  - Non-string field values do not raise; they go through Python truthiness and formatting. A
    CHAT whose `message` is `5` is broadcast as is, one whose `message` is `0` is rejected as
    empty, and a JOIN_ROOM whose `username` is `null` announces "None has joined the room". Here
    every value is a string, and truthiness is non-emptiness.
- A custom-route body is `NoBody`, `InvalidJson` or decoded string fields. A body that decodes to
  something other than an object makes `sendToUser` and `sendToRoom` raise where they read it
  (message_handler.py:148, 160); any other route key still gets its 400 "Unhandled route: …"
  without reading the body. That non-object case cannot be represented here.
- A non-string `type` tag is left out. Tags are strings, and truthiness is non-emptiness.
- The values of the `MessageTypes` constants are fixed here as "CHAT", "JOIN_ROOM", "LEAVE_ROOM",
  "PING", "SYSTEM" and "PONG". models.py is not part of this model.
- User data is an optional string. Its truthiness is presence plus non-emptiness. A non-string
  user data value is left out.
- Scan pagination is left out. The model's scan returns every active item; the source reads only
  the first page of the response.
- Items written by other parties (the registry itself only writes connected items) are modelled
  only through their key and their `connected` flag: the table may hold items whose flag is false,
  and every item is filed under its own id. Any other attribute they carry is left out.
- The push outcome and the write outcome depend only on the connection id, so each is fixed for
  one event. Within a broadcast each id is addressed at most once.
