/**
 * The message router's decisions as values: for each inbound message, the
 * status outcome and the one registry call (broadcast or unicast) it makes,
 * if any; and the validation of the custom routes.
 */
module Routing {
  import opened Wrappers
  import opened MessageTypes

  /** The `{statusCode, body}` outcome of every path. */
  datatype Response = Response(statusCode: int, body: string)

  /** The inbound `data` mapping; a missing key differs from an empty value. */
  type Data = map<string, string>

  /** A decoded inbound message: not an object, or an object with optional `type` and `data`. */
  datatype Inbound = NotAnObject | Object(msgType: Option<string>, data: Option<Data>)

  /** `data.get(key, default)` */
  function Get(data: Data, key: string, default: string): (v: string)
    ensures key in data ==> v == data[key]
    ensures key !in data ==> v == default
  {
    if key in data then data[key] else default
  }

  /** Python truthiness of `data.get(key)`: present and non-empty. */
  predicate Present(data: Data, key: string) {
    key in data && data[key] != ""
  }

  /** The registry call a message leads to. */
  datatype Effect =
    | NoEffect
    | BroadcastTo(envelope: Envelope, exclude: seq<string>)
    | SendTo(target: string, envelope: Envelope)

  /** What handling a message does: its registry call and its outcome. */
  datatype Plan = Plan(effect: Effect, response: Response)

  /** A rejection: a 400 outcome with no registry call. */
  function Reject(body: string): (p: Plan)
    ensures p.effect == NoEffect && p.response.statusCode == 400
  {
    Plan(NoEffect, Response(400, body))
  }

  /**
   * `handle_chat_message`: a non-empty `message` is broadcast, as a CHAT
   * envelope, to everybody but the sender; room and user name default only
   * when their keys are absent.
   */
  function ChatPlan(sender: string, data: Data, now: int): (p: Plan)
    ensures p.response.statusCode == 200 <==> Present(data, "message")
    ensures !Present(data, "message") ==> p == Reject("Chat message is empty")
    ensures Present(data, "message") ==>
              && p.response == Response(200, "Message sent")
              && p.effect.BroadcastTo? && p.effect.exclude == [sender]
              && p.effect.envelope.ChatEnvelope?
    ensures p.effect.BroadcastTo? ==>
              var e := p.effect.envelope;
              && e.message == data["message"] && e.timestamp == now
              && e.roomId == (if "room_id" in data then data["room_id"] else "default")
              && e.username == (if "username" in data then data["username"] else "Anonymous")
  {
    if !Present(data, "message") then
      Reject("Chat message is empty")
    else
      var roomId := Get(data, "room_id", "default");
      var username := Get(data, "username", "Anonymous");
      var messageText := data["message"];
      Plan(BroadcastTo(ChatEnvelope(roomId, username, messageText, now), [sender]),
           Response(200, "Message sent"))
  }

  /**
   * `handle_join_room`: a non-empty `room_id` leads to a SYSTEM notice
   * "<username> has joined the room" to everybody but the sender.
   */
  function JoinRoomPlan(sender: string, data: Data, now: int): (p: Plan)
    ensures p.response.statusCode == 200 <==> Present(data, "room_id")
    ensures !Present(data, "room_id") ==> p == Reject("Room ID is required")
    ensures Present(data, "room_id") ==>
              && p.response == Response(200, "Joined room")
              && p.effect == BroadcastTo(
                   SystemEnvelope(Get(data, "username", "Anonymous") + " has joined the room",
                                  data["room_id"], now),
                   [sender])
  {
    var roomId := Get(data, "room_id", "");
    var username := Get(data, "username", "Anonymous");
    if !Present(data, "room_id") then
      Reject("Room ID is required")
    else
      Plan(BroadcastTo(SystemEnvelope(username + " has joined the room", roomId, now), [sender]),
           Response(200, "Joined room"))
  }

  /**
   * `handle_leave_room`: a non-empty `room_id` leads to a SYSTEM notice
   * "<username> has left the room" to everybody but the sender.
   */
  function LeaveRoomPlan(sender: string, data: Data, now: int): (p: Plan)
    ensures p.response.statusCode == 200 <==> Present(data, "room_id")
    ensures !Present(data, "room_id") ==> p == Reject("Room ID is required")
    ensures Present(data, "room_id") ==>
              && p.response == Response(200, "Left room")
              && p.effect == BroadcastTo(
                   SystemEnvelope(Get(data, "username", "Anonymous") + " has left the room",
                                  data["room_id"], now),
                   [sender])
  {
    var roomId := Get(data, "room_id", "");
    var username := Get(data, "username", "Anonymous");
    if !Present(data, "room_id") then
      Reject("Room ID is required")
    else
      Plan(BroadcastTo(SystemEnvelope(username + " has left the room", roomId, now), [sender]),
           Response(200, "Left room"))
  }

  /** `handle_ping`: one PONG to the sender and nobody else. */
  function PingPlan(sender: string, now: int): (p: Plan)
    ensures p.effect.SendTo? && p.effect.target == sender
    ensures p.effect.envelope == PongEnvelope(now)
    ensures p.response == Response(200, "Pong sent")
  {
    Plan(SendTo(sender, PongEnvelope(now)), Response(200, "Pong sent"))
  }

  /** The tag of a message object, when it is present and non-empty. */
  predicate Typed(msg: Inbound) {
    msg.Object? && msg.msgType.Some? && msg.msgType.value != ""
  }

  /** A tag `process_message` dispatches on. */
  predicate Handled(tag: string) {
    tag == Tag(Chat) || tag == Tag(JoinRoom) || tag == Tag(LeaveRoom) || tag == Tag(Ping)
  }

  /**
   * `process_message`: validate the shape and the tag, then dispatch by
   * exact tag match to one handler. Every rejection is a 400 that touches
   * neither the registry nor the push mechanism; only PING unicasts, and
   * every broadcast excludes the sender.
   */
  function ProcessPlan(sender: string, msg: Inbound, now: int): (p: Plan)
    ensures msg.NotAnObject? ==> p == Reject("Invalid message format")
    ensures msg.Object? && !Typed(msg) ==> p == Reject("Message missing type")
    ensures Typed(msg) && !Handled(msg.msgType.value) ==>
              p == Reject("Unknown message type: " + msg.msgType.value)
    ensures p.response.statusCode == 200 || p.response.statusCode == 400
    ensures p.response.statusCode == 400 <==> p.effect == NoEffect
    ensures p.effect.SendTo? <==> Typed(msg) && msg.msgType.value == Tag(Ping)
    ensures p.effect.SendTo? ==> p.effect == SendTo(sender, PongEnvelope(now))
    ensures p.effect.BroadcastTo? ==> sender in p.effect.exclude
  {
    match msg
    case NotAnObject => Reject("Invalid message format")
    case Object(messageType, data) =>
      if messageType.None? || messageType.value == "" then
        Reject("Message missing type")
      else
        var tag := messageType.value;
        var fields := data.GetOr(map[]);
        if tag == Tag(Chat) then ChatPlan(sender, fields, now)
        else if tag == Tag(JoinRoom) then JoinRoomPlan(sender, fields, now)
        else if tag == Tag(LeaveRoom) then LeaveRoomPlan(sender, fields, now)
        else if tag == Tag(Ping) then PingPlan(sender, now)
        else Reject("Unknown message type: " + tag)
  }

  /** Each handled tag reaches its own handler, with a missing `data` read as `{}`. */
  lemma DispatchByTag(sender: string, data: Option<Data>, now: int)
    ensures ProcessPlan(sender, Object(Some(Tag(Chat)), data), now) == ChatPlan(sender, data.GetOr(map[]), now)
    ensures ProcessPlan(sender, Object(Some(Tag(JoinRoom)), data), now) == JoinRoomPlan(sender, data.GetOr(map[]), now)
    ensures ProcessPlan(sender, Object(Some(Tag(LeaveRoom)), data), now) == LeaveRoomPlan(sender, data.GetOr(map[]), now)
    ensures ProcessPlan(sender, Object(Some(Tag(Ping)), data), now) == PingPlan(sender, now)
    ensures ProcessPlan(sender, Object(Some(Tag(System)), data), now) == Reject("Unknown message type: SYSTEM")
    ensures ProcessPlan(sender, Object(Some(Tag(Pong)), data), now) == Reject("Unknown message type: PONG")
  {
  }

  /** The body of a custom-route event, after JSON decoding. */
  datatype CustomBody = NoBody | InvalidJson | Decoded(fields: Data)

  /** The fields a custom route requires to be present and non-empty. */
  function RequiredFields(routeKey: string): Option<seq<string>> {
    if routeKey == "sendToUser" then Some(["targetUser", "message"])
    else if routeKey == "sendToRoom" then Some(["roomId", "message"])
    else None
  }

  /**
   * `handle_custom_route`: the body must decode; a known route then
   * acknowledges exactly when its required fields are all present and
   * non-empty. Targeted delivery is not implemented, so no path touches the
   * registry.
   */
  function HandleCustomRoute(routeKey: string, connectionId: string, body: CustomBody): (r: Response)
    ensures body.InvalidJson? ==> r == Response(400, "Invalid JSON")
    ensures r.statusCode == 200 || r.statusCode == 400
    ensures r.statusCode == 200 <==>
              && !body.InvalidJson?
              && RequiredFields(routeKey).Some?
              && forall f :: f in RequiredFields(routeKey).value ==> body.Decoded? && Present(body.fields, f)
    ensures !body.InvalidJson? && RequiredFields(routeKey).None? ==> r == Response(400, "Unhandled route: " + routeKey)
  {
    if body.InvalidJson? then
      Response(400, "Invalid JSON")
    else
      var bodyData := if body.Decoded? then body.fields else map[];
      if routeKey == "sendToUser" then
        if !Present(bodyData, "targetUser") || !Present(bodyData, "message") then
          assert "targetUser" in RequiredFields(routeKey).value && "message" in RequiredFields(routeKey).value;
          Response(400, "Missing targetUser or message")
        else
          Response(200, "Message sent to user")
      else if routeKey == "sendToRoom" then
        if !Present(bodyData, "roomId") || !Present(bodyData, "message") then
          assert "roomId" in RequiredFields(routeKey).value && "message" in RequiredFields(routeKey).value;
          Response(400, "Missing roomId or message")
        else
          Response(200, "Message sent to room")
      else
        Response(400, "Unhandled route: " + routeKey)
  }
}
