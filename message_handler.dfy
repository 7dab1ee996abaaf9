/**
 * The message router as an object over the connection registry: each
 * handler validates its input, makes at most one registry call (a broadcast
 * or a unicast) and returns a status outcome. The decisions are those of the
 * plans in module Routing.
 */
module Handling {
  import opened Wrappers
  import opened MessageTypes
  import opened Registry
  import opened Connections
  import opened Routing

  /**
   * The registry and push state after `effect`, from table `t0` and posts
   * `p0`: unchanged for no call; the broadcast specification for a
   * broadcast; one send for a unicast.
   */
  ghost predicate Performed(effect: Effect, t0: Table, configured: bool, p0: seq<Post>,
                            t1: Table, p1: seq<Post>, env: Environment)
  {
    match effect
    case NoEffect => t1 == t0 && p1 == p0
    case BroadcastTo(envelope, exclude) =>
      && |p0| <= |p1| && p1[..|p0|] == p0
      && Fanout(t0, configured, exclude, envelope, env, t1, p1[|p0|..])
    case SendTo(target, envelope) =>
      var s := Send(t0, configured, target, envelope, env);
      t1 == s.table && p1 == p0 + s.posted
  }

  class MessageHandler {
    const manager: ConnectionManager

    constructor (manager: ConnectionManager)
      ensures this.manager == manager
    {
      this.manager := manager;
    }

    method ProcessMessage(connectionId: string, messageData: Inbound, now: int, env: Environment)
      returns (r: Response)
      requires manager.Valid()
      modifies manager
      ensures manager.Valid() && manager.endpoint == old(manager.endpoint)
      ensures r == ProcessPlan(connectionId, messageData, now).response
      ensures Performed(ProcessPlan(connectionId, messageData, now).effect,
                        old(manager.table), old(manager.Configured()), old(manager.posts),
                        manager.table, manager.posts, env)
    {
      if messageData.NotAnObject? {
        return Response(400, "Invalid message format");
      }
      var messageType := messageData.msgType;
      var data := messageData.data.GetOr(map[]);
      if messageType.None? || messageType.value == "" {
        return Response(400, "Message missing type");
      }
      var tag := messageType.value;
      if tag == Tag(Chat) {
        r := HandleChatMessage(connectionId, data, now, env);
      } else if tag == Tag(JoinRoom) {
        r := HandleJoinRoom(connectionId, data, now, env);
      } else if tag == Tag(LeaveRoom) {
        r := HandleLeaveRoom(connectionId, data, now, env);
      } else if tag == Tag(Ping) {
        r := HandlePing(connectionId, now, env);
      } else {
        r := Response(400, "Unknown message type: " + tag);
      }
    }

    method HandleChatMessage(connectionId: string, data: Data, now: int, env: Environment)
      returns (r: Response)
      requires manager.Valid()
      modifies manager
      ensures manager.Valid() && manager.endpoint == old(manager.endpoint)
      ensures r == ChatPlan(connectionId, data, now).response
      ensures Performed(ChatPlan(connectionId, data, now).effect,
                        old(manager.table), old(manager.Configured()), old(manager.posts),
                        manager.table, manager.posts, env)
    {
      if !Present(data, "message") {
        return Response(400, "Chat message is empty");
      }
      var roomId := Get(data, "room_id", "default");
      var username := Get(data, "username", "Anonymous");
      var messageText := data["message"];
      var response := ChatEnvelope(roomId, username, messageText, now);
      var delivered := manager.BroadcastMessage(response, Some([connectionId]), env);
      r := Response(200, "Message sent");
    }

    method HandleJoinRoom(connectionId: string, data: Data, now: int, env: Environment)
      returns (r: Response)
      requires manager.Valid()
      modifies manager
      ensures manager.Valid() && manager.endpoint == old(manager.endpoint)
      ensures r == JoinRoomPlan(connectionId, data, now).response
      ensures Performed(JoinRoomPlan(connectionId, data, now).effect,
                        old(manager.table), old(manager.Configured()), old(manager.posts),
                        manager.table, manager.posts, env)
    {
      var roomId := Get(data, "room_id", "");
      var username := Get(data, "username", "Anonymous");
      if !Present(data, "room_id") {
        return Response(400, "Room ID is required");
      }
      var notification := SystemEnvelope(username + " has joined the room", roomId, now);
      var delivered := manager.BroadcastMessage(notification, Some([connectionId]), env);
      r := Response(200, "Joined room");
    }

    method HandleLeaveRoom(connectionId: string, data: Data, now: int, env: Environment)
      returns (r: Response)
      requires manager.Valid()
      modifies manager
      ensures manager.Valid() && manager.endpoint == old(manager.endpoint)
      ensures r == LeaveRoomPlan(connectionId, data, now).response
      ensures Performed(LeaveRoomPlan(connectionId, data, now).effect,
                        old(manager.table), old(manager.Configured()), old(manager.posts),
                        manager.table, manager.posts, env)
    {
      var roomId := Get(data, "room_id", "");
      var username := Get(data, "username", "Anonymous");
      if !Present(data, "room_id") {
        return Response(400, "Room ID is required");
      }
      var notification := SystemEnvelope(username + " has left the room", roomId, now);
      var delivered := manager.BroadcastMessage(notification, Some([connectionId]), env);
      r := Response(200, "Left room");
    }

    method HandlePing(connectionId: string, now: int, env: Environment) returns (r: Response)
      requires manager.Valid()
      modifies manager
      ensures manager.Valid() && manager.endpoint == old(manager.endpoint)
      ensures r == PingPlan(connectionId, now).response
      ensures Performed(PingPlan(connectionId, now).effect,
                        old(manager.table), old(manager.Configured()), old(manager.posts),
                        manager.table, manager.posts, env)
    {
      var pongResponse := PongEnvelope(now);
      var sent := manager.SendMessage(connectionId, pongResponse, env);
      r := Response(200, "Pong sent");
    }
  }

  /** The sender of a message never receives its own broadcast. */
  lemma SenderNotAmongRecipients(sender: string, msg: Inbound, now: int, t0: Table, configured: bool,
                                 p0: seq<Post>, t1: Table, p1: seq<Post>, env: Environment)
    requires ProcessPlan(sender, msg, now).effect.BroadcastTo?
    requires Performed(ProcessPlan(sender, msg, now).effect, t0, configured, p0, t1, p1, env)
    ensures |p0| <= |p1|
    ensures forall i :: |p0| <= i < |p1| ==> p1[i].connectionId != sender
  {
    var posted := p1[|p0|..];
    TargetsAt(posted);
    forall i | |p0| <= i < |p1| ensures p1[i].connectionId != sender {
      assert p1[i] == posted[i - |p0|];
      assert Targets(posted)[i - |p0|] in Targets(posted);
    }
  }

  /** A PING, with an endpoint configured, posts exactly one PONG, to the sender. */
  lemma PingIsUnicast(sender: string, data: Option<Data>, now: int, t0: Table,
                      p0: seq<Post>, t1: Table, p1: seq<Post>, env: Environment)
    requires Performed(ProcessPlan(sender, Object(Some(Tag(Ping)), data), now).effect, t0, true, p0, t1, p1, env)
    ensures p1 == p0 + [Post(sender, PongEnvelope(now))]
    ensures env.push(sender) != Gone || !env.writeOk(sender) ==> t1 == t0
  {
  }

  /** Posts to distinct recipients that are exactly {x}: one post, to x. */
  lemma {:induction false} SinglePost(posts: seq<Post>, x: string)
    requires Distinct(Targets(posts))
    requires forall y :: y in Targets(posts) <==> y == x
    ensures |posts| == 1 && posts[0].connectionId == x
  {
    TargetsAt(posts);
    DistinctCard(Targets(posts));
    assert (set y | y in Targets(posts)) == {x};
    assert Targets(posts)[0] in Targets(posts);
  }

  /** The table of two connected clients without user data, "A" and "B". */
  function PairTable(): Table {
    map["A" := Record("A", true, None), "B" := Record("B", true, None)]
  }

  /** A manager with an endpoint over the table of "A" and "B", with nothing posted yet. */
  method PairManager(env: Environment) returns (m: ConnectionManager)
    requires env.writeOk("A") && env.writeOk("B")
    ensures fresh(m) && m.Valid()
    ensures m.table == PairTable() && m.Configured() && m.posts == []
  {
    m := new ConnectionManager(map[]);
    m.SetEndpointUrl("https://example.com/prod");
    var added := m.AddConnection("A", None, env);
    added := m.AddConnection("B", None, env);
  }

  /** A broadcast from "A" over the pair, with every push delivered, reaches "B" alone. */
  lemma PairBroadcast(e: Envelope, env: Environment, t1: Table, posted: seq<Post>)
    requires env.scanOk && forall id :: env.push(id) == Delivered
    requires Fanout(PairTable(), true, ["A"], e, env, t1, posted)
    ensures posted == [Post("B", e)] && t1 == PairTable()
  {
    assert ActiveIds(PairTable()) == {"A", "B"};
    assert Audience(PairTable(), true, ["A"], env) == {"B"};
    assert Reclaimed({"B"}, env) == {};
    SinglePost(posted, "B");
    assert posted[0] in posted;
  }

  /** "A" sends a CHAT over the pair: only "B" receives it, with the given fields. */
  method ChatScenario(now: int) returns (received: seq<Post>, r: Response)
    ensures r == Response(200, "Message sent")
    ensures received == [Post("B", ChatEnvelope("r1", "alice", "hi", now))]
  {
    var env := Environment(true, id => true, id => Delivered);
    var manager := PairManager(env);
    var handler := new MessageHandler(manager);
    var data := map["message" := "hi", "room_id" := "r1", "username" := "alice"];
    r := handler.ProcessMessage("A", Object(Some("CHAT"), Some(data)), now, env);
    var e := ChatEnvelope("r1", "alice", "hi", now);
    assert ProcessPlan("A", Object(Some("CHAT"), Some(data)), now).effect == BroadcastTo(e, ["A"]);
    assert manager.posts[0..] == manager.posts;
    PairBroadcast(e, env, manager.table, manager.posts);
    received := manager.posts;
  }

  /** "A" joins room "r1" as "bob" over the pair: only "B" is told. */
  method JoinScenario(now: int) returns (received: seq<Post>, r: Response)
    ensures r == Response(200, "Joined room")
    ensures received == [Post("B", SystemEnvelope("bob" + " has joined the room", "r1", now))]
  {
    var env := Environment(true, id => true, id => Delivered);
    var manager := PairManager(env);
    var handler := new MessageHandler(manager);
    var data := map["room_id" := "r1", "username" := "bob"];
    r := handler.ProcessMessage("A", Object(Some("JOIN_ROOM"), Some(data)), now, env);
    var e := SystemEnvelope("bob" + " has joined the room", "r1", now);
    assert JoinRoomPlan("A", data, now).effect == BroadcastTo(e, ["A"]);
    assert ProcessPlan("A", Object(Some("JOIN_ROOM"), Some(data)), now) == JoinRoomPlan("A", data, now);
    assert manager.posts[0..] == manager.posts;
    PairBroadcast(e, env, manager.table, manager.posts);
    received := manager.posts;
  }

  /**
   * Connection "A"; a send to it reports gone: its item is reclaimed, so the
   * registry no longer holds it, a later listing omits it, and a later
   * explicit remove still succeeds.
   */
  method GoneScenario() returns (sent: bool, afterSend: Table, listed: seq<Record>, removed: bool)
    ensures !sent && "A" !in afterSend && afterSend == map[]
    ensures listed == [] && removed
  {
    var env := Environment(true, id => true, id => Gone);
    var manager := new ConnectionManager(map[]);
    manager.SetEndpointUrl("https://example.com/prod");
    var added := manager.AddConnection("A", None, env);
    sent := manager.SendMessage("A", PongEnvelope(0), env);
    afterSend := manager.table;
    assert afterSend == map[];
    listed := manager.GetAllConnections(env);
    ListingSize(manager.table, listed);
    removed := manager.RemoveConnection("A", env);
  }
}
