/**
 * The connection registry and delivery channel as an object: the store's
 * connections table, the push endpoint once configured, and the log of the
 * posts the push mechanism received.
 */
module Connections {
  import opened Wrappers
  import opened MessageTypes
  import opened Registry

  class ConnectionManager {
    /** The connections table in the store. */
    var table: Table
    /** The push endpoint; `None` until `SetEndpointUrl` (no management client). */
    var endpoint: Option<string>
    /** Every call the push mechanism received, oldest first. */
    var posts: seq<Post>

    ghost predicate Valid()
      reads this
    {
      Keyed(table)
    }

    /** Whether a management endpoint is set, so that posts can be made. */
    predicate Configured()
      reads this
    {
      endpoint.Some?
    }

    /** A manager over an existing table, with no endpoint configured yet. */
    constructor (existing: Table)
      requires Keyed(existing)
      ensures Valid()
      ensures table == existing && endpoint == None && posts == []
    {
      table := existing;
      endpoint := None;
      posts := [];
    }

    method SetEndpointUrl(url: string)
      requires Valid()
      modifies this
      ensures Valid()
      ensures endpoint == Some(url)
      ensures table == old(table) && posts == old(posts)
    {
      endpoint := Some(url);
    }

    /** An upsert of a connected item; fails, changing nothing, when the put fails. */
    method AddConnection(connectionId: string, userData: Option<string>, env: Environment) returns (ok: bool)
      requires Valid()
      modifies this
      ensures Valid()
      ensures ok == env.writeOk(connectionId)
      ensures table == if ok then Upsert(old(table), connectionId, userData) else old(table)
      ensures endpoint == old(endpoint) && posts == old(posts)
    {
      if !env.writeOk(connectionId) {
        return false;
      }
      var item := Record(connectionId, true, None);
      if Truthy(userData) {
        item := item.(userData := userData);
      }
      table := table[connectionId := item];
      return true;
    }

    /** A delete-if-present; succeeds also when the id is absent. */
    method RemoveConnection(connectionId: string, env: Environment) returns (ok: bool)
      requires Valid()
      modifies this
      ensures Valid()
      ensures ok == env.writeOk(connectionId)
      ensures table == if ok then Delete(old(table), connectionId) else old(table)
      ensures endpoint == old(endpoint) && posts == old(posts)
    {
      if !env.writeOk(connectionId) {
        return false;
      }
      table := table - {connectionId};
      return true;
    }

    /**
     * The active connections: every item whose `connected` flag is set,
     * once each, in the store's order; nothing when the scan fails.
     */
    method GetAllConnections(env: Environment) returns (items: seq<Record>)
      requires Valid()
      ensures env.scanOk ==> IsListing(table, items)
      ensures !env.scanOk ==> items == []
    {
      if !env.scanOk {
        return [];
      }
      // The store's filtered scan: it visits every item once, in an order of its own.
      items := [];
      var pending := table.Keys;
      while pending != {}
        invariant pending <= table.Keys
        invariant forall r :: r in items ==> r.connectionId in table && table[r.connectionId] == r && r.connected
        invariant Distinct(IdsOf(items))
        invariant forall k :: k in IdsOf(items) ==> k in ActiveIds(table) && k !in pending
        invariant forall k :: k in ActiveIds(table) && k !in pending ==> k in IdsOf(items)
        decreases pending
      {
        var k :| k in pending;
        if table[k].connected {
          assert (items + [table[k]])[..|items|] == items;
          DistinctSnoc(IdsOf(items), k);
          items := items + [table[k]];
        }
        pending := pending - {k};
      }
    }

    /**
     * One post to one connection. With no endpoint it refuses without
     * posting; a "gone" report removes the recipient's item.
     */
    method SendMessage(connectionId: string, message: Envelope, env: Environment) returns (ok: bool)
      requires Valid()
      modifies this
      ensures Valid() && endpoint == old(endpoint)
      ensures var r := Send(old(table), old(Configured()), connectionId, message, env);
              ok == r.ok && table == r.table && posts == old(posts) + r.posted
    {
      if !Configured() {
        return false;
      }
      posts := posts + [Post(connectionId, message)];
      match env.push(connectionId)
      case Delivered =>
        ok := true;
      case Gone =>
        var removed := RemoveConnection(connectionId, env);
        ok := false;
      case OtherError =>
        ok := false;
    }

    /**
     * Sends `message` to every active connection whose id is non-empty and
     * not excluded, and returns the number of sends that succeeded.
     */
    method BroadcastMessage(message: Envelope, exclude: Option<seq<string>>, env: Environment)
      returns (count: nat)
      requires Valid()
      modifies this
      ensures Valid() && endpoint == old(endpoint)
      ensures |old(posts)| <= |posts| && posts[..|old(posts)|] == old(posts)
      ensures Fanout(old(table), old(Configured()), ExclusionList(exclude), message, env,
                     table, posts[|old(posts)|..])
      ensures count == |Reached(Audience(old(table), old(Configured()), ExclusionList(exclude), env), env)|
    {
      var excluded := ExclusionList(exclude);
      var connections := GetAllConnections(env);
      ghost var configured := Configured();
      count := 0;
      var i := 0;
      while i < |connections|
        invariant 0 <= i <= |connections|
        invariant Valid() && endpoint == old(endpoint)
        invariant var done := Broadcast(old(table), configured, connections[..i], excluded, message, env);
                  table == done.table && posts == old(posts) + done.posted && count == done.count
      {
        var connectionId := connections[i].connectionId;
        assert connections[..i + 1][..i] == connections[..i];
        if connectionId != "" && connectionId !in excluded {
          var sent := SendMessage(connectionId, message, env);
          if sent {
            count := count + 1;
          }
        }
        i := i + 1;
      }
      assert connections[..i] == connections;
      assert posts[..|old(posts)|] == old(posts);
      BroadcastMeetsFanout(old(table), configured, connections, excluded, message, env);
    }
  }
}
