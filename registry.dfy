/**
 * The connection registry and the delivery channel as values: the
 * connections table, what one send does to it, and what a broadcast does to
 * it. The class in module Connections is proved against these definitions.
 */
module Registry {
  import opened Wrappers
  import opened MessageTypes

  /** One item of the connections table. */
  datatype Record = Record(connectionId: string, connected: bool, userData: Option<string>)

  /** The table, keyed by `connectionId`. */
  type Table = map<string, Record>

  /** The store files every item under its own key attribute. */
  ghost predicate Keyed(t: Table) {
    forall k :: k in t ==> t[k].connectionId == k
  }

  /** Python truthiness of the optional user data: `None` and `""` are falsy. */
  predicate Truthy(u: Option<string>) {
    u.Some? && u.value != ""
  }

  /** The item `add_connection` writes. */
  function NewItem(id: string, userData: Option<string>): (r: Record)
    ensures r.connectionId == id && r.connected
    ensures r.userData.Some? <==> Truthy(userData)
    ensures r.userData.Some? ==> r.userData == userData
  {
    Record(id, true, if Truthy(userData) then userData else None)
  }

  /** A put: the table afterwards holds exactly one, fresh, item for `id`. */
  function Upsert(t: Table, id: string, userData: Option<string>): (t': Table)
    ensures t'.Keys == t.Keys + {id}
    ensures t'[id] == NewItem(id, userData)
    ensures forall k :: k in t && k != id ==> t'[k] == t[k]
    ensures Keyed(t) ==> Keyed(t')
  {
    t[id := NewItem(id, userData)]
  }

  /** A delete-if-present. */
  function Delete(t: Table, id: string): (t': Table)
    ensures t'.Keys == t.Keys - {id}
    ensures forall k :: k in t' ==> t'[k] == t[k]
    ensures Keyed(t) ==> Keyed(t')
  {
    t - {id}
  }

  /** Adding the same connection twice leaves the table as adding it once. */
  lemma UpsertIdempotent(t: Table, id: string, userData: Option<string>)
    ensures Upsert(Upsert(t, id, userData), id, userData) == Upsert(t, id, userData)
  {
  }

  /** A second add overwrites the first: only the last item for `id` remains. */
  lemma UpsertOverwrites(t: Table, id: string, first: Option<string>, second: Option<string>)
    ensures Upsert(Upsert(t, id, first), id, second) == Upsert(t, id, second)
  {
  }

  /** Removing twice is removing once; removing an absent id changes nothing. */
  lemma DeleteIdempotent(t: Table, id: string)
    ensures Delete(Delete(t, id), id) == Delete(t, id)
    ensures id !in t ==> Delete(t, id) == t
  {
  }

  /** The ids of the items whose `connected` flag is set. */
  function ActiveIds(t: Table): set<string> {
    set k | k in t && t[k].connected
  }

  /** The connection ids of a sequence of items, in order. */
  function IdsOf(items: seq<Record>): seq<string> {
    if items == [] then [] else IdsOf(items[..|items| - 1]) + [items[|items| - 1].connectionId]
  }

  predicate Distinct(s: seq<string>) {
    forall i, j :: 0 <= i < j < |s| ==> s[i] != s[j]
  }

  /**
   * `items` is what a filtered scan can return: each active item exactly
   * once, copied from the table, in no particular order.
   */
  ghost predicate IsListing(t: Table, items: seq<Record>) {
    && (forall r :: r in items ==> r.connectionId in t && t[r.connectionId] == r && r.connected)
    && Distinct(IdsOf(items))
    && (forall k :: k in IdsOf(items) <==> k in ActiveIds(t))
  }

  /** What the push mechanism reports for one post. */
  datatype PushOutcome = Delivered | Gone | OtherError

  /** One call the push mechanism received: the recipient and the envelope. */
  datatype Post = Post(connectionId: string, payload: Envelope)

  /**
   * What the external collaborators answer during one event: whether the
   * scan succeeds, whether a write (put or delete) of an item succeeds, and
   * what the push mechanism reports for a recipient.
   */
  datatype Environment = Environment(
    scanOk: bool,
    writeOk: string -> bool,
    push: string -> PushOutcome)

  /** The recipients of a sequence of posts, in order. */
  function Targets(posts: seq<Post>): seq<string> {
    if posts == [] then [] else Targets(posts[..|posts| - 1]) + [posts[|posts| - 1].connectionId]
  }

  /** A sequence without repetitions has as many elements as its set. */
  lemma {:induction false} DistinctCard(s: seq<string>)
    requires Distinct(s)
    ensures |set x | x in s| == |s|
  {
    if s != [] {
      var init, last := s[..|s| - 1], s[|s| - 1];
      assert s == init + [last];
      DistinctSnoc(init, last);
      DistinctCard(init);
      assert (set x | x in s) == (set x | x in init) + {last};
    }
  }

  /** Each position of `IdsOf` holds the id of the item at that position. */
  lemma {:induction false} IdsOfAt(items: seq<Record>)
    ensures |IdsOf(items)| == |items|
    ensures forall i :: 0 <= i < |items| ==> IdsOf(items)[i] == items[i].connectionId
  {
    if items != [] {
      IdsOfAt(items[..|items| - 1]);
    }
  }

  /** A listing holds exactly as many items as the table has active connections. */
  lemma ListingSize(t: Table, items: seq<Record>)
    requires IsListing(t, items)
    ensures |items| == |ActiveIds(t)|
  {
    IdsOfAt(items);
    DistinctCard(IdsOf(items));
    assert (set x | x in IdsOf(items)) == ActiveIds(t);
  }

  /** `Targets` lists the recipient of each post, position by position. */
  lemma {:induction false} TargetsAt(posts: seq<Post>)
    ensures |Targets(posts)| == |posts|
    ensures forall i :: 0 <= i < |posts| ==> Targets(posts)[i] == posts[i].connectionId
  {
    if posts != [] {
      TargetsAt(posts[..|posts| - 1]);
    }
  }

  datatype SendResult = SendResult(table: Table, posted: seq<Post>, ok: bool)

  /**
   * `send_message`: with no endpoint configured, nothing is posted; otherwise
   * exactly one post, and a "gone" report reclaims the recipient's item.
   */
  function Send(t: Table, configured: bool, id: string, msg: Envelope, env: Environment): (r: SendResult)
    ensures !configured ==> r == SendResult(t, [], false)
    ensures configured ==> r.posted == [Post(id, msg)]
    ensures r.ok <==> configured && env.push(id) == Delivered
    ensures configured && env.push(id) == Gone && env.writeOk(id) ==> id !in r.table
    ensures forall k :: k in r.table ==> k in t && r.table[k] == t[k]
    ensures forall k :: k in t && k != id ==> k in r.table
    ensures env.push(id) != Gone || !env.writeOk(id) ==> r.table == t
  {
    if !configured then SendResult(t, [], false)
    else
      match env.push(id)
      case Delivered => SendResult(t, [Post(id, msg)], true)
      case Gone => SendResult(if env.writeOk(id) then Delete(t, id) else t, [Post(id, msg)], false)
      case OtherError => SendResult(t, [Post(id, msg)], false)
  }

  /** The exclusion rule of a broadcast: a non-empty id, not in the exclusion list. */
  predicate Eligible(id: string, exclude: seq<string>) {
    id != "" && id !in exclude
  }

  /** A missing or empty exclusion list excludes nobody; a given list is used as is. */
  function ExclusionList(exclude: Option<seq<string>>): (ex: seq<string>)
    ensures exclude.None? ==> ex == []
    ensures exclude.Some? ==> ex == exclude.value
  {
    if exclude.None? || exclude.value == [] then [] else exclude.value
  }

  /** A sequence extended by one element is distinct when the prefix is and the element is new. */
  lemma DistinctSnoc(s: seq<string>, x: string)
    ensures Distinct(s + [x]) <==> Distinct(s) && x !in s
  {
    var t := s + [x];
    if Distinct(t) {
      forall i, j | 0 <= i < j < |s| ensures s[i] != s[j] {
        assert s[i] == t[i] && s[j] == t[j];
      }
      forall i | 0 <= i < |s| ensures s[i] != x {
        assert s[i] == t[i] && x == t[|s|];
      }
    }
  }

  /** The ids of a snapshot a broadcast sends to, in snapshot order. */
  function Recipients(snapshot: seq<Record>, exclude: seq<string>): (ids: seq<string>)
    ensures forall x :: x in ids <==> x in IdsOf(snapshot) && Eligible(x, exclude)
    ensures Distinct(IdsOf(snapshot)) ==> Distinct(ids)
  {
    if snapshot == [] then []
    else
      var init := snapshot[..|snapshot| - 1];
      var id := snapshot[|snapshot| - 1].connectionId;
      var ids := Recipients(init, exclude);
      DistinctSnoc(IdsOf(init), id);
      DistinctSnoc(ids, id);
      if Eligible(id, exclude) then ids + [id] else ids
  }

  datatype BroadcastResult = BroadcastResult(table: Table, posted: seq<Post>, count: nat)

  /**
   * The loop of `broadcast_message` over a scan snapshot: one send per
   * eligible item, in snapshot order; `count` is the number of sends that
   * reported success. With no endpoint nothing happens.
   */
  function Broadcast(t: Table, configured: bool, snapshot: seq<Record>, exclude: seq<string>,
                     msg: Envelope, env: Environment): (r: BroadcastResult)
    ensures !configured ==> r == BroadcastResult(t, [], 0)
    decreases |snapshot|
  {
    if snapshot == [] then BroadcastResult(t, [], 0)
    else
      var before := Broadcast(t, configured, snapshot[..|snapshot| - 1], exclude, msg, env);
      var id := snapshot[|snapshot| - 1].connectionId;
      if Eligible(id, exclude) then
        var s := Send(before.table, configured, id, msg, env);
        BroadcastResult(s.table, before.posted + s.posted, before.count + if s.ok then 1 else 0)
      else
        before
  }

  /** The count of a broadcast never exceeds the number of eligible items. */
  lemma {:induction false} BroadcastCountBound(t: Table, configured: bool, snapshot: seq<Record>,
                                               exclude: seq<string>, msg: Envelope, env: Environment)
    ensures Broadcast(t, configured, snapshot, exclude, msg, env).count <= |Recipients(snapshot, exclude)|
    decreases |snapshot|
  {
    if snapshot != [] {
      BroadcastCountBound(t, configured, snapshot[..|snapshot| - 1], exclude, msg, env);
    }
  }

  /** With an endpoint, a broadcast posts `msg` to the recipients, in snapshot order. */
  lemma {:induction false} BroadcastPostsToRecipients(t: Table, snapshot: seq<Record>, exclude: seq<string>,
                                                      msg: Envelope, env: Environment)
    ensures var r := Broadcast(t, true, snapshot, exclude, msg, env);
            && Targets(r.posted) == Recipients(snapshot, exclude)
            && (Distinct(IdsOf(snapshot)) ==> Distinct(Targets(r.posted)))
            && forall p :: p in r.posted ==> p.payload == msg
    decreases |snapshot|
  {
    if snapshot != [] {
      var init := snapshot[..|snapshot| - 1];
      var id := snapshot[|snapshot| - 1].connectionId;
      BroadcastPostsToRecipients(t, init, exclude, msg, env);
      var before := Broadcast(t, true, init, exclude, msg, env);
      if Eligible(id, exclude) {
        var posted := before.posted + [Post(id, msg)];
        assert posted[..|posted| - 1] == before.posted;
      }
    }
  }

  /** The number of ids in `ids` the push mechanism accepts. */
  function CountDelivered(ids: seq<string>, push: string -> PushOutcome): nat {
    if ids == [] then 0
    else CountDelivered(ids[..|ids| - 1], push) + if push(ids[|ids| - 1]) == Delivered then 1 else 0
  }

  /** With an endpoint, the count is the number of recipients the push mechanism accepts. */
  lemma {:induction false} BroadcastCountsDeliveries(t: Table, snapshot: seq<Record>, exclude: seq<string>,
                                                     msg: Envelope, env: Environment)
    ensures Broadcast(t, true, snapshot, exclude, msg, env).count
            == CountDelivered(Recipients(snapshot, exclude), env.push)
    decreases |snapshot|
  {
    if snapshot != [] {
      var init := snapshot[..|snapshot| - 1];
      var id := snapshot[|snapshot| - 1].connectionId;
      BroadcastCountsDeliveries(t, init, exclude, msg, env);
      var ids := Recipients(init, exclude);
      if Eligible(id, exclude) {
        assert (ids + [id])[..|ids|] == ids;
      }
    }
  }

  /**
   * With an endpoint, the table loses exactly the recipients reported gone
   * whose delete succeeds, and every item it keeps is unchanged.
   */
  lemma {:induction false} BroadcastReclaimsGone(t: Table, snapshot: seq<Record>, exclude: seq<string>,
                                                 msg: Envelope, env: Environment)
    ensures var r := Broadcast(t, true, snapshot, exclude, msg, env);
            && (forall k :: k in r.table <==>
                  k in t && !(k in Recipients(snapshot, exclude) && env.push(k) == Gone && env.writeOk(k)))
            && (forall k :: k in r.table ==> r.table[k] == t[k])
    decreases |snapshot|
  {
    if snapshot != [] {
      BroadcastReclaimsGone(t, snapshot[..|snapshot| - 1], exclude, msg, env);
    }
  }

  /** Over distinct ids, counting deliveries is measuring the set of ids reached. */
  lemma {:induction false} CountDeliveredOfDistinct(ids: seq<string>, push: string -> PushOutcome)
    requires Distinct(ids)
    ensures CountDelivered(ids, push) == |set x | x in ids && push(x) == Delivered|
  {
    if ids != [] {
      var init := ids[..|ids| - 1];
      var last := ids[|ids| - 1];
      assert ids == init + [last];
      DistinctSnoc(init, last);
      CountDeliveredOfDistinct(init, push);
      var all := set x | x in ids && push(x) == Delivered;
      var before := set x | x in init && push(x) == Delivered;
      if push(last) == Delivered {
        assert all == before + {last};
        assert last !in before;
      } else {
        assert all == before;
      }
    }
  }

  /** The recipients whose item a "gone" report reclaims. */
  function Reclaimed(audience: set<string>, env: Environment): set<string> {
    set k | k in audience && env.push(k) == Gone && env.writeOk(k)
  }

  /** The recipients whose send succeeds. */
  function Reached(audience: set<string>, env: Environment): set<string> {
    set k | k in audience && env.push(k) == Delivered
  }

  /**
   * The connections a broadcast addresses: the active, eligible ones, when an
   * endpoint is configured and the scan succeeds; nobody otherwise.
   */
  function Audience(t: Table, configured: bool, exclude: seq<string>, env: Environment): set<string> {
    if configured && env.scanOk then set k | k in ActiveIds(t) && Eligible(k, exclude) else {}
  }

  /**
   * A broadcast reaches at most the connections it addresses, and nobody when
   * no connection is active or every active one is excluded.
   */
  lemma ReachedWithinAudience(t: Table, configured: bool, exclude: seq<string>, env: Environment)
    ensures var audience := Audience(t, configured, exclude, env);
            Reached(audience, env) <= audience && |Reached(audience, env)| <= |audience|
    ensures (forall k :: k in ActiveIds(t) ==> !Eligible(k, exclude)) ==>
              Reached(Audience(t, configured, exclude, env), env) == {}
  {
    var audience := Audience(t, configured, exclude, env);
    SubsetCard(Reached(audience, env), audience);
  }

  lemma {:induction false} SubsetCard(a: set<string>, b: set<string>)
    requires a <= b
    ensures |a| <= |b|
    decreases |a|
  {
    if a != {} {
      var x :| x in a;
      SubsetCard(a - {x}, b - {x});
    }
  }

  /**
   * The order-free meaning of a broadcast from table `t0`: every addressed
   * connection gets exactly one post of `msg`, nobody else gets one, and the
   * table loses exactly the addressed connections reported gone.
   */
  ghost predicate Fanout(t0: Table, configured: bool, exclude: seq<string>, msg: Envelope,
                         env: Environment, t1: Table, posted: seq<Post>)
  {
    var audience := Audience(t0, configured, exclude, env);
    && t1 == t0 - Reclaimed(audience, env)
    && Distinct(Targets(posted))
    && (forall x :: x in Targets(posted) <==> x in audience)
    && (forall p :: p in posted ==> p.payload == msg)
  }

  /** Over a scan listing, the ids a broadcast addresses are its audience, each once. */
  lemma RecipientsOfListing(t: Table, snapshot: seq<Record>, exclude: seq<string>, env: Environment)
    requires env.scanOk && IsListing(t, snapshot)
    ensures Distinct(Recipients(snapshot, exclude))
    ensures forall x :: x in Recipients(snapshot, exclude) <==> x in Audience(t, true, exclude, env)
  {
  }

  /**
   * A broadcast over a scan snapshot (or over nothing, when the scan fails)
   * meets the order-free specification, and its count is the number of
   * addressed connections the push mechanism accepts.
   */
  lemma BroadcastMeetsFanout(t: Table, configured: bool, snapshot: seq<Record>, exclude: seq<string>,
                             msg: Envelope, env: Environment)
    requires if env.scanOk then IsListing(t, snapshot) else snapshot == []
    ensures var r := Broadcast(t, configured, snapshot, exclude, msg, env);
            && Fanout(t, configured, exclude, msg, env, r.table, r.posted)
            && r.count == |Reached(Audience(t, configured, exclude, env), env)|
  {
    var r := Broadcast(t, configured, snapshot, exclude, msg, env);
    var audience := Audience(t, configured, exclude, env);
    if !configured || !env.scanOk {
      assert r == BroadcastResult(t, [], 0);
      assert audience == {};
      assert Reclaimed(audience, env) == {};
      assert t - {} == t;
      assert Reached(audience, env) == {};
    } else {
      var ids := Recipients(snapshot, exclude);
      RecipientsOfListing(t, snapshot, exclude, env);
      assert r.table == t - Reclaimed(audience, env) by {
        BroadcastReclaimsGone(t, snapshot, exclude, msg, env);
        assert r.table.Keys == (t - Reclaimed(audience, env)).Keys;
      }
      assert Distinct(Targets(r.posted)) && (forall x :: x in Targets(r.posted) <==> x in audience)
             && (forall p :: p in r.posted ==> p.payload == msg) by {
        BroadcastPostsToRecipients(t, snapshot, exclude, msg, env);
      }
      assert r.count == |Reached(audience, env)| by {
        BroadcastCountsDeliveries(t, snapshot, exclude, msg, env);
        CountDeliveredOfDistinct(ids, env.push);
        assert (set x | x in ids && env.push(x) == Delivered) == Reached(audience, env);
      }
    }
  }
}
