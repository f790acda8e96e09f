/** The queue routes behind one dispatcher. Broadcasting a `queue:update`
    event is modelled as appending it to the server's event log, in the
    order the requests were handled. */
module Server {
  import opened Common
  import opened Store
  import opened Projection
  import opened Updates
  import opened JoinRoute
  import opened ServeNextRoute
  import opened RemoveRoute
  import opened StateRoute
  import opened Seqs

  /** The queue routes' requests, with their body, route parameter, admin
      cookie and, for a join, what the record store answers. */
  datatype Request =
    | JoinRequest(name: Option<string>, shopId: Option<string>, record: RecordOutcome)
    | ServeNextRequest(shop: ShopId, adminAuth: Option<string>)
    | RemoveRequest(shop: ShopId, name: Option<string>)
    | StateRequest(shop: ShopId)

  /** The JSON reply bodies. */
  datatype Reply =
    | Joined(entry: QueueEntry)
    | ServedNext(served: Served)
    | RemovedName(removed: Removed)
    | Snapshot(queue: seq<QueueEntry>)
    | Error(error: HttpError)

  /** The ordered store and everything broadcast so far. */
  datatype Server = Server(store: Store, log: seq<QueueUpdate>)

  /** Broadcasts the event, if any. */
  function Publish(log: seq<QueueUpdate>, event: Option<QueueUpdate>): (r: seq<QueueUpdate>)
    ensures event.None? ==> r == log
    ensures event.Some? ==> |r| == |log| + 1 && r[..|log|] == log && r[|log|] == event.value
  {
    match event
    case None => log
    case Some(e) => log + [e]
  }

  /** Runs one request through its route. */
  function Handle(s: Server, req: Request): (r: (Server, Reply))
    // the log is append-only and grows by at most one event
    ensures |s.log| <= |r.0.log| <= |s.log| + 1 && r.0.log[..|s.log|] == s.log
    // an event is broadcast exactly when a mutating route succeeds
    ensures |r.0.log| == |s.log| + 1 <==> !r.1.Error? && !req.StateRequest?
    ensures Valid(s.store) ==> Valid(r.0.store)
    // failures leave store and log alone, except a join whose record step fails
    ensures Valid(s.store) && r.1.Error? && r.1.error != JoinInternalError ==> r.0 == s
    ensures r.1.Error? && r.1.error == JoinInternalError ==>
      && req.JoinRequest? && req.record.RecordFailed? && Present(req.name) && Present(req.shopId)
      && r.0.log == s.log
      && Line(r.0.store, req.shopId.value) == Line(s.store, req.shopId.value) + [req.name.value]
  {
    match req
    case JoinRequest(name, shopId, record) =>
      var step := Join(s.store, name, shopId, record);
      (Server(step.store, Publish(s.log, step.event)),
       match step.reply case Success(e) => Joined(e) case Failure(f) => Error(f))
    case ServeNextRequest(shop, adminAuth) =>
      var step := ServeNext(s.store, shop, adminAuth);
      (Server(step.store, Publish(s.log, step.event)),
       match step.reply case Success(v) => ServedNext(v) case Failure(f) => Error(f))
    case RemoveRequest(shop, name) =>
      var step := Remove(s.store, shop, name);
      (Server(step.store, Publish(s.log, step.event)),
       match step.reply case Success(v) => RemovedName(v) case Failure(f) => Error(f))
    case StateRequest(shop) =>
      var step := State(s.store, shop);
      (Server(step.store, Publish(s.log, step.event)), Snapshot(step.reply.value))
  }

  /** A join whose record step fails after the append leaves the name
      queued while nobody is told: store and broadcast fall out of step. */
  lemma RecordFailureQueuesSilently()
    ensures var s := Server(map[], []);
      var r := Handle(s, JoinRequest(Some("Ann"), Some("shop"), RecordFailed));
      && r.1 == Error(JoinInternalError)
      && Line(r.0.store, "shop") == ["Ann"]
      && r.0.log == []
  {
    var s := Server(map[], []);
    assert Line(s.store, "shop") == [];
  }

  /** A valid join to `shop` whose record step succeeds is queued at the
      end, answered with its position and broadcast as a JOIN delta. */
  lemma HandleJoin(s: Server, name: Name, shop: ShopId, key: string)
    requires name != "" && shop != ""
    ensures var r := Handle(s, JoinRequest(Some(name), Some(shop), Recorded(key)));
      var entry := QueueEntry(Record(key), name, |Line(s.store, shop)| + 1, None);
      && r.1 == Joined(entry)
      && Line(r.0.store, shop) == Line(s.store, shop) + [name]
      && SameElsewhere(s.store, r.0.store, shop)
      && r.0.log == s.log + [JoinUpdate(shop, entry, EtaFor(entry.position))]
  {
  }

  /** An admitted serve-next on a line with a non-blank head serves the
      head, answers with the re-projected rest and broadcasts it with
      estimates. */
  lemma HandleServeNext(s: Server, shop: ShopId, adminAuth: Option<string>)
    requires adminAuth == Some(shop) && shop != ""
    requires Line(s.store, shop) != [] && Line(s.store, shop)[0] != ""
    ensures var r := Handle(s, ServeNextRequest(shop, adminAuth));
      var line := Line(s.store, shop);
      && r.1 == ServedNext(Served(line[0], Positions(shop, line[1..])))
      && Line(r.0.store, shop) == line[1..]
      && SameElsewhere(s.store, r.0.store, shop)
      && r.0.log == s.log + [ServeNextUpdate(shop, line[0], Projected(shop, line[1..]))]
  {
    var r := ServeNext(s.store, shop, adminAuth);
    ReplyAndEventAgree(s.store, shop, adminAuth);
    PositionsCharacterized(shop, Line(r.store, shop), r.reply.value.queue);
  }

  /** A remove with a name drops every occurrence, answers with the
      re-projected rest and broadcasts it. */
  lemma HandleRemove(s: Server, shop: ShopId, name: Name)
    requires name != ""
    ensures var r := Handle(s, RemoveRequest(shop, Some(name)));
      var line := Without(Line(s.store, shop), name);
      && r.1 == RemovedName(Removed(name, Projected(shop, line)))
      && Line(r.0.store, shop) == line
      && SameElsewhere(s.store, r.0.store, shop)
      && r.0.log == s.log + [RemoveUpdate(shop, name, Projected(shop, line))]
  {
    var r := Remove(s.store, shop, Some(name));
    ProjectedCharacterized(shop, Line(r.store, shop), r.reply.value.queue);
  }

  /** Sequential joins to one shop receive consecutive positions after the
      names already waiting, and each is broadcast. */
  method JoinAll(s: Server, shop: ShopId, names: seq<Name>, keys: seq<string>)
    returns (t: Server, positions: seq<int>)
    requires shop != "" && |keys| == |names|
    requires forall i :: 0 <= i < |names| ==> names[i] != ""
    ensures |positions| == |names|
    ensures forall i :: 0 <= i < |names| ==> positions[i] == |Line(s.store, shop)| + i + 1
    ensures Line(t.store, shop) == Line(s.store, shop) + names
    ensures SameElsewhere(s.store, t.store, shop)
    ensures |t.log| == |s.log| + |names| && t.log[..|s.log|] == s.log
  {
    t := s;
    positions := [];
    var k := 0;
    while k < |names|
      invariant 0 <= k <= |names|
      invariant |positions| == k
      invariant forall i :: 0 <= i < k ==> positions[i] == |Line(s.store, shop)| + i + 1
      invariant Line(t.store, shop) == Line(s.store, shop) + names[..k]
      invariant SameElsewhere(s.store, t.store, shop)
      invariant |t.log| == |s.log| + k && t.log[..|s.log|] == s.log
    {
      var r := Handle(t, JoinRequest(Some(names[k]), Some(shop), Recorded(keys[k])));
      HandleJoin(t, names[k], shop, keys[k]);
      positions := positions + [r.1.entry.position];
      assert names[..k + 1] == names[..k] + [names[k]];
      assert r.0.log[..|s.log|] == s.log by {
        assert r.0.log[..|s.log|] == t.log[..|s.log|];
      }
      t := r.0;
      k := k + 1;
    }
    assert names[..k] == names;
  }

  /** An end-to-end example, first half: on an empty line Alice joins at
      position 1 with no wait and Bob at position 2 with four minutes. */
  lemma WalkThroughJoins()
    ensures var s0 := Server(map[], []);
      var (s1, a) := Handle(s0, JoinRequest(Some("Alice"), Some("shop"), Recorded("k1")));
      var (s2, b) := Handle(s1, JoinRequest(Some("Bob"), Some("shop"), Recorded("k2")));
      && a.Joined? && a.entry.position == 1 && s1.log[0].etaMinutes == 0
      && b.Joined? && b.entry.position == 2 && s2.log[1].etaMinutes == 4
      && Line(s2.store, "shop") == ["Alice", "Bob"]
  {
    var s0 := Server(map[], []);
    assert Line(s0.store, "shop") == [];
    var alice := QueueEntry(Record("k1"), "Alice", 1, None);
    var bob := QueueEntry(Record("k2"), "Bob", 2, None);
    var (s1, a) := Handle(s0, JoinRequest(Some("Alice"), Some("shop"), Recorded("k1")));
    HandleJoin(s0, "Alice", "shop", "k1");
    assert a == Joined(alice) && s1.log == [JoinUpdate("shop", alice, 0)];
    assert Line(s1.store, "shop") == ["Alice"];
    var (s2, b) := Handle(s1, JoinRequest(Some("Bob"), Some("shop"), Recorded("k2")));
    HandleJoin(s1, "Bob", "shop", "k2");
    assert b == Joined(bob) && s2.log == s1.log + [JoinUpdate("shop", bob, 4)];
  }

  /** An end-to-end example, second half: with Alice then Bob waiting, serving
      the next customer serves Alice and broadcasts Bob at position 1 with
      no wait; removing Bob then empties the line. */
  lemma WalkThroughServeAndRemove(s: Server, adminAuth: Option<string>)
    requires Line(s.store, "shop") == ["Alice", "Bob"]
    requires adminAuth == Some("shop")
    ensures var (s3, c) := Handle(s, ServeNextRequest("shop", adminAuth));
      var (s4, d) := Handle(s3, RemoveRequest("shop", Some("Bob")));
      && c.ServedNext? && c.served.served == "Alice"
      && s3.log[|s.log|].queue == [QueueEntry(Slot("shop", 0), "Bob", 1, Some(0))]
      && d.RemovedName? && d.removed.queue == [] && Line(s4.store, "shop") == []
  {
    var (s3, c) := Handle(s, ServeNextRequest("shop", adminAuth));
    HandleServeNext(s, "shop", adminAuth);
    assert ["Alice", "Bob"][1..] == ["Bob"];
    assert s3.log[|s.log|].queue == Projected("shop", ["Bob"]);
    assert Line(s3.store, "shop") == ["Bob"];
    HandleRemove(s3, "shop", "Bob");
    assert Without(["Bob"], "Bob") == [] by {
      assert ["Bob"][1..] == [];
    }
  }
}
