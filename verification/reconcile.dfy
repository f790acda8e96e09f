/** What the observers of a shop can rely on. A dashboard whose list mirrors
    the shop's line and that then applies every broadcast event in order
    keeps listing the line with its exact names and gapless positions (ids
    and estimates aside: join deltas carry the record store's id and no
    estimate). Two things break this: a join whose record step fails, which
    queues the name without broadcasting it, and a state-read reply that
    crosses an event while the dashboard mounts. */
module Reconcile {
  import opened Common
  import opened Store
  import opened Seqs
  import opened Projection
  import opened Updates
  import opened PositionSort
  import opened Dashboard
  import CustomerPage
  import opened JoinRoute
  import opened ServeNextRoute
  import opened RemoveRoute
  import opened StateRoute
  import opened Server

  /** The view lists the line's names in order at positions 1..n. */
  predicate Mirrors(view: seq<QueueEntry>, line: seq<Name>)
  {
    NamesOf(view) == line && Numbered(view)
  }

  /** Runs requests one after another. */
  function Run(s: Server, reqs: seq<Request>): (t: Server)
    ensures |s.log| <= |t.log| && t.log[..|s.log|] == s.log
    decreases |reqs|
  {
    if reqs == [] then s
    else
      var t := Run(Handle(s, reqs[0]).0, reqs[1..]);
      assert t.log[..|s.log|] == t.log[..|Handle(s, reqs[0]).0.log|][..|s.log|];
      t
  }

  /** Every request in the run that reaches the record store is answered
      with a fresh id, unknown to the view and to the other requests. */
  predicate FreshRecords(view: seq<QueueEntry>, reqs: seq<Request>)
  {
    && (forall i :: 0 <= i < |reqs| && reqs[i].JoinRequest? ==>
          reqs[i].record.Recorded? && !HasId(view, Record(reqs[i].record.key)))
    && (forall i, j :: 0 <= i < j < |reqs| && reqs[i].JoinRequest? && reqs[j].JoinRequest? ==>
          reqs[i].record != reqs[j].record)
  }

  /** The bootstrap read mirrors the line. */
  lemma StateMirrors(store: Store, shop: ShopId)
    ensures Mirrors(State(store, shop).reply.value, Line(store, shop))
  {
    var q := State(store, shop).reply.value;
    assert NamesOf(q) == Line(store, shop) by {
      forall i | 0 <= i < |q| ensures NamesOf(q)[i] == Line(store, shop)[i] { }
    }
  }

  /** A mirroring view followed by the next position is sorted. */
  lemma NextPositionSorted(view: seq<QueueEntry>, entry: QueueEntry)
    requires Numbered(view) && entry.position == |view| + 1
    ensures SortedByPosition(view + [entry])
  {
    var q := view + [entry];
    forall i, j | 0 <= i < j < |q| ensures q[i].position <= q[j].position {
      assert q[i].position == i + 1;
      assert q[j].position == j + 1;
    }
  }

  /** A mirroring view, sorted by construction, takes a fresh join delta
      for the next position by plain appending. */
  lemma MergeAppends(view: seq<QueueEntry>, line: seq<Name>, entry: QueueEntry)
    requires Mirrors(view, line)
    requires entry.position == |line| + 1 && !HasId(view, entry.id)
    ensures MergeJoin(view, entry) == view + [entry]
    ensures Mirrors(view + [entry], line + [entry.name])
  {
    var q := view + [entry];
    NextPositionSorted(view, entry);
    SortSorted(q);
    assert MergeJoin(view, entry) == SortByPosition(q);
    NamesOfAppend(view, entry);
  }

  /** Appending an entry appends its name. */
  lemma NamesOfAppend(view: seq<QueueEntry>, entry: QueueEntry)
    ensures NamesOf(view + [entry]) == NamesOf(view) + [entry.name]
  {
    var q := view + [entry];
    forall i | 0 <= i < |q| ensures NamesOf(q)[i] == (NamesOf(view) + [entry.name])[i] {
      if i < |view| { assert q[i] == view[i]; }
    }
  }

  /** A snapshot event's queue mirrors the line it was projected from. */
  lemma ProjectedMirrors(shop: ShopId, line: seq<Name>)
    ensures Mirrors(Projected(shop, line), line)
  {
  }

  /** Applying a single event is one reducer step. */
  lemma ReplayOne(view: seq<QueueEntry>, shop: ShopId, u: QueueUpdate)
    ensures Replay(view, shop, [u]) == OnUpdate(view, shop, u)
  {
    assert [u][1..] == [];
  }

  /** A join keeps a mirroring dashboard mirroring when its record step
      succeeds with an id the dashboard has not seen. */
  lemma JoinKeepsMirror(s: Server, name: Option<string>, shopId: Option<string>, key: string,
                        view: seq<QueueEntry>, shop: ShopId)
    requires Valid(s.store)
    requires Mirrors(view, Line(s.store, shop))
    requires !HasId(view, Record(key))
    ensures var t := Handle(s, JoinRequest(name, shopId, Recorded(key))).0;
      Mirrors(Replay(view, shop, t.log[|s.log|..]), Line(t.store, shop))
  {
    var t := Handle(s, JoinRequest(name, shopId, Recorded(key))).0;
    if Present(name) && Present(shopId) {
      HandleJoin(s, name.value, shopId.value, key);
      var entry := QueueEntry(Record(key), name.value, |Line(s.store, shopId.value)| + 1, None);
      var u := JoinUpdate(shopId.value, entry, EtaFor(entry.position));
      assert t.log[|s.log|..] == [u];
      ReplayOne(view, shop, u);
      if shopId.value == shop {
        MergeAppends(view, Line(s.store, shop), entry);
      }
    } else {
      assert t.log[|s.log|..] == [];
    }
  }

  /** A serve-next keeps a mirroring dashboard mirroring. */
  lemma ServeNextKeepsMirror(s: Server, sh: ShopId, auth: Option<string>, view: seq<QueueEntry>, shop: ShopId)
    requires Valid(s.store)
    requires Mirrors(view, Line(s.store, shop))
    ensures var t := Handle(s, ServeNextRequest(sh, auth)).0;
      Mirrors(Replay(view, shop, t.log[|s.log|..]), Line(t.store, shop))
  {
    var t := Handle(s, ServeNextRequest(sh, auth)).0;
    var line := Line(s.store, sh);
    ValidLine(s.store, sh);
    if auth == Some(sh) && sh != "" && line != [] {
      HandleServeNext(s, sh, auth);
      var u := ServeNextUpdate(sh, line[0], Projected(sh, line[1..]));
      assert t.log[|s.log|..] == [u];
      ReplayOne(view, shop, u);
      ProjectedMirrors(sh, line[1..]);
    } else {
      assert t.log[|s.log|..] == [];
    }
  }

  /** A remove keeps a mirroring dashboard mirroring. */
  lemma RemoveKeepsMirror(s: Server, sh: ShopId, name: Option<string>, view: seq<QueueEntry>, shop: ShopId)
    requires Valid(s.store)
    requires Mirrors(view, Line(s.store, shop))
    ensures var t := Handle(s, RemoveRequest(sh, name)).0;
      Mirrors(Replay(view, shop, t.log[|s.log|..]), Line(t.store, shop))
  {
    var t := Handle(s, RemoveRequest(sh, name)).0;
    if Present(name) {
      var line := Without(Line(s.store, sh), name.value);
      HandleRemove(s, sh, name.value);
      var u := RemoveUpdate(sh, name.value, Projected(sh, line));
      assert t.log[|s.log|..] == [u];
      ReplayOne(view, shop, u);
      ProjectedMirrors(sh, line);
    } else {
      assert t.log[|s.log|..] == [];
    }
  }

  /** One handled request keeps a mirroring dashboard mirroring, provided
      a join's record step succeeds with an id the dashboard has not seen. */
  lemma StepKeepsMirror(s: Server, req: Request, view: seq<QueueEntry>, shop: ShopId)
    requires Valid(s.store)
    requires Mirrors(view, Line(s.store, shop))
    requires FreshRecords(view, [req])
    ensures var t := Handle(s, req).0;
      Mirrors(Replay(view, shop, t.log[|s.log|..]), Line(t.store, shop))
  {
    assert [req][0] == req;
    match req
    case JoinRequest(name, shopId, record) => JoinKeepsMirror(s, name, shopId, record.key, view, shop);
    case ServeNextRequest(sh, auth) => ServeNextKeepsMirror(s, sh, auth, view, shop);
    case RemoveRequest(sh, name) => RemoveKeepsMirror(s, sh, name, view, shop);
    case StateRequest(_) =>
      assert Handle(s, req).0.log[|s.log|..] == [];
  }

  /** The record ids a join leaves on the dashboard: the ones it held
      and the joined entry's. */
  lemma JoinRecordIds(s: Server, name: Option<string>, shopId: Option<string>, record: RecordOutcome,
                      view: seq<QueueEntry>, shop: ShopId, key: string)
    requires Valid(s.store)
    requires HasId(Replay(view, shop, Handle(s, JoinRequest(name, shopId, record)).0.log[|s.log|..]), Record(key))
    ensures HasId(view, Record(key)) || record == Recorded(key)
  {
    var t := Handle(s, JoinRequest(name, shopId, record)).0;
    var after := Replay(view, shop, t.log[|s.log|..]);
    if Present(name) && Present(shopId) && record.Recorded? {
      HandleJoin(s, name.value, shopId.value, record.key);
      var entry := QueueEntry(Record(record.key), name.value, |Line(s.store, shopId.value)| + 1, None);
      var u := JoinUpdate(shopId.value, entry, EtaFor(entry.position));
      assert t.log[|s.log|..] == [u];
      ReplayOne(view, shop, u);
      if shopId.value == shop && !HasId(view, entry.id) {
        var i :| 0 <= i < |after| && after[i].id == Record(key);
        assert after[i] in multiset(view + [entry]);
        assert after[i] in view + [entry];
      }
    } else {
      assert t.log[|s.log|..] == [];
    }
  }

  /** A serve-next leaves on the dashboard only record ids it held. */
  lemma ServeNextRecordIds(s: Server, sh: ShopId, auth: Option<string>, view: seq<QueueEntry>,
                           shop: ShopId, key: string)
    requires Valid(s.store)
    requires HasId(Replay(view, shop, Handle(s, ServeNextRequest(sh, auth)).0.log[|s.log|..]), Record(key))
    ensures HasId(view, Record(key))
  {
    var t := Handle(s, ServeNextRequest(sh, auth)).0;
    var line := Line(s.store, sh);
    ValidLine(s.store, sh);
    if auth == Some(sh) && sh != "" && line != [] {
      HandleServeNext(s, sh, auth);
      var u := ServeNextUpdate(sh, line[0], Projected(sh, line[1..]));
      assert t.log[|s.log|..] == [u];
      ReplayOne(view, shop, u);
    } else {
      assert t.log[|s.log|..] == [];
    }
  }

  /** A remove leaves on the dashboard only record ids it held. */
  lemma RemoveRecordIds(s: Server, sh: ShopId, name: Option<string>, view: seq<QueueEntry>,
                        shop: ShopId, key: string)
    requires Valid(s.store)
    requires HasId(Replay(view, shop, Handle(s, RemoveRequest(sh, name)).0.log[|s.log|..]), Record(key))
    ensures HasId(view, Record(key))
  {
    var t := Handle(s, RemoveRequest(sh, name)).0;
    if Present(name) {
      var line := Without(Line(s.store, sh), name.value);
      HandleRemove(s, sh, name.value);
      var u := RemoveUpdate(sh, name.value, Projected(sh, line));
      assert t.log[|s.log|..] == [u];
      ReplayOne(view, shop, u);
    } else {
      assert t.log[|s.log|..] == [];
    }
  }

  /** After one request the dashboard holds only record ids it held before
      or the one that request's join was given. */
  lemma StepRecordIds(s: Server, req: Request, view: seq<QueueEntry>, shop: ShopId, key: string)
    requires Valid(s.store)
    requires HasId(Replay(view, shop, Handle(s, req).0.log[|s.log|..]), Record(key))
    ensures HasId(view, Record(key)) || (req.JoinRequest? && req.record == Recorded(key))
  {
    match req
    case JoinRequest(name, shopId, record) => JoinRecordIds(s, name, shopId, record, view, shop, key);
    case ServeNextRequest(sh, auth) => ServeNextRecordIds(s, sh, auth, view, shop, key);
    case RemoveRequest(sh, name) => RemoveRecordIds(s, sh, name, view, shop, key);
    case StateRequest(_) =>
      assert Handle(s, req).0.log[|s.log|..] == [];
  }

  /** A dashboard that already mirrors the line and applies every event
      broadcast during a run of requests keeps mirroring it: at the end it
      lists the line as a fresh state read would, as long as every join's
      record step succeeds with a fresh id. How the dashboard comes to
      mirror the line in the first place is not covered: its state read
      can cross an event (see the two snapshot counterexamples below). */
  lemma {:induction false} RunKeepsMirror(s: Server, reqs: seq<Request>, view: seq<QueueEntry>, shop: ShopId)
    requires Valid(s.store)
    requires Mirrors(view, Line(s.store, shop))
    requires FreshRecords(view, reqs)
    ensures var t := Run(s, reqs);
      Mirrors(Replay(view, shop, t.log[|s.log|..]), Line(t.store, shop))
    decreases |reqs|
  {
    var t := Run(s, reqs);
    if reqs == [] {
      assert t.log[|s.log|..] == [];
    } else {
      var s1 := Handle(s, reqs[0]).0;
      var first := s1.log[|s.log|..];
      var view1 := Replay(view, shop, first);
      assert FreshRecords(view, [reqs[0]]);
      StepKeepsMirror(s, reqs[0], view, shop);
      assert FreshRecords(view1, reqs[1..]) by {
        forall i | 0 <= i < |reqs[1..]| && reqs[1..][i].JoinRequest?
          ensures !HasId(view1, Record(reqs[1..][i].record.key))
        {
          var key := reqs[1..][i].record.key;
          assert reqs[1..][i] == reqs[i + 1];
          if HasId(view1, Record(key)) {
            StepRecordIds(s, reqs[0], view, shop, key);
            assert false;
          }
        }
        forall i, j | 0 <= i < j < |reqs[1..]| && reqs[1..][i].JoinRequest? && reqs[1..][j].JoinRequest?
          ensures reqs[1..][i].record != reqs[1..][j].record
        {
          assert reqs[1..][i] == reqs[i + 1] && reqs[1..][j] == reqs[j + 1];
        }
      }
      RunKeepsMirror(s1, reqs[1..], view1, shop);
      var rest := t.log[|s1.log|..];
      assert t.log[|s.log|..] == first + rest by {
        assert t.log[..|s1.log|] == s1.log;
      }
      ReplayConcat(view, shop, first, rest);
    }
  }

  /** Publishing at most one well-shaped event adds only well-shaped
      events to the log. */
  lemma PublishShaped(log: seq<QueueUpdate>, event: Option<QueueUpdate>)
    requires event.Some? ==> ServerShaped(event.value)
    ensures forall u :: u in Publish(log, event)[|log|..] ==> ServerShaped(u)
  {
    if event.Some? {
      assert Publish(log, event)[|log|..] == [event.value];
    } else {
      assert Publish(log, event)[|log|..] == [];
    }
  }

  /** Every event a request makes the server broadcast has the shape the
      dashboard's estimate display relies on. */
  lemma EmittedEventsServerShaped(s: Server, req: Request)
    ensures forall u :: u in Handle(s, req).0.log[|s.log|..] ==> ServerShaped(u)
  {
    match req
    case JoinRequest(name, shopId, record) =>
      PublishShaped(s.log, Join(s.store, name, shopId, record).event);
    case ServeNextRequest(sh, auth) =>
      var step := ServeNext(s.store, sh, auth);
      if step.reply.Success? {
        ReplyAndEventAgree(s.store, sh, auth);
      }
      PublishShaped(s.log, step.event);
    case RemoveRequest(sh, name) =>
      PublishShaped(s.log, Remove(s.store, sh, name).event);
    case StateRequest(sh) =>
      PublishShaped(s.log, State(s.store, sh).event);
  }

  /** Across a whole run, a dashboard whose listed estimates are sound and
      that applies every broadcast keeps them sound, so every estimate it
      displays is (position - 1) * 4. */
  lemma {:induction false} RunDisplaysPositionalEta(s: Server, reqs: seq<Request>, view: seq<QueueEntry>, shop: ShopId)
    requires EtaSound(view)
    ensures var t := Run(s, reqs);
      var shown := Replay(view, shop, t.log[|s.log|..]);
      && EtaSound(shown)
      && forall i :: 0 <= i < |shown| ==> DisplayEta(shown[i]) == EtaFor(shown[i].position)
    decreases |reqs|
  {
    var t := Run(s, reqs);
    if reqs == [] {
      assert t.log[|s.log|..] == [];
    } else {
      var s1 := Handle(s, reqs[0]).0;
      var first := s1.log[|s.log|..];
      EmittedEventsServerShaped(s, reqs[0]);
      var view1 := Replay(view, shop, first);
      assert EtaSound(view1) by {
        if first != [] {
          assert |first| == 1 && first[0] in first && first[1..] == [];
          DisplayedEtaIsPositional(view, shop, first[0]);
          assert view1 == Replay(OnUpdate(view, shop, first[0]), shop, []);
        } else {
          assert view1 == view;
        }
      }
      RunDisplaysPositionalEta(s1, reqs[1..], view1, shop);
      var rest := t.log[|s1.log|..];
      assert t.log[|s.log|..] == first + rest by {
        assert t.log[..|s1.log|] == s1.log;
      }
      ReplayConcat(view, shop, first, rest);
    }
  }

  /** On a mirroring dashboard the "Current Token" tile shows position 1
      whenever anyone is waiting, and nothing otherwise. */
  lemma CurrentTokenIsFront(view: seq<QueueEntry>, line: seq<Name>)
    requires Mirrors(view, line)
    ensures CurrentToken(view) == (if line == [] then None else Some(1))
  {
  }

  /** The exception: a join whose record step fails queues the name but
      broadcasts nothing, so a dashboard that mirrored the line no longer
      does. */
  lemma RecordFailureDesyncs()
    ensures var s := Server(map[], []);
      var t := Handle(s, JoinRequest(Some("Ann"), Some("shop"), RecordFailed)).0;
      && Mirrors([], Line(s.store, "shop"))
      && !Mirrors(Replay([], "shop", t.log[|s.log|..]), Line(t.store, "shop"))
  {
    RecordFailureQueuesSilently();
    var s := Server(map[], []);
    var t := Handle(s, JoinRequest(Some("Ann"), Some("shop"), RecordFailed)).0;
    assert t.log[|s.log|..] == [];
  }

  /** The dashboard does not wait for its state read before it subscribes,
      and the read's reply replaces the list whenever it lands. A join
      served after the read whose event is applied before the reply is
      wiped out by the older snapshot. */
  lemma LateSnapshotLosesJoin()
    ensures var s := Server(map[], []);
      var snapshot := State(s.store, "shop").reply.value;
      var t := Handle(s, JoinRequest(Some("Ann"), Some("shop"), Recorded("k"))).0;
      && Mirrors(Replay([], "shop", t.log), Line(t.store, "shop"))
      && !Mirrors(snapshot, Line(t.store, "shop"))
  {
    var s := Server(map[], []);
    HandleJoin(s, "Ann", "shop", "k");
    var t := Handle(s, JoinRequest(Some("Ann"), Some("shop"), Recorded("k"))).0;
    var entry := QueueEntry(Record("k"), "Ann", 1, None);
    assert Line(s.store, "shop") == [];
    MergeAppends([], [], entry);
    assert Replay([], "shop", t.log) == Replay([entry], "shop", []);
  }

  /** The other order: a join served before the state read whose event is
      applied after the reply is listed twice, once under its positional id
      from the snapshot and once under its record id from the delta. */
  lemma EarlySnapshotListsJoinTwice()
    ensures var s := Server(map[], []);
      var t := Handle(s, JoinRequest(Some("Ann"), Some("shop"), Recorded("k"))).0;
      var snapshot := State(t.store, "shop").reply.value;
      && Mirrors(snapshot, Line(t.store, "shop"))
      && NamesOf(Replay(snapshot, "shop", t.log)) == ["Ann", "Ann"]
      && !Mirrors(Replay(snapshot, "shop", t.log), Line(t.store, "shop"))
  {
    var s := Server(map[], []);
    HandleJoin(s, "Ann", "shop", "k");
    var t := Handle(s, JoinRequest(Some("Ann"), Some("shop"), Recorded("k"))).0;
    var entry := QueueEntry(Record("k"), "Ann", 1, None);
    assert Line(s.store, "shop") == [];
    var snapshot := State(t.store, "shop").reply.value;
    assert snapshot == [QueueEntry(Slot("shop", 0), "Ann", 1, None)];
    assert !HasId(snapshot, entry.id);
    var merged := MergeJoin(snapshot, entry);
    assert multiset(merged) == multiset{snapshot[0], entry};
    assert Replay(snapshot, "shop", t.log) == Replay(merged, "shop", []);
    assert |merged| == 2 && merged[0] in multiset(merged) && merged[1] in multiset(merged);
  }

  /** The customer's own join: once the page sends its join body and the
      route records it, the JOIN broadcast carries the page's remembered
      name, so the page's token becomes the joiner's position, one past the
      line it joined, with estimate four minutes per person ahead. */
  lemma CustomerJoinSetsToken(page: CustomerPage.Page, shop: ShopId, resolves: bool,
                              store: Store, key: string)
    ensures var (page', body) := CustomerPage.JoinQueue(page, shop, resolves);
      page.nameInput != "" && shop != "" ==>
        && body.Some?
        && var step := Join(store, Some(body.value.name), Some(body.value.shopId), Recorded(key));
        && step.event.Some?
        && CustomerPage.OnUpdate(page', shop, step.event.value).myToken == Some(|Line(store, shop)| + 1)
        && CustomerPage.OnUpdate(page', shop, step.event.value).myEta == Some(|Line(store, shop)| * AvgServiceMinutes)
  {
  }

  /** A customer tracking `me` learns, from a serve-next broadcast, the
      1-based rank of the first entrant called `me` in the line that is
      left, with estimate rank-minus-one times four; if nobody of that name
      is left, the page keeps its stale token and estimate. */
  lemma {:induction false} CustomerTokenIsRank(store: Store, shop: ShopId, adminAuth: Option<string>,
                                               page: CustomerPage.Page, me: Name)
    requires ServeNext(store, shop, adminAuth).reply.Success?
    requires page.myName == Some(me)
    ensures var r := ServeNext(store, shop, adminAuth);
      var line := Line(r.store, shop);
      var page' := CustomerPage.OnUpdate(page, shop, r.event.value);
      && (me in line ==>
            exists i :: && 0 <= i < |line| && line[i] == me && (forall j :: 0 <= j < i ==> line[j] != me)
                        && page'.myToken == Some(i + 1) && page'.myEta == Some(i * AvgServiceMinutes))
      && (me !in line ==> page' == page)
  {
    var r := ServeNext(store, shop, adminAuth);
    ReplyAndEventAgree(store, shop, adminAuth);
    CustomerPage.SnapshotTokenIsRank(page, shop, r.reply.value.served, Line(r.store, shop), me);
  }
}
