/** The operator dashboard's client state: the list it shows, its
    `queue:update` reducer, the estimate it displays and the current token.
    The page is bound to one shop id (`SHOP_ID`). */
module Dashboard {
  import opened Common
  import opened Store
  import opened Projection
  import opened Updates
  import opened PositionSort

  /** Some entry of `q` carries the id `id`: the dashboard's duplicate
      check before merging a join. */
  predicate HasId(q: seq<QueueEntry>, id: EntryId)
  {
    exists i :: 0 <= i < |q| && q[i].id == id
  }

  /** The join branch: an entry whose id is already listed changes nothing;
      otherwise it is added and the list re-sorted by position. */
  function MergeJoin(prev: seq<QueueEntry>, entry: QueueEntry): (r: seq<QueueEntry>)
    ensures HasId(prev, entry.id) ==> r == prev
    ensures !HasId(prev, entry.id) ==>
      && |r| == |prev| + 1
      && multiset(r) == multiset(prev) + multiset{entry}
      && SortedByPosition(r)
      && forall p :: AtPosition(r, p) == AtPosition(prev + [entry], p)
  {
    if HasId(prev, entry.id) then prev
    else
      var r := SortByPosition(prev + [entry]);
      forall p ensures AtPosition(r, p) == AtPosition(prev + [entry], p) {
        SortStable(prev + [entry], p);
      }
      r
  }

  /** The `queue:update` handler: events for another shop are ignored,
      snapshots replace the list, anything else is merged as a join. */
  function OnUpdate(prev: seq<QueueEntry>, shop: ShopId, u: QueueUpdate): (r: seq<QueueEntry>)
    ensures u.shopId != shop ==> r == prev
    ensures u.shopId == shop && (u.ServeNextUpdate? || u.RemoveUpdate?) ==> r == u.queue
    ensures u.shopId == shop && u.JoinUpdate? ==> r == MergeJoin(prev, u.entry)
  {
    if u.shopId != shop then prev
    else match u
      case ServeNextUpdate(_, _, queue) => queue
      case RemoveUpdate(_, _, queue) => queue
      case JoinUpdate(_, entry, _) => MergeJoin(prev, entry)
  }

  /** Applies a run of events in order. */
  function Replay(view: seq<QueueEntry>, shop: ShopId, events: seq<QueueUpdate>): seq<QueueEntry>
    decreases |events|
  {
    if events == [] then view
    else Replay(OnUpdate(view, shop, events[0]), shop, events[1..])
  }

  /** Replaying a concatenation is replaying one run after the other. */
  lemma {:induction false} ReplayConcat(view: seq<QueueEntry>, shop: ShopId, a: seq<QueueUpdate>, b: seq<QueueUpdate>)
    ensures Replay(view, shop, a + b) == Replay(Replay(view, shop, a), shop, b)
    decreases |a|
  {
    if a != [] {
      assert (a + b)[0] == a[0] && (a + b)[1..] == a[1..] + b;
      ReplayConcat(OnUpdate(view, shop, a[0]), shop, a[1..], b);
    } else {
      assert a + b == b;
    }
  }

  /** Delivering the same join event twice leaves the list as delivering it
      once. */
  lemma JoinIdempotent(prev: seq<QueueEntry>, shop: ShopId, u: QueueUpdate)
    requires u.JoinUpdate?
    ensures OnUpdate(OnUpdate(prev, shop, u), shop, u) == OnUpdate(prev, shop, u)
  {
    if u.shopId == shop && !HasId(prev, u.entry.id) {
      var r := OnUpdate(prev, shop, u);
      assert u.entry in multiset(r);
      var i :| 0 <= i < |r| && r[i] == u.entry;
      assert HasId(r, u.entry.id);
    }
  }

  /** The estimate shown next to an entry: its `etaMinutes`, or
      (position - 1) * 4 when the field is absent. */
  function DisplayEta(e: QueueEntry): (m: int)
    ensures e.etaMinutes.None? ==> m == (e.position - 1) * 4
    ensures e.etaMinutes.Some? ==> m == e.etaMinutes.value
  {
    match e.etaMinutes
    case Some(m) => m
    case None => EtaFor(e.position)
  }

  /** The "Current Token" tile: the head entry's position, or nothing for an
      empty list. */
  function CurrentToken(q: seq<QueueEntry>): (t: Option<int>)
    ensures t.None? <==> q == []
    ensures q != [] ==> t.value == q[0].position
  {
    if |q| > 0 then Some(q[0].position) else None
  }

  /** Each listed estimate is absent or agrees with the entry's position. */
  predicate EtaSound(q: seq<QueueEntry>)
  {
    forall i :: 0 <= i < |q| ==> q[i].etaMinutes.None? || q[i].etaMinutes == Some(EtaFor(q[i].position))
  }

  /** The estimates an event carries, in the shapes the routes emit: a
      JOIN entry has none, and a SERVE_NEXT or REMOVE queue carries
      (position - 1) * 4 on every entry. */
  predicate ServerShaped(u: QueueUpdate)
  {
    && (u.JoinUpdate? ==> u.entry.etaMinutes.None?)
    && (u.ServeNextUpdate? || u.RemoveUpdate? ==> EtaConsistent(u.queue))
  }

  /** Every event of the shapes the server emits keeps the listed estimates
      sound, so the displayed estimate is always (position - 1) * 4, whether
      it came from the event or from the fallback. */
  lemma {:induction false} DisplayedEtaIsPositional(prev: seq<QueueEntry>, shop: ShopId, u: QueueUpdate)
    requires EtaSound(prev)
    requires ServerShaped(u)
    ensures EtaSound(OnUpdate(prev, shop, u))
    ensures forall i :: 0 <= i < |OnUpdate(prev, shop, u)| ==>
      DisplayEta(OnUpdate(prev, shop, u)[i]) == EtaFor(OnUpdate(prev, shop, u)[i].position)
  {
    var r := OnUpdate(prev, shop, u);
    if u.shopId == shop && u.JoinUpdate? && !HasId(prev, u.entry.id) {
      forall i | 0 <= i < |r|
        ensures r[i].etaMinutes.None? || r[i].etaMinutes == Some(EtaFor(r[i].position))
      {
        assert r[i] in multiset(prev + [u.entry]);
        assert r[i] in prev + [u.entry];
      }
    }
  }
}
