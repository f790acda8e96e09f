/** `POST /:shopId` on the serve-next router, behind `requireAdmin`: pop
    the head of the line, re-project the rest, broadcast the snapshot. */
module ServeNextRoute {
  import opened Common
  import opened Store
  import opened Projection
  import opened Updates
  import opened Admin

  /** The reply body: the served name and the remaining queue. */
  datatype Served = Served(served: Name, queue: seq<QueueEntry>)

  /** The serve-next handler. `LPOP` runs before the falsy check on the
      popped name, so a blank head would be removed and still reported as
      an empty queue; a valid store has no blank names. */
  function ServeNext(store: Store, shop: ShopId, adminAuth: Option<string>): (r: Step<Served>)
    // the gate decides before the store is touched
    ensures RequireAdmin(adminAuth, shop).Reject? ==>
      r == Step(store, Failure(RequireAdmin(adminAuth, shop).reason), None)
    ensures RequireAdmin(adminAuth, shop).Admit? && Line(store, shop) == [] ==>
      r == Step(store, Failure(QueueIsEmpty), None)
    ensures r.reply.Success? <==>
      RequireAdmin(adminAuth, shop).Admit? && Line(store, shop) != [] && Line(store, shop)[0] != ""
    ensures r.reply.Success? ==>
      var old_ := Line(store, shop);
      && r.reply.value.served == old_[0]
      && Line(r.store, shop) == old_[1..]
      && SameElsewhere(store, r.store, shop)
      && NamesOf(r.reply.value.queue) == old_[1..]
      && Numbered(r.reply.value.queue) && SlotIds(r.reply.value.queue, shop)
      && NoEta(r.reply.value.queue)
      && r.event == Some(ServeNextUpdate(shop, old_[0], WithEta(r.reply.value.queue)))
    ensures r.reply.Failure? ==> r.event.None?
    ensures Valid(store) ==> Valid(r.store)
    ensures Valid(store) && r.reply.Failure? ==> r.store == store
  {
    match RequireAdmin(adminAuth, shop)
    case Reject(reason) => Step(store, Failure(reason), None)
    case Admit =>
      var line := Line(store, shop);
      if line == [] then Step(store, Failure(QueueIsEmpty), None)
      else
        var store' := WithLine(store, shop, line[1..]);
        ValidTail(store, shop);
        if line[0] == "" then Step(store', Failure(QueueIsEmpty), None)
        else
          var queue := Positions(shop, Line(store', shop));
          Step(store', Success(Served(line[0], queue)),
               Some(ServeNextUpdate(shop, line[0], WithEta(queue))))
  }

  /** Dropping the head keeps the store valid. */
  lemma ValidTail(store: Store, shop: ShopId)
    requires Line(store, shop) != []
    ensures Valid(store) ==> Valid(WithLine(store, shop, Line(store, shop)[1..]))
  {
    if Valid(store) {
      var line := Line(store, shop);
      assert NoBlankNames(line[1..]) by {
        forall i | 0 <= i < |line| - 1 ensures line[1..][i] != "" {
          assert line[1..][i] == line[i + 1];
        }
      }
      WithLineValid(store, shop, line[1..]);
    }
  }

  /** Everyone still queued moves forward by exactly one place: the entry
      now at position p is the name that was at position p + 1. */
  lemma {:induction false} EveryoneMovesUp(store: Store, shop: ShopId, adminAuth: Option<string>)
    requires ServeNext(store, shop, adminAuth).reply.Success?
    ensures var before := Positions(shop, Line(store, shop));
      var after := ServeNext(store, shop, adminAuth).reply.value.queue;
      && |after| == |before| - 1
      && forall i :: 0 <= i < |after| ==>
           after[i].name == before[i + 1].name && after[i].position == before[i + 1].position - 1
  {
    var before := Positions(shop, Line(store, shop));
    var after := ServeNext(store, shop, adminAuth).reply.value.queue;
    forall i | 0 <= i < |after|
      ensures after[i].name == before[i + 1].name && after[i].position == before[i + 1].position - 1
    {
      assert NamesOf(after)[i] == Line(store, shop)[1..][i];
      assert NamesOf(before)[i + 1] == Line(store, shop)[i + 1];
    }
  }

  /** The reply queue and the event queue describe the same entries; the
      event adds the estimates the reply leaves out. */
  lemma ReplyAndEventAgree(store: Store, shop: ShopId, adminAuth: Option<string>)
    requires ServeNext(store, shop, adminAuth).reply.Success?
    ensures var r := ServeNext(store, shop, adminAuth);
      && r.event.value.queue == Projected(shop, Line(r.store, shop))
      && StripEta(r.event.value.queue) == r.reply.value.queue
  {
    var r := ServeNext(store, shop, adminAuth);
    PositionsCharacterized(shop, Line(r.store, shop), r.reply.value.queue);
    EtaProjectionsAgree(shop, Line(r.store, shop));
  }
}
