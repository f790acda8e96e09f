/** `GET /:shopId` on the state router: a read-only snapshot of a shop's
    line, without estimates. */
module StateRoute {
  import opened Common
  import opened Store
  import opened Projection
  import opened Updates
  import opened ServeNextRoute

  /** The state handler. */
  function State(store: Store, shop: ShopId): (r: Step<seq<QueueEntry>>)
    ensures r.store == store && r.event.None?
    ensures r.reply.Success?
    ensures |r.reply.value| == |Line(store, shop)|
    ensures forall i :: 0 <= i < |r.reply.value| ==> r.reply.value[i].name == Line(store, shop)[i]
    ensures Numbered(r.reply.value) && SlotIds(r.reply.value, shop) && NoEta(r.reply.value)
  {
    Step(store, Success(Positions(shop, Line(store, shop))), None)
  }

  /** A state read right after a successful serve-next returns exactly the
      queue the serve-next reply carried. */
  lemma StateAfterServeNext(store: Store, shop: ShopId, adminAuth: Option<string>)
    requires ServeNext(store, shop, adminAuth).reply.Success?
    ensures var r := ServeNext(store, shop, adminAuth);
      State(r.store, shop).reply.value == r.reply.value.queue
  {
    var r := ServeNext(store, shop, adminAuth);
    PositionsCharacterized(shop, Line(r.store, shop), r.reply.value.queue);
  }
}
