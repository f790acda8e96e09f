/** The `queue:update` events the routes broadcast, and the shape every
    queue route handler reduces to: a new store, a reply, and at most one
    event. */
module Updates {
  import opened Common
  import opened Store
  import opened Projection

  /** JOIN carries only the added entry (a delta) plus the joiner's
      estimate; SERVE_NEXT and REMOVE carry the full post-mutation queue (a
      snapshot) plus the served or removed name. */
  datatype QueueUpdate =
    | JoinUpdate(shopId: ShopId, entry: QueueEntry, etaMinutes: int)
    | ServeNextUpdate(shopId: ShopId, served: Name, queue: seq<QueueEntry>)
    | RemoveUpdate(shopId: ShopId, removed: Name, queue: seq<QueueEntry>)

  /** One handled request: the store afterwards, the JSON reply and the
      event emitted, if any. */
  datatype Step<+R> = Step(store: Store, reply: Result<R, HttpError>, event: Option<QueueUpdate>)
}
