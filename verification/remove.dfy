/** `POST /:shopId/remove`: remove every occurrence of a name, re-project
    the rest with estimates, broadcast the snapshot. The route is not
    behind the admin gate and has no not-found error. */
module RemoveRoute {
  import opened Common
  import opened Store
  import opened Seqs
  import opened Projection
  import opened Updates

  /** The reply body: the removed name and the remaining queue. */
  datatype Removed = Removed(removed: Name, queue: seq<QueueEntry>)

  /** The remove handler (`LREM key 0 name`, then `LRANGE`). */
  function Remove(store: Store, shop: ShopId, name: Option<string>): (r: Step<Removed>)
    ensures !Present(name) ==> r == Step(store, Failure(MissingName), None)
    ensures r.reply.Success? <==> Present(name)
    ensures r.reply.Success? ==>
      var old_ := Line(store, shop);
      var new_ := Line(r.store, shop);
      && new_ == Without(old_, name.value)
      && name.value !in new_
      && Subsequence(new_, old_)
      && |new_| == |old_| - multiset(old_)[name.value]
      && SameElsewhere(store, r.store, shop)
      && r.reply.value.removed == name.value
      && NamesOf(r.reply.value.queue) == new_
      && Numbered(r.reply.value.queue) && SlotIds(r.reply.value.queue, shop)
      && EtaConsistent(r.reply.value.queue)
      && r.event == Some(RemoveUpdate(shop, name.value, r.reply.value.queue))
    ensures Valid(store) ==> Valid(r.store)
  {
    if !Present(name) then Step(store, Failure(MissingName), None)
    else
      var line := Without(Line(store, shop), name.value);
      WithoutIsSubsequence(Line(store, shop), name.value);
      WithoutLength(Line(store, shop), name.value);
      ValidWithout(store, shop, name.value);
      var store' := WithLine(store, shop, line);
      var queue := Projected(shop, Line(store', shop));
      Step(store', Success(Removed(name.value, queue)), Some(RemoveUpdate(shop, name.value, queue)))
  }

  /** Removal keeps the store valid. */
  lemma ValidWithout(store: Store, shop: ShopId, name: Name)
    ensures Valid(store) ==> Valid(WithLine(store, shop, Without(Line(store, shop), name)))
  {
    if Valid(store) {
      var line := Without(Line(store, shop), name);
      assert NoBlankNames(line) by {
        forall i | 0 <= i < |line| ensures line[i] != "" {
          assert line[i] in line;
        }
      }
      WithLineValid(store, shop, line);
    }
  }

  /** Removing a name nobody holds still succeeds and still broadcasts,
      with the line unchanged. */
  lemma RemoveAbsentName(store: Store, shop: ShopId, name: Name)
    requires name != "" && name !in Line(store, shop)
    ensures var r := Remove(store, shop, Some(name));
      && r.reply.Success?
      && Line(r.store, shop) == Line(store, shop)
      && r.event.Some?
  {
    WithoutAbsent(Line(store, shop), name);
  }

  /** Removing the same name twice leaves the same line as removing it
      once, and the second removal broadcasts the same queue again. */
  lemma RemoveIdempotent(store: Store, shop: ShopId, name: Option<string>)
    ensures var once := Remove(store, shop, name);
      var twice := Remove(once.store, shop, name);
      && Line(twice.store, shop) == Line(once.store, shop)
      && twice.reply == once.reply
  {
    if Present(name) {
      var once := Remove(store, shop, name);
      var twice := Remove(once.store, shop, name);
      WithoutIdempotent(Line(store, shop), name.value);
      ProjectedCharacterized(shop, Line(once.store, shop), once.reply.value.queue);
      ProjectedCharacterized(shop, Line(twice.store, shop), twice.reply.value.queue);
    }
  }
}
