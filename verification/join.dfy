/** `POST /join`: validate the body, read the line length, append the name,
    write the audit record, then broadcast the JOIN delta. */
module JoinRoute {
  import opened Common
  import opened Store
  import opened Projection
  import opened Updates

  /** The record store's answer to `queueEntry.create`: the id of the new
      row, or a failure. */
  datatype RecordOutcome = Recorded(key: string) | RecordFailed

  /** The join handler under sequential execution. The position is read
      before the append; the record step runs after it, so a failing record
      step leaves the name queued without any event. */
  function Join(store: Store, name: Option<string>, shopId: Option<string>, record: RecordOutcome)
    : (r: Step<QueueEntry>)
    // validation comes first and touches nothing
    ensures !Present(name) || !Present(shopId) ==>
      r == Step(store, Failure(MissingNameOrShopId), None)
    // past validation the name is appended, whatever the record step does
    ensures Present(name) && Present(shopId) ==>
      && Line(r.store, shopId.value) == Line(store, shopId.value) + [name.value]
      && SameElsewhere(store, r.store, shopId.value)
    ensures Present(name) && Present(shopId) && record.RecordFailed? ==>
      r.reply == Failure(JoinInternalError) && r.event.None?
    ensures r.reply.Success? <==> Present(name) && Present(shopId) && record.Recorded?
    ensures r.reply.Success? ==>
      var e := r.reply.value;
      && e == QueueEntry(Record(record.key), name.value, |Line(store, shopId.value)| + 1, None)
      && r.event == Some(JoinUpdate(shopId.value, e, |Line(store, shopId.value)| * AvgServiceMinutes))
    ensures Valid(store) ==> Valid(r.store)
  {
    if !Present(name) || !Present(shopId) then Step(store, Failure(MissingNameOrShopId), None)
    else
      var shop := shopId.value;
      var position := |Line(store, shop)|;
      var store' := WithLine(store, shop, Line(store, shop) + [name.value]);
      ValidAppend(store, shop, name.value);
      match record
      case RecordFailed => Step(store', Failure(JoinInternalError), None)
      case Recorded(key) =>
        var entry := QueueEntry(Record(key), name.value, position + 1, None);
        Step(store', Success(entry), Some(JoinUpdate(shop, entry, EtaFor(entry.position))))
  }

  /** Appending a non-blank name keeps the store valid. */
  lemma ValidAppend(store: Store, shop: ShopId, name: Name)
    requires name != ""
    ensures Valid(store) ==> Valid(WithLine(store, shop, Line(store, shop) + [name]))
  {
    if Valid(store) {
      var line := Line(store, shop) + [name];
      assert NoBlankNames(line) by {
        forall i | 0 <= i < |line| ensures line[i] != "" {
          if i < |line| - 1 { assert line[i] == Line(store, shop)[i]; }
        }
      }
      WithLineValid(store, shop, line);
    }
  }

  /** A name already queued is accepted again and queued a second time. */
  lemma DuplicateJoinAppends(store: Store, name: Name, shop: ShopId, record: RecordOutcome)
    requires name != "" && shop != ""
    requires name in Line(store, shop)
    ensures var line' := Line(Join(store, Some(name), Some(shop), record).store, shop);
      multiset(line')[name] == multiset(Line(store, shop))[name] + 1
  {
  }

  /** The joiner's estimate is (position - 1) * 4, i.e. four minutes per
      name ahead of them. */
  lemma JoinEta(store: Store, name: Option<string>, shopId: Option<string>, record: RecordOutcome)
    requires Join(store, name, shopId, record).event.Some?
    ensures var ev := Join(store, name, shopId, record).event.value;
      ev.JoinUpdate? && ev.etaMinutes == EtaFor(ev.entry.position)
  {
  }
}
