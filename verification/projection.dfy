/** The position projector: a shop's raw line of names becomes the list of
    entries the routes reply with and broadcast. Positions and ids are
    re-derived from the index on every read, never stored. */
module Projection {
  import opened Common
  import opened Store

  /** Average service time per customer, in minutes (`AVG_SERVICE_MIN`). */
  const AvgServiceMinutes: int := 4

  /** An entry's id: the shop id, a hyphen and the index for a projected
      entry, or the
      opaque id the record store assigned to a freshly joined entry. The
      positional form is injective because decimal digits contain no `-`. */
  datatype EntryId = Slot(shop: ShopId, index: nat) | Record(key: string)

  /** One entry of a queue view; `etaMinutes` is absent from the state
      reply, the serve-next reply and the join delta's entry. */
  datatype QueueEntry = QueueEntry(id: EntryId, name: Name, position: int, etaMinutes: Option<int>)

  /** The wait estimate for a 1-based position. */
  function EtaFor(position: int): int
  {
    (position - 1) * AvgServiceMinutes
  }

  /** The names of a view, in view order. */
  function NamesOf(q: seq<QueueEntry>): (names: seq<Name>)
    ensures |names| == |q|
  {
    seq(|q|, i requires 0 <= i < |q| => q[i].name)
  }

  /** Positions run 1..n without gaps, in view order. */
  predicate Numbered(q: seq<QueueEntry>)
  {
    forall i :: 0 <= i < |q| ==> q[i].position == i + 1
  }

  /** Ids follow the positional scheme: the shop id, a hyphen and the
      index. */
  predicate SlotIds(q: seq<QueueEntry>, shop: ShopId)
  {
    forall i :: 0 <= i < |q| ==> q[i].id == Slot(shop, i)
  }

  /** No entry carries an `etaMinutes` field. */
  predicate NoEta(q: seq<QueueEntry>)
  {
    forall i :: 0 <= i < |q| ==> q[i].etaMinutes.None?
  }

  /** Every entry carries `etaMinutes` = (position - 1) * 4. */
  predicate EtaConsistent(q: seq<QueueEntry>)
  {
    forall i :: 0 <= i < |q| ==> q[i].etaMinutes == Some(EtaFor(q[i].position))
  }

  /** The projection without estimates, as the state and serve-next replies
      build it: the i-th name gets the positional id for index i and
      position i + 1. */
  function Positions(shop: ShopId, names: seq<Name>): (q: seq<QueueEntry>)
    ensures NamesOf(q) == names
    ensures Numbered(q) && SlotIds(q, shop) && NoEta(q)
  {
    seq(|names|, i requires 0 <= i < |names| => QueueEntry(Slot(shop, i), names[i], i + 1, None))
  }

  /** The projection with estimates computed from the index, `i * 4`
      (remove reply and event). */
  function Projected(shop: ShopId, names: seq<Name>): (q: seq<QueueEntry>)
    ensures NamesOf(q) == names
    ensures Numbered(q) && SlotIds(q, shop) && EtaConsistent(q)
  {
    seq(|names|, i requires 0 <= i < |names| =>
      QueueEntry(Slot(shop, i), names[i], i + 1, Some(i * AvgServiceMinutes)))
  }

  /** Adds `etaMinutes: (position - 1) * 4` to every entry of a view
      (serve-next event). */
  function WithEta(q: seq<QueueEntry>): (r: seq<QueueEntry>)
    ensures |r| == |q| && EtaConsistent(r)
    ensures forall i :: 0 <= i < |q| ==> r[i].(etaMinutes := None) == q[i].(etaMinutes := None)
  {
    seq(|q|, i requires 0 <= i < |q| => q[i].(etaMinutes := Some(EtaFor(q[i].position))))
  }

  /** Drops `etaMinutes` from every entry. */
  function StripEta(q: seq<QueueEntry>): (r: seq<QueueEntry>)
    ensures |r| == |q| && NoEta(r)
    ensures forall i :: 0 <= i < |q| ==> r[i] == q[i].(etaMinutes := None)
  {
    seq(|q|, i requires 0 <= i < |q| => q[i].(etaMinutes := None))
  }

  /** A view is fully determined by its shop and its names: the projection
      is deterministic and loses nothing. */
  lemma PositionsInjective(shop: ShopId, a: seq<Name>, b: seq<Name>)
    requires Positions(shop, a) == Positions(shop, b)
    ensures a == b
  {
    assert NamesOf(Positions(shop, a)) == a;
  }

  /** The plain projection is the only view with the given names, gapless
      positions, positional ids and no estimates. */
  lemma PositionsCharacterized(shop: ShopId, names: seq<Name>, q: seq<QueueEntry>)
    requires NamesOf(q) == names && Numbered(q) && SlotIds(q, shop) && NoEta(q)
    ensures q == Positions(shop, names)
  {
    var p := Positions(shop, names);
    forall i | 0 <= i < |q| ensures q[i] == p[i] {
      assert NamesOf(q)[i] == names[i];
    }
  }

  /** Likewise the estimated projection is the only view with the given
      names, gapless positions, positional ids and consistent estimates. */
  lemma ProjectedCharacterized(shop: ShopId, names: seq<Name>, q: seq<QueueEntry>)
    requires NamesOf(q) == names && Numbered(q) && SlotIds(q, shop) && EtaConsistent(q)
    ensures q == Projected(shop, names)
  {
    var p := Projected(shop, names);
    forall i | 0 <= i < |q| ensures q[i] == p[i] {
      assert NamesOf(q)[i] == names[i];
    }
  }

  /** The two ways the routes attach estimates agree: serve-next's
      `(position - 1) * 4` over the plain projection equals remove's
      `i * 4`, and stripping the estimates gives back the plain projection. */
  lemma {:induction false} EtaProjectionsAgree(shop: ShopId, names: seq<Name>)
    ensures WithEta(Positions(shop, names)) == Projected(shop, names)
    ensures StripEta(Projected(shop, names)) == Positions(shop, names)
  {
    var p := Positions(shop, names);
    var e := Projected(shop, names);
    assert |WithEta(p)| == |e|;
    forall i | 0 <= i < |names|
      ensures WithEta(p)[i] == e[i]
    {
      assert p[i].position == i + 1;
      assert EtaFor(i + 1) == i * AvgServiceMinutes;
    }
  }

  /** Every entry of a projected line sits at its 1-based rank and its
      estimate is (position - 1) * 4. */
  lemma ProjectedEntry(shop: ShopId, names: seq<Name>, i: int)
    requires 0 <= i < |names|
    ensures Projected(shop, names)[i].name == names[i]
    ensures Projected(shop, names)[i].position == i + 1
    ensures Projected(shop, names)[i].etaMinutes == Some(EtaFor(i + 1))
  {
  }
}
