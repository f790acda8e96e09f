/** The dashboard appends a join delta to its list and re-sorts the list by
    ascending position with the browser's stable sort. Modelled here as an
    insertion sort of queue entries by position. */
module PositionSort {
  import opened Projection

  /** Non-decreasing positions. */
  predicate SortedByPosition(q: seq<QueueEntry>)
  {
    forall i, j :: 0 <= i < j < |q| ==> q[i].position <= q[j].position
  }

  /** The entries of `q` at position `p`, in their order in `q`: stability
      means a sort keeps each of these subsequences as it was. */
  function AtPosition(q: seq<QueueEntry>, p: int): (r: seq<QueueEntry>)
    ensures forall i :: 0 <= i < |r| ==> r[i].position == p
  {
    if q == [] then []
    else (if q[0].position == p then [q[0]] else []) + AtPosition(q[1..], p)
  }

  /** Places `x` before the first entry of `q` whose position is not
      smaller, so `x` stays ahead of the entries it ties with. */
  function Insert(x: QueueEntry, q: seq<QueueEntry>): (r: seq<QueueEntry>)
    ensures |r| == |q| + 1
    ensures forall i :: 0 <= i < |r| ==> r[i] == x || r[i] in q
  {
    if q == [] then [x]
    else if x.position <= q[0].position then [x] + q
    else [q[0]] + Insert(x, q[1..])
  }

  /** Insertion adds `x` and nothing else. */
  lemma {:induction false} InsertPermutes(x: QueueEntry, q: seq<QueueEntry>)
    ensures multiset(Insert(x, q)) == multiset(q) + multiset{x}
  {
    if q != [] && x.position > q[0].position {
      var rest := Insert(x, q[1..]);
      InsertPermutes(x, q[1..]);
      assert q == [q[0]] + q[1..];
      assert Insert(x, q) == [q[0]] + rest;
      calc {
        multiset(Insert(x, q));
        multiset{q[0]} + multiset(rest);
        multiset{q[0]} + (multiset(q[1..]) + multiset{x});
        (multiset{q[0]} + multiset(q[1..])) + multiset{x};
        multiset(q) + multiset{x};
      }
    }
  }

  /** Insertion into a sorted list keeps it sorted. */
  lemma {:induction false} InsertSorted(x: QueueEntry, q: seq<QueueEntry>)
    requires SortedByPosition(q)
    ensures SortedByPosition(Insert(x, q))
  {
    if q != [] && x.position > q[0].position {
      InsertSorted(x, q[1..]);
      var rest := Insert(x, q[1..]);
      var r := Insert(x, q);
      assert r == [q[0]] + rest;
      forall j | 0 <= j < |rest| ensures q[0].position <= rest[j].position {
        if rest[j] != x {
          var k :| 0 <= k < |q[1..]| && q[1..][k] == rest[j];
          assert q[k + 1] == rest[j];
        }
      }
      forall i, j | 0 <= i < j < |r| ensures r[i].position <= r[j].position {
        if i > 0 {
          assert r[i] == rest[i - 1] && r[j] == rest[j - 1];
        } else {
          assert r[j] == rest[j - 1];
        }
      }
    }
  }

  /** Stable sort by position: the result is sorted and a permutation of
      the input. */
  function SortByPosition(q: seq<QueueEntry>): (r: seq<QueueEntry>)
    ensures SortedByPosition(r)
    ensures multiset(r) == multiset(q)
    ensures |r| == |q|
  {
    if q == [] then []
    else
      var rest := SortByPosition(q[1..]);
      InsertPermutes(q[0], rest);
      InsertSorted(q[0], rest);
      assert q == [q[0]] + q[1..];
      Insert(q[0], rest)
  }

  /** Inserting adds `x` to exactly its own position class, at the front. */
  lemma {:induction false} InsertStable(x: QueueEntry, q: seq<QueueEntry>, p: int)
    ensures AtPosition(Insert(x, q), p) == (if x.position == p then [x] else []) + AtPosition(q, p)
  {
    var mine := if x.position == p then [x] else [];
    if q == [] {
      assert AtPosition([x], p) == mine + AtPosition([x][1..], p);
    } else if x.position <= q[0].position {
      var r := [x] + q;
      assert r[0] == x && r[1..] == q;
      assert AtPosition(r, p) == mine + AtPosition(q, p);
    } else {
      var rest := Insert(x, q[1..]);
      var r := [q[0]] + rest;
      var head := if q[0].position == p then [q[0]] else [];
      assert r[0] == q[0] && r[1..] == rest;
      calc {
        AtPosition(r, p);
        head + AtPosition(rest, p);
        { InsertStable(x, q[1..], p); }
        head + (mine + AtPosition(q[1..], p));
        { assert head == [] || mine == []; }
        mine + (head + AtPosition(q[1..], p));
        mine + AtPosition(q, p);
      }
    }
  }

  /** Stability: ties keep their prior relative order. */
  lemma {:induction false} SortStable(q: seq<QueueEntry>, p: int)
    ensures AtPosition(SortByPosition(q), p) == AtPosition(q, p)
  {
    if q != [] {
      SortStable(q[1..], p);
      InsertStable(q[0], SortByPosition(q[1..]), p);
    }
  }

  /** A sorted list is left as it is. */
  lemma {:induction false} SortSorted(q: seq<QueueEntry>)
    requires SortedByPosition(q)
    ensures SortByPosition(q) == q
  {
    if q != [] {
      SortSorted(q[1..]);
      assert q == [q[0]] + q[1..];
    }
  }
}
