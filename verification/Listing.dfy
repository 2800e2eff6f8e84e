/** Listing issues in order and in pages (`list_issues` and `_paginate` in modules/issuetracker/mock.py). */
module Listing {
  import opened Wrappers

  /** An issue as far as ordering looks: each sort field's values are totally ordered. */
  datatype Row = Row(id: int, fields: map<string, int>)

  datatype Key = Key(field: string, descending: bool)

  function Val(r: Row, field: string): int {
    if field in r.fields then r.fields[field] else 0
  }

  // ---- One stable sort ---------------------------------------------------------------------------------

  /** What one `sort` call compares: ids, or a field in either direction. */
  function Rank(r: Row, on: Option<Key>): int {
    match on
    case None => r.id
    case Some(key) => if key.descending then -Val(r, key.field) else Val(r, key.field)
  }

  /** Put after everything that does not rank above it. */
  function Insert(rows: seq<Row>, on: Option<Key>, x: Row): (r: seq<Row>)
    ensures |r| == |rows| + 1
  {
    if |rows| > 0 && Rank(x, on) < Rank(rows[|rows| - 1], on)
    then Insert(rows[..|rows| - 1], on, x) + [rows[|rows| - 1]]
    else rows + [x]
  }

  function Sorted(rows: seq<Row>, on: Option<Key>): (r: seq<Row>)
    ensures |r| == |rows|
  {
    if |rows| == 0 then [] else Insert(Sorted(rows[..|rows| - 1], on), on, rows[|rows| - 1])
  }

  predicate Rising(rows: seq<Row>, on: Option<Key>) {
    forall i, j | 0 <= i < j < |rows| :: Rank(rows[i], on) <= Rank(rows[j], on)
  }

  /** The rows of one rank, in the order they have. */
  function Ranked(rows: seq<Row>, on: Option<Key>, rank: int): seq<Row> {
    if |rows| == 0 then []
    else
      var rest := Ranked(rows[..|rows| - 1], on, rank);
      if Rank(rows[|rows| - 1], on) == rank then rest + [rows[|rows| - 1]] else rest
  }

  lemma {:induction false} RankedAppend(a: seq<Row>, b: seq<Row>, on: Option<Key>, rank: int)
    ensures Ranked(a + b, on, rank) == Ranked(a, on, rank) + Ranked(b, on, rank)
  {
    if |b| == 0 {
      assert a + b == a;
    } else {
      RankedAppend(a, b[..|b| - 1], on, rank);
      assert (a + b)[..|a + b| - 1] == a + b[..|b| - 1];
    }
  }

  lemma {:induction false} InsertKeeps(rows: seq<Row>, on: Option<Key>, x: Row)
    ensures multiset(Insert(rows, on, x)) == multiset(rows) + multiset{x}
  {
    if |rows| == 0 || Rank(x, on) >= Rank(rows[|rows| - 1], on) {
    } else {
      var rest, last := rows[..|rows| - 1], rows[|rows| - 1];
      InsertKeeps(rest, on, x);
      assert rows == rest + [last];
    }
  }

  lemma {:induction false} InsertRises(rows: seq<Row>, on: Option<Key>, x: Row)
    requires Rising(rows, on)
    ensures Rising(Insert(rows, on, x), on)
  {
    if |rows| == 0 || Rank(x, on) >= Rank(rows[|rows| - 1], on) {
    } else {
      var rest, last := rows[..|rows| - 1], rows[|rows| - 1];
      InsertRises(rest, on, x);
      InsertKeeps(rest, on, x);
      var r := Insert(rest, on, x);
      forall i | 0 <= i < |r| ensures Rank(r[i], on) <= Rank(last, on) {
        assert r[i] in multiset(r);
        if r[i] != x { assert r[i] in rest; }
      }
    }
  }

  lemma {:induction false} InsertRanked(rows: seq<Row>, on: Option<Key>, x: Row, rank: int)
    requires Rising(rows, on)
    ensures Ranked(Insert(rows, on, x), on, rank) == Ranked(rows, on, rank) + Ranked([x], on, rank)
  {
    RankedAppend(rows, [x], on, rank);
    if |rows| == 0 || Rank(x, on) >= Rank(rows[|rows| - 1], on) {
    } else {
      var rest, last := rows[..|rows| - 1], rows[|rows| - 1];
      InsertRanked(rest, on, x, rank);
      RankedAppend(Insert(rest, on, x), [last], on, rank);
      RankedAppend(rest, [last], on, rank);
      assert rows == rest + [last];
      OneRanked(x, on, rank);
      OneRanked(last, on, rank);
    }
  }

  lemma OneRanked(x: Row, on: Option<Key>, rank: int)
    ensures Ranked([x], on, rank) == if Rank(x, on) == rank then [x] else []
  {
    assert [x][..0] == [];
  }

  lemma {:induction false} SortedKeeps(rows: seq<Row>, on: Option<Key>)
    ensures multiset(Sorted(rows, on)) == multiset(rows)
  {
    if |rows| == 0 {
    } else {
      var rest, x := rows[..|rows| - 1], rows[|rows| - 1];
      SortedKeeps(rest, on);
      InsertKeeps(Sorted(rest, on), on, x);
      assert rows == rest + [x];
    }
  }

  lemma {:induction false} SortedRises(rows: seq<Row>, on: Option<Key>)
    ensures Rising(Sorted(rows, on), on)
  {
    if |rows| == 0 {
    } else {
      SortedRises(rows[..|rows| - 1], on);
      InsertRises(Sorted(rows[..|rows| - 1], on), on, rows[|rows| - 1]);
    }
  }

  lemma {:induction false} SortedRanked(rows: seq<Row>, on: Option<Key>, rank: int)
    ensures Ranked(Sorted(rows, on), on, rank) == Ranked(rows, on, rank)
  {
    if |rows| == 0 {
    } else {
      var rest, x := rows[..|rows| - 1], rows[|rows| - 1];
      SortedRanked(rest, on, rank);
      SortedRises(rest, on);
      InsertRanked(Sorted(rest, on), on, x, rank);
      RankedAppend(rest, [x], on, rank);
      assert rows == rest + [x];
    }
  }

  /** A stable sort: the same rows, ordered by rank, those of one rank in the order they had. */
  lemma SortedIsStable(rows: seq<Row>, on: Option<Key>, rank: int)
    ensures Rising(Sorted(rows, on), on) && multiset(Sorted(rows, on)) == multiset(rows)
    ensures Ranked(Sorted(rows, on), on, rank) == Ranked(rows, on, rank)
  {
    SortedKeeps(rows, on);
    SortedRises(rows, on);
    SortedRanked(rows, on, rank);
  }

  // ---- The whole order ---------------------------------------------------------------------------------

  /** The order asked for: by the first key, then the second, and so on, ties by id. */
  predicate Before(order: seq<Key>, a: Row, b: Row) {
    if |order| == 0 then a.id < b.id
    else
      || Precedes(order[0], a, b)
      || (Val(a, order[0].field) == Val(b, order[0].field) && Before(order[1..], a, b))
  }

  /** The smaller value first, or the greater one if the key is descending. */
  predicate Precedes(key: Key, a: Row, b: Row) {
    if key.descending then Val(b, key.field) < Val(a, key.field) else Val(a, key.field) < Val(b, key.field)
  }

  predicate InOrder(order: seq<Key>, rows: seq<Row>) {
    forall i, j | 0 <= i < j < |rows| :: Before(order, rows[i], rows[j])
  }

  predicate DistinctIds(rows: seq<Row>) {
    forall i, j | 0 <= i < j < |rows| :: rows[i].id != rows[j].id
  }

  /** Repeated stable sorts, the least significant key first. */
  function Ordered(rows: seq<Row>, order: seq<Key>): seq<Row> {
    if |order| == 0 then Sorted(rows, None) else Sorted(Ordered(rows, order[1..]), Some(order[0]))
  }

  lemma {:induction false} RankedMembers(rows: seq<Row>, on: Option<Key>, rank: int, x: Row)
    requires x in Ranked(rows, on, rank)
    ensures x in rows && Rank(x, on) == rank
  {
    if x !in Ranked(rows[..|rows| - 1], on, rank) {
    } else {
      RankedMembers(rows[..|rows| - 1], on, rank, x);
    }
  }

  /** The rows of one rank come in the order the whole list has. */
  lemma {:induction false} RankedInOrder(rows: seq<Row>, on: Option<Key>, rank: int, order: seq<Key>)
    requires InOrder(order, rows)
    ensures InOrder(order, Ranked(rows, on, rank))
  {
    if |rows| == 0 {
    } else {
      var rest, last := rows[..|rows| - 1], rows[|rows| - 1];
      RankedInOrder(rest, on, rank, order);
      var p := Ranked(rest, on, rank);
      forall k | 0 <= k < |p| ensures Before(order, p[k], last) {
        RankedMembers(rest, on, rank, p[k]);
        var i :| 0 <= i < |rest| && rest[i] == p[k];
        assert Before(order, rows[i], rows[|rows| - 1]);
      }
    }
  }

  /** Two rows of one rank are in order if the rows of that rank are. */
  lemma {:induction false} PairOfRank(rows: seq<Row>, on: Option<Key>, rank: int, order: seq<Key>, i: nat, j: nat)
    requires i < j < |rows| && Rank(rows[i], on) == rank == Rank(rows[j], on)
    requires InOrder(order, Ranked(rows, on, rank))
    ensures Before(order, rows[i], rows[j])
  {
    var a, b := rows[..j], rows[j..];
    assert rows == a + b && b == [rows[j]] + b[1..];
    RankedAppend(a, b, on, rank);
    RankedAppend([rows[j]], b[1..], on, rank);
    var p := Ranked(a, on, rank);
    MemberOfRank(a, on, rank, i);
    var k :| 0 <= k < |p| && p[k] == a[i];
    assert Ranked([rows[j]], on, rank) == [rows[j]];
    assert Ranked(rows, on, rank)[|p|] == rows[j] && Ranked(rows, on, rank)[k] == rows[i];
  }

  lemma {:induction false} MemberOfRank(rows: seq<Row>, on: Option<Key>, rank: int, i: nat)
    requires i < |rows| && Rank(rows[i], on) == rank
    ensures rows[i] in Ranked(rows, on, rank)
  {
    if i == |rows| - 1 {
    } else {
      MemberOfRank(rows[..|rows| - 1], on, rank, i);
    }
  }

  /** Sorting by one more key, more significant than the others. */
  lemma MoreSignificant(rows: seq<Row>, key: Key, order: seq<Key>)
    requires InOrder(order, rows)
    ensures InOrder([key] + order, Sorted(rows, Some(key)))
  {
    var on, sorted := Some(key), Sorted(rows, Some(key));
    assert ([key] + order)[1..] == order;
    SortedIsStable(rows, on, 0);
    forall i, j | 0 <= i < j < |sorted| ensures Before([key] + order, sorted[i], sorted[j]) {
      var rank := Rank(sorted[i], on);
      if rank == Rank(sorted[j], on) {
        SortedIsStable(rows, on, rank);
        RankedInOrder(rows, on, rank, order);
        PairOfRank(sorted, on, rank, order, i, j);
      }
    }
  }

  /** Distinct ids: no two rows of one id. */
  lemma {:induction false} RankedOnce(rows: seq<Row>, id: int)
    requires DistinctIds(rows)
    ensures |Ranked(rows, None, id)| <= 1
  {
    if |rows| == 0 {
    } else {
      var rest, last := rows[..|rows| - 1], rows[|rows| - 1];
      RankedOnce(rest, id);
      var p := Ranked(rest, None, id);
      if |p| > 0 {
        RankedMembers(rest, None, id, p[0]);
        var i :| 0 <= i < |rest| && rest[i] == p[0];
        assert rows[i].id != last.id;
      }
    }
  }

  lemma SortedById(rows: seq<Row>)
    requires DistinctIds(rows)
    ensures InOrder([], Sorted(rows, None)) && multiset(Sorted(rows, None)) == multiset(rows)
  {
    var sorted := Sorted(rows, None);
    SortedIsStable(rows, None, 0);
    forall i, j | 0 <= i < j < |sorted| ensures Before([], sorted[i], sorted[j]) {
      if sorted[i].id == sorted[j].id {
        SortedIsStable(rows, None, sorted[i].id);
        RankedOnce(rows, sorted[i].id);
        PairOfRank(sorted, None, sorted[i].id, [], i, j);
      } else {
        assert Rank(sorted[i], None) <= Rank(sorted[j], None);
      }
    }
  }

  /** Repeated stable sorts give the whole list in the order asked for. */
  lemma {:induction false} OrderedAsAsked(rows: seq<Row>, order: seq<Key>)
    requires DistinctIds(rows)
    ensures InOrder(order, Ordered(rows, order)) && multiset(Ordered(rows, order)) == multiset(rows)
  {
    if |order| == 0 {
      SortedById(rows);
    } else {
      OrderedAsAsked(rows, order[1..]);
      MoreSignificant(Ordered(rows, order[1..]), order[0], order[1..]);
      SortedIsStable(Ordered(rows, order[1..]), Some(order[0]), 0);
      assert [order[0]] + order[1..] == order;
    }
  }

  lemma {:induction false} BeforeAsymmetric(order: seq<Key>, a: Row, b: Row)
    requires Before(order, a, b)
    ensures a != b && !Before(order, b, a)
  {
    if |order| == 0 || Rank(a, Some(order[0])) != Rank(b, Some(order[0])) {
    } else {
      BeforeAsymmetric(order[1..], a, b);
    }
  }

  lemma FirstIsFirst(order: seq<Key>, a: seq<Row>, b: seq<Row>)
    requires InOrder(order, a) && InOrder(order, b) && |a| > 0 && |b| > 0 && a[0] in b && b[0] in a
    ensures a[0] == b[0]
  {
    var i :| 0 <= i < |b| && b[i] == a[0];
    var j :| 0 <= j < |a| && a[j] == b[0];
    if i > 0 {
      assert Before(order, b[0], b[i]);
      BeforeAsymmetric(order, b[0], a[0]);
    }
  }

  lemma RestOfRows(a: seq<Row>)
    requires |a| > 0
    ensures multiset(a[1..]) == multiset(a) - multiset{a[0]}
  {
    assert a == [a[0]] + a[1..];
  }

  lemma SameSize(a: seq<Row>, b: seq<Row>)
    requires multiset(a) == multiset(b)
    ensures |a| == |b| && forall x | x in a :: x in b
  {
    assert |a| == |multiset(a)| == |multiset(b)|;
    forall x | x in a ensures x in b { assert x in multiset(b); }
  }

  /** There is only one such list: the order leaves no choice. */
  lemma {:induction false} OrderIsUnique(order: seq<Key>, a: seq<Row>, b: seq<Row>)
    requires InOrder(order, a) && InOrder(order, b) && multiset(a) == multiset(b)
    ensures a == b
  {
    SameSize(a, b);
    SameSize(b, a);
    if |a| == 0 {
    } else {
      FirstIsFirst(order, a, b);
      RestOfRows(a);
      RestOfRows(b);
      OrderIsUnique(order, a[1..], b[1..]);
      assert a == [a[0]] + a[1..] && b == [b[0]] + b[1..];
    }
  }

  /** The ordering half of `list_issues`. */
  method SortRows(matching: seq<Row>, order: seq<Key>) returns (rows: seq<Row>)
    requires DistinctIds(matching)
    ensures InOrder(order, rows) && multiset(rows) == multiset(matching)
  {
    rows := Sorted(matching, None);
    var k := |order|;
    assert order[k..] == [];
    while k > 0
      invariant 0 <= k <= |order| && rows == Ordered(matching, order[k..])
    {
      k := k - 1;
      assert order[k..][1..] == order[k + 1..];
      rows := Sorted(rows, Some(order[k]));
    }
    assert order[0..] == order;
    OrderedAsAsked(matching, order);
  }

  // ---- Pages -------------------------------------------------------------------------------------------

  /** A page token as the driver reads it: absent, a number, or neither. */
  datatype Token = Absent | At(offset: int) | Garbage

  const DEFAULT_SIZE := 25

  function PageSize(size: int): (n: nat)
    ensures n > 0
  {
    if size > 0 then size else DEFAULT_SIZE
  }

  /** `_paginate`: a window of the rows, and the token of the next page if there is one. */
  function Paginate<T>(rows: seq<T>, token: Token, size: int): Option<(seq<T>, Token)> {
    if token.Garbage? || (token.At? && token.offset < 0) then None
    else
      var offset := if token.At? then token.offset else 0;
      var n := PageSize(size);
      var low := if offset <= |rows| then offset else |rows|;
      var high := if offset + n <= |rows| then offset + n else |rows|;
      Some((rows[low..if high < low then low else high], if offset + n < |rows| then At(offset + n) else Absent))
  }

  /** A page is refused for a token that is no number or negative. Any other holds the rows from its offset on, as
      many as were asked for, or 25, or as there are; and it has a next page, from where it ends, exactly if there are
      more. */
  lemma PageExactly<T>(rows: seq<T>, token: Token, size: int)
    ensures Paginate(rows, token, size).None? <==> token.Garbage? || (token.At? && token.offset < 0)
    ensures Paginate(rows, token, size).Some? ==>
              var (window, next) := Paginate(rows, token, size).value;
              var offset, asked := if token.At? then token.offset else 0, if size > 0 then size else 25;
              && |window| <= asked
              && (forall i | 0 <= i < |window| :: offset + i < |rows| && window[i] == rows[offset + i])
              && (|window| < asked ==> offset + |window| >= |rows|)
              && next == if offset + asked < |rows| then At(offset + |window|) else Absent
  {
  }

  /** Following the tokens from the first page, with whatever page sizes: every row exactly once, in order. */
  method FollowPages<T>(rows: seq<T>, sizes: nat -> int) returns (visited: seq<T>, pages: nat)
    ensures visited == rows
    ensures pages <= |rows| + 1
  {
    visited, pages := [], 0;
    var token := Absent;
    while true
      invariant token.Absent? ==> pages == 0 && visited == []
      invariant token.At? ==> 0 < token.offset < |rows| && visited == rows[..token.offset] && pages <= token.offset
      invariant !token.Garbage?
      decreases if token.At? then |rows| - token.offset else |rows| + 1
    {
      var page := Paginate(rows, token, sizes(pages));
      var (window, next) := page.value;
      visited, pages := visited + window, pages + 1;
      if next.Absent? { break; }
      token := next;
    }
  }

  /** A listing followed to its end: every matching issue exactly once, in the order asked for. */
  method ListAll(matching: seq<Row>, order: seq<Key>, sizes: nat -> int) returns (visited: seq<Row>)
    requires DistinctIds(matching)
    ensures InOrder(order, visited) && multiset(visited) == multiset(matching)
  {
    var rows := SortRows(matching, order);
    var pages;
    visited, pages := FollowPages(rows, sizes);
  }
}
