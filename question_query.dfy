/**
 * The part of the database the listings rely on: a WHERE clause made of
 * equality conditions joined by AND, and `ORDER BY created_at DESC`.
 * Rows with equal `created_at` may come back in any order, as in SQLite.
 */
module QuestionQuery {
  import opened Wrappers
  import opened Questions

  /** One condition of a WHERE clause, with its bound parameters. */
  datatype Condition =
    | StatusIs(status: string)             // status = ?
    | UrgencyIs(urgency: string)           // urgency = ?
    | OwnedBy(userId: string, email: string) // user_id = ? OR email = ?

  /** `WHERE 1=1 AND c1 AND c2 ...`; the empty list selects every row. */
  datatype Query = Query(conditions: seq<Condition>)

  /** SQL equality on the stored text: a NULL `user_id` equals nothing. */
  predicate Holds(q: Question, c: Condition) {
    match c
    case StatusIs(s) => StatusName(q.status) == s
    case UrgencyIs(u) => UrgencyName(q.urgency) == u
    case OwnedBy(uid, e) => q.userId == Some(uid) || q.email == e
  }

  predicate Satisfies(q: Question, query: Query) {
    forall c :: c in query.conditions ==> Holds(q, c)
  }

  /** The table is keyed by each row's own `id` (the primary key). */
  ghost predicate WellKeyed(table: map<string, Question>) {
    forall k :: k in table ==> table[k].id == k
  }

  predicate NewestFirst(rows: seq<Question>) {
    forall i, j :: 0 <= i < j < |rows| ==> rows[i].createdAt >= rows[j].createdAt
  }

  predicate DistinctIds(rows: seq<Question>) {
    forall i, j :: 0 <= i < j < |rows| ==> rows[i].id != rows[j].id
  }

  ghost function MatchingIds(table: map<string, Question>, query: Query): set<string> {
    set k | k in table && Satisfies(table[k], query)
  }

  /** `rows` is what the query returns: every matching row once, newest first. */
  ghost predicate IsOrderedSelection(rows: seq<Question>, table: map<string, Question>, query: Query) {
    && NewestFirst(rows)
    && DistinctIds(rows)
    && (forall i :: 0 <= i < |rows| ==>
          rows[i].id in table && table[rows[i].id] == rows[i] && Satisfies(rows[i], query))
    && (forall k :: k in table && Satisfies(table[k], query) ==> table[k] in rows)
  }

  /** Where a row goes in a newest-first list: before the first row not newer than it. */
  function InsertionPoint(rows: seq<Question>, q: Question): (p: nat)
    ensures p <= |rows|
    ensures forall i :: 0 <= i < p ==> rows[i].createdAt > q.createdAt
    ensures p < |rows| ==> rows[p].createdAt <= q.createdAt
  {
    if rows == [] || rows[0].createdAt <= q.createdAt then 0
    else 1 + InsertionPoint(rows[1..], q)
  }

  function InsertNewestFirst(rows: seq<Question>, q: Question): (r: seq<Question>)
    requires NewestFirst(rows)
    ensures |r| == |rows| + 1
    ensures NewestFirst(r)
    ensures forall x :: x in r <==> x in rows || x == q
    ensures multiset(r) == multiset(rows) + multiset{q}
    ensures DistinctIds(rows) && (forall i :: 0 <= i < |rows| ==> rows[i].id != q.id) ==> DistinctIds(r)
  {
    var p := InsertionPoint(rows, q);
    InsertAt(rows, q, p);
    assert rows == rows[..p] + rows[p..];
    rows[..p] + [q] + rows[p..]
  }

  /** The element at each position of `rows` with `q` spliced in at `p`. */
  predicate SplicedAt(r: seq<Question>, rows: seq<Question>, q: Question, p: nat) {
    && p <= |rows| && |r| == |rows| + 1
    && (forall i :: 0 <= i < p ==> r[i] == rows[i])
    && r[p] == q
    && (forall i :: p < i < |r| ==> r[i] == rows[i - 1])
  }

  lemma Splice(rows: seq<Question>, q: Question, p: nat)
    requires p <= |rows|
    ensures SplicedAt(rows[..p] + [q] + rows[p..], rows, q, p)
  {
  }

  /** Splicing `q` in at its insertion point keeps the list newest first. */
  lemma InsertAt(rows: seq<Question>, q: Question, p: nat)
    requires NewestFirst(rows) && p == InsertionPoint(rows, q)
    ensures NewestFirst(rows[..p] + [q] + rows[p..])
    ensures forall x :: x in rows[..p] + [q] + rows[p..] <==> x in rows || x == q
    ensures DistinctIds(rows) && (forall i :: 0 <= i < |rows| ==> rows[i].id != q.id) ==>
              DistinctIds(rows[..p] + [q] + rows[p..])
  {
    var r := rows[..p] + [q] + rows[p..];
    Splice(rows, q, p);
    SplicedOrder(r, rows, q, p);
    SplicedMembers(r, rows, q, p);
    if DistinctIds(rows) && (forall i :: 0 <= i < |rows| ==> rows[i].id != q.id) {
      SplicedDistinct(r, rows, q, p);
    }
  }

  lemma SplicedOrder(r: seq<Question>, rows: seq<Question>, q: Question, p: nat)
    requires NewestFirst(rows) && p == InsertionPoint(rows, q) && SplicedAt(r, rows, q, p)
    ensures NewestFirst(r)
  {
    forall i, j | 0 <= i < j < |r| ensures r[i].createdAt >= r[j].createdAt {
      if j == p {
        assert r[i] == rows[i];
      } else if i == p {
        assert r[j] == rows[j - 1] && rows[j - 1].createdAt <= rows[p].createdAt;
      } else {
        var i' := if i < p then i else i - 1;
        var j' := if j < p then j else j - 1;
        assert r[i] == rows[i'] && r[j] == rows[j'];
      }
    }
  }

  lemma SplicedMembers(r: seq<Question>, rows: seq<Question>, q: Question, p: nat)
    requires SplicedAt(r, rows, q, p)
    ensures forall x :: x in r <==> x in rows || x == q
  {
    forall x | x in rows ensures x in r {
      var i :| 0 <= i < |rows| && rows[i] == x;
      if i < p { assert r[i] == x; } else { assert r[i + 1] == x; }
    }
    assert r[p] == q;
  }

  lemma SplicedDistinct(r: seq<Question>, rows: seq<Question>, q: Question, p: nat)
    requires SplicedAt(r, rows, q, p)
    requires DistinctIds(rows) && (forall i :: 0 <= i < |rows| ==> rows[i].id != q.id)
    ensures DistinctIds(r)
  {
    forall i, j | 0 <= i < j < |r| ensures r[i].id != r[j].id {
      var i' := if i < p then i else i - 1;
      var j' := if j < p then j else j - 1;
      if i == p {
        assert r[j] == rows[j'];
      } else if j == p {
        assert r[i] == rows[i'];
      } else {
        assert r[i] == rows[i'] && r[j] == rows[j'] && i' < j';
      }
    }
  }

  /** Evaluates `query` over `table` and orders the result by `created_at` descending. */
  method SelectRows(table: map<string, Question>, query: Query) returns (rows: seq<Question>)
    requires WellKeyed(table)
    ensures IsOrderedSelection(rows, table, query)
  {
    rows := [];
    var remaining := table.Keys;
    while remaining != {}
      invariant remaining <= table.Keys
      invariant NewestFirst(rows) && DistinctIds(rows)
      invariant forall i :: 0 <= i < |rows| ==>
        rows[i].id in table && rows[i].id !in remaining && table[rows[i].id] == rows[i] && Satisfies(rows[i], query)
      invariant forall k :: k in table && k !in remaining && Satisfies(table[k], query) ==> table[k] in rows
      decreases remaining
    {
      var k :| k in remaining;
      if Satisfies(table[k], query) {
        rows := InsertNewestFirst(rows, table[k]);
      }
      remaining := remaining - {k};
    }
  }

  function IdSet(rows: seq<Question>): set<string> {
    set i | 0 <= i < |rows| :: rows[i].id
  }

  lemma {:induction false} DistinctIdsCount(rows: seq<Question>)
    requires DistinctIds(rows)
    ensures |IdSet(rows)| == |rows|
  {
    if rows != [] {
      var tail := rows[1..];
      assert DistinctIds(tail) by {
        forall i, j | 0 <= i < j < |tail| ensures tail[i].id != tail[j].id {
          assert tail[i] == rows[i + 1] && tail[j] == rows[j + 1];
        }
      }
      DistinctIdsCount(tail);
      assert IdSet(rows) == {rows[0].id} + IdSet(tail) by {
        forall x | x in IdSet(rows) ensures x in {rows[0].id} + IdSet(tail) {
          var i :| 0 <= i < |rows| && rows[i].id == x;
          if i > 0 { assert tail[i - 1] == rows[i]; }
        }
        forall x | x in IdSet(tail) ensures x in IdSet(rows) {
          var i :| 0 <= i < |tail| && tail[i].id == x;
          assert rows[i + 1] == tail[i];
        }
      }
      assert rows[0].id !in IdSet(tail) by {
        forall i | 0 <= i < |tail| ensures tail[i].id != rows[0].id {
          assert tail[i] == rows[i + 1];
        }
      }
    }
  }

  /** A result lists exactly the matching rows: one entry per matching id. */
  lemma SelectionLength(rows: seq<Question>, table: map<string, Question>, query: Query)
    requires WellKeyed(table)
    requires IsOrderedSelection(rows, table, query)
    ensures IdSet(rows) == MatchingIds(table, query)
    ensures |rows| == |MatchingIds(table, query)|
  {
    forall k | k in MatchingIds(table, query) ensures k in IdSet(rows) {
      var i :| 0 <= i < |rows| && rows[i] == table[k];
    }
    DistinctIdsCount(rows);
  }
}
