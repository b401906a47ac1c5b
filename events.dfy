/**
 * The `uuid_event` table as a sequence of rows, and the selection that
 * `countEvents` asks the database to count.
 */
module Events {
  import opened Wrappers

  /**
   * One row of `uuid_event`. The auto-increment `id` is the row's position in
   * the table and the `created` timestamp is not modelled.
   */
  datatype EventRow = EventRow(uuid: string, action: string, target: Option<int>, value: Option<string>)

  /**
   * A filter argument of `countEvents`: `None` is PHP `false` (the column is
   * not constrained), `Some(x)` constrains the column to equal `x`, and
   * `Some(None)` is `IS NULL`.
   */
  type Filter<T> = Option<Option<T>>

  /** The conditions of the query `countEvents` builds. */
  datatype Criteria = Criteria(uuid: string, action: Filter<string>, target: Filter<int>, value: Filter<string>)

  /** Whether a column holding `cell` (`None` is SQL NULL) passes the filter `f`. */
  predicate Admits<T(==)>(f: Filter<T>, cell: Option<T>)
    ensures f.None? ==> Admits(f, cell)
    ensures f == Some(None) ==> (Admits(f, cell) <==> cell.None?)
    ensures f.Some? && f.value.Some? ==> (Admits(f, cell) <==> cell == f.value)
  {
    f.None? || f.value == cell
  }

  /** Whether row `r` satisfies every condition of `c`; `action` is never NULL in the table. */
  predicate Matches(r: EventRow, c: Criteria)
    ensures Matches(r, c) ==> r.uuid == c.uuid
    ensures c.action == Some(None) ==> !Matches(r, c)
    ensures Matches(r, c) && c.action.Some? ==> c.action.value == Some(r.action)
    ensures Matches(r, c) && c.target.Some? ==> c.target.value == r.target
    ensures Matches(r, c) && c.value.Some? ==> c.value.value == r.value
    ensures r.uuid == c.uuid && c.action.None? && c.target.None? && c.value.None? ==> Matches(r, c)
    ensures Matches(r, c) <==>
      r.uuid == c.uuid && (c.action.Some? ==> c.action.value == Some(r.action))
      && (c.target.Some? ==> c.target.value == r.target) && (c.value.Some? ==> c.value.value == r.value)
  {
    r.uuid == c.uuid && Admits(c.action, Some(r.action)) && Admits(c.target, r.target) && Admits(c.value, r.value)
  }

  /**
   * The rows of `rows` that satisfy `c`, in table order: every matching row
   * is kept as often as it occurs in the table, every other row is dropped.
   */
  function Select(rows: seq<EventRow>, c: Criteria): (s: seq<EventRow>)
    ensures |s| <= |rows|
    ensures forall r :: r in s <==> r in rows && Matches(r, c)
    ensures forall r :: multiset(s)[r] == if Matches(r, c) then multiset(rows)[r] else 0
  {
    if rows == [] then []
    else
      assert rows == [rows[0]] + rows[1..];
      assert forall r :: r in rows <==> r == rows[0] || r in rows[1..];
      if Matches(rows[0], c) then [rows[0]] + Select(rows[1..], c) else Select(rows[1..], c)
  }

  /**
   * `SELECT COUNT(*) FROM uuid_event WHERE ...` for the conditions `c`: zero
   * exactly when no row matches, the table size exactly when every row does.
   */
  function CountMatching(rows: seq<EventRow>, c: Criteria): (n: nat)
    ensures n <= |rows|
    ensures n == 0 <==> forall i :: 0 <= i < |rows| ==> !Matches(rows[i], c)
    ensures n == |rows| <==> forall i :: 0 <= i < |rows| ==> Matches(rows[i], c)
  {
    CountExtremes(rows, c);
    |Select(rows, c)|
  }

  lemma CountExtremes(rows: seq<EventRow>, c: Criteria)
    ensures |Select(rows, c)| == 0 <==> forall i :: 0 <= i < |rows| ==> !Matches(rows[i], c)
    ensures |Select(rows, c)| == |rows| <==> forall i :: 0 <= i < |rows| ==> Matches(rows[i], c)
  {
    var s := Select(rows, c);
    if s == [] {
      forall i | 0 <= i < |rows| ensures !Matches(rows[i], c) {
        assert rows[i] in rows;
      }
    } else {
      assert s[0] in s;
    }
    SelectAllIff(rows, c);
  }

  lemma {:induction false} SelectAllIff(rows: seq<EventRow>, c: Criteria)
    ensures |Select(rows, c)| == |rows| <==> forall i :: 0 <= i < |rows| ==> Matches(rows[i], c)
  {
    if rows != [] {
      var tail := rows[1..];
      SelectAllIff(tail, c);
      var all := forall i :: 0 <= i < |rows| ==> Matches(rows[i], c);
      var allTail := forall i :: 0 <= i < |tail| ==> Matches(tail[i], c);
      assert all <==> Matches(rows[0], c) && allTail by {
        if Matches(rows[0], c) && allTail {
          forall i | 0 < i < |rows| ensures Matches(rows[i], c) { assert rows[i] == tail[i - 1]; }
        }
      }
      assert |Select(tail, c)| <= |tail|;
    }
  }

  /** The criteria of `countEvents` called with every filter `false`. */
  function Unfiltered(uuid: string): Criteria {
    Criteria(uuid, None, None, None)
  }

  /** `d` adds conditions to `c` and drops none: every filter `c` sets, `d` sets the same way. */
  predicate Narrows(d: Criteria, c: Criteria) {
    d.uuid == c.uuid && (c.action.Some? ==> d.action == c.action)
    && (c.target.Some? ==> d.target == c.target) && (c.value.Some? ==> d.value == c.value)
  }

  /** Appending a row adds one to the count exactly when the row matches. */
  lemma {:induction false} CountAppend(rows: seq<EventRow>, r: EventRow, c: Criteria)
    ensures CountMatching(rows + [r], c) == CountMatching(rows, c) + (if Matches(r, c) then 1 else 0)
  {
    if rows == [] {
      assert rows + [r] == [r];
    } else {
      assert (rows + [r])[1..] == rows[1..] + [r];
      CountAppend(rows[1..], r, c);
    }
  }

  /** Each further condition can only lower the count. */
  lemma {:induction false} CountNarrows(rows: seq<EventRow>, d: Criteria, c: Criteria)
    requires Narrows(d, c)
    ensures CountMatching(rows, d) <= CountMatching(rows, c)
  {
    if rows != [] {
      CountNarrows(rows[1..], d, c);
    }
  }

  /** The count never exceeds the number of rows tagged with the identifier. */
  lemma CountAtMostUnfiltered(rows: seq<EventRow>, c: Criteria)
    ensures CountMatching(rows, c) <= CountMatching(rows, Unfiltered(c.uuid)) <= |rows|
  {
    CountNarrows(rows, c, Unfiltered(c.uuid));
  }

  /** No row of another identifier is ever counted. */
  lemma {:induction false} CountIgnoresOtherIds(rows: seq<EventRow>, r: EventRow, c: Criteria)
    requires r.uuid != c.uuid
    ensures CountMatching(rows + [r], c) == CountMatching(rows, c)
  {
    CountAppend(rows, r, c);
  }
}
