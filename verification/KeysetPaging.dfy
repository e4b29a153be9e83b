/**
 * Keyset paging: pages of a table ordered newest first by (timestamp, id), resumed after a cursor.
 * The database keeps microseconds; a cursor keeps whole milliseconds of its row's timestamp.
 */
module KeysetPaging {
  import opened Wrappers

  datatype Key = Key(at: int, id: int)

  datatype Row<T> = Row(key: Key, data: T)

  predicate Before(a: Key, b: Key) {
    a.at < b.at || (a.at == b.at && a.id < b.id)
  }

  function CursorOf(k: Key): Key { Key(k.at - k.at % 1000, k.id) }

  ghost predicate NewestFirst<T>(rows: seq<Row<T>>) {
    forall i, j :: 0 <= i < j < |rows| ==> Before(rows[j].key, rows[i].key)
  }

  predicate After(k: Key, cursor: Option<Key>) {
    cursor.Some? ==> Before(k, cursor.value)
  }

  // The rows that satisfy the filters and lie after the cursor, in the table's order.
  function Select<T>(table: seq<Row<T>>, matches: Row<T> -> bool, cursor: Option<Key>): (r: seq<Row<T>>)
    ensures |r| <= |table|
  {
    if table == [] then []
    else if matches(table[0]) && After(table[0].key, cursor) then [table[0]] + Select(table[1..], matches, cursor)
    else Select(table[1..], matches, cursor)
  }

  datatype Page<T> = Page(items: seq<Row<T>>, nextCursor: Option<Key>, hasMore: bool)

  // One page from the rows the statement returned, which fetches one row more than the limit. An
  // empty page has no last row to make a cursor of.
  function PageOf<T>(rows: seq<Row<T>>, limit: nat): Page<T> {
    var hasMore := |rows| > limit;
    var slice := if hasMore then rows[..limit] else rows;
    Page(slice, if hasMore && slice != [] then Some(CursorOf(slice[|slice| - 1].key)) else None, hasMore)
  }

  function Fetch<T>(table: seq<Row<T>>, matches: Row<T> -> bool, cursor: Option<Key>, limit: nat): Page<T> {
    var rows := Select(table, matches, cursor);
    PageOf(if |rows| > limit + 1 then rows[..limit + 1] else rows, limit)
  }

  // Following `nextCursor` until `hasMore` is false, and concatenating.
  ghost function FollowAll<T>(table: seq<Row<T>>, matches: Row<T> -> bool, cursor: Option<Key>, limit: nat): seq<Row<T>>
    requires limit > 0 && NewestFirst(table)
    decreases |Select(table, matches, cursor)|
  {
    var page := Fetch(table, matches, cursor, limit);
    if page.hasMore then
      SelectShrinks(table, matches, cursor, limit);
      page.items + FollowAll(table, matches, page.nextCursor, limit)
    else page.items
  }

  // ---------------------------------------------------------------- selection

  lemma {:induction false} SelectIsSorted<T>(table: seq<Row<T>>, matches: Row<T> -> bool, cursor: Option<Key>)
    requires NewestFirst(table)
    ensures NewestFirst(Select(table, matches, cursor))
    ensures forall i :: 0 <= i < |Select(table, matches, cursor)| ==>
              var r := Select(table, matches, cursor)[i]; r in table && matches(r) && After(r.key, cursor)
    ensures forall i :: 0 <= i < |table| && matches(table[i]) && After(table[i].key, cursor)
              ==> table[i] in Select(table, matches, cursor)
  {
    if table != [] {
      SelectIsSorted(table[1..], matches, cursor);
      var rest := Select(table[1..], matches, cursor);
      forall i | 0 <= i < |rest| ensures Before(rest[i].key, table[0].key) {
        assert rest[i] in table[1..];
      }
    }
  }

  // Selecting after a later cursor is dropping a prefix of the selection after an earlier one.
  lemma {:induction false} SelectLater<T>(table: seq<Row<T>>, matches: Row<T> -> bool, c1: Option<Key>, c2: Key)
    requires NewestFirst(table) && (c1.Some? ==> Before(c2, c1.value))
    ensures Select(table, matches, Some(c2)) == Select(Select(table, matches, c1), r => true, Some(c2))
  {
    if table != [] {
      SelectLater(table[1..], matches, c1, c2);
    }
  }

  // After a cursor, an ordered list keeps exactly a suffix.
  lemma {:induction false} SuffixAfter<T>(rows: seq<Row<T>>, c: Key, n: nat)
    requires NewestFirst(rows) && n <= |rows|
    requires forall i :: 0 <= i < n ==> !Before(rows[i].key, c)
    requires n < |rows| ==> Before(rows[n].key, c)
    ensures Select(rows, r => true, Some(c)) == rows[n..]
  {
    if rows != [] {
      if n > 0 {
        SuffixAfter(rows[1..], c, n - 1);
        assert rows[n..] == rows[1..][n - 1..];
      } else {
        if |rows| > 1 { assert Before(rows[1].key, rows[0].key); }
        SuffixAfter(rows[1..], c, 0);
      }
    }
  }

  lemma {:induction false} FirstAfter<T>(rows: seq<Row<T>>, c: Key, lo: nat) returns (n: nat)
    requires NewestFirst(rows) && lo <= |rows| && forall i :: 0 <= i < lo ==> !Before(rows[i].key, c)
    ensures lo <= n <= |rows| && (forall i :: 0 <= i < n ==> !Before(rows[i].key, c))
    ensures n < |rows| ==> Before(rows[n].key, c)
    ensures lo < |rows| ==> (n == lo <==> Before(rows[lo].key, c))
    decreases |rows| - lo
  {
    if lo < |rows| && !Before(rows[lo].key, c) {
      n := FirstAfter(rows, c, lo + 1);
    } else {
      n := lo;
    }
  }

  // The next page continues with a suffix of what the current page left over: with all of it if and
  // only if the first row left over lies after the cursor.
  lemma NextRows<T>(table: seq<Row<T>>, matches: Row<T> -> bool, cursor: Option<Key>, limit: nat) returns (n: nat)
    requires NewestFirst(table) && 0 < limit < |Select(table, matches, cursor)|
    ensures var rows := Select(table, matches, cursor);
            var c := CursorOf(rows[limit - 1].key);
            && limit <= n <= |rows|
            && Select(table, matches, Some(c)) == rows[n..]
            && (n == limit <==> Before(rows[limit].key, c))
  {
    var rows := Select(table, matches, cursor);
    var c := CursorOf(rows[limit - 1].key);
    SelectIsSorted(table, matches, cursor);
    assert After(rows[limit - 1].key, cursor);
    forall i | 0 <= i < limit ensures !Before(rows[i].key, c) {
      assert i < limit - 1 ==> Before(rows[limit - 1].key, rows[i].key);
    }
    n := FirstAfter(rows, c, limit);
    SuffixAfter(rows, c, n);
    SelectLater(table, matches, cursor, c);
  }

  lemma SelectShrinks<T>(table: seq<Row<T>>, matches: Row<T> -> bool, cursor: Option<Key>, limit: nat)
    requires limit > 0 && NewestFirst(table) && Fetch(table, matches, cursor, limit).hasMore
    ensures |Select(table, matches, Fetch(table, matches, cursor, limit).nextCursor)| < |Select(table, matches, cursor)|
  {
    var n := NextRows(table, matches, cursor, limit);
  }

  // ---------------------------------------------------------------- tiling

  // At every page boundary the next row still lies after the truncated cursor.
  ghost predicate BoundariesSafe<T>(rows: seq<Row<T>>, limit: nat)
    requires limit > 0
    decreases |rows|
  {
    |rows| <= limit
    || (Before(rows[limit].key, CursorOf(rows[limit - 1].key)) && BoundariesSafe(rows[limit..], limit))
  }

  // What following the cursors does with one page.
  lemma FollowPage<T>(table: seq<Row<T>>, matches: Row<T> -> bool, cursor: Option<Key>, limit: nat)
    requires limit > 0 && NewestFirst(table)
    ensures var rows := Select(table, matches, cursor);
            FollowAll(table, matches, cursor, limit)
              == if |rows| <= limit then rows
                 else rows[..limit] + FollowAll(table, matches, Some(CursorOf(rows[limit - 1].key)), limit)
  {
    var rows := Select(table, matches, cursor);
    if |rows| > limit {
      assert rows[..limit + 1][..limit] == rows[..limit];
      assert Fetch(table, matches, cursor, limit) == Page(rows[..limit], Some(CursorOf(rows[limit - 1].key)), true);
    }
  }

  lemma {:induction false} FollowedLength<T>(table: seq<Row<T>>, matches: Row<T> -> bool, cursor: Option<Key>,
                                             limit: nat)
    requires limit > 0 && NewestFirst(table)
    ensures |FollowAll(table, matches, cursor, limit)| <= |Select(table, matches, cursor)|
    decreases |Select(table, matches, cursor)|
  {
    var rows := Select(table, matches, cursor);
    FollowPage(table, matches, cursor, limit);
    if |rows| > limit {
      var n := NextRows(table, matches, cursor, limit);
      FollowedLength(table, matches, Some(CursorOf(rows[limit - 1].key)), limit);
    }
  }

  lemma SameTail<T>(rows: seq<Row<T>>, rest: seq<Row<T>>, limit: nat)
    requires limit <= |rows|
    ensures rows[..limit] + rest == rows <==> rest == rows[limit..]
  {
    assert rows == rows[..limit] + rows[limit..];
    assert (rows[..limit] + rest)[limit..] == rest;
  }

  // For every filter, limit and starting cursor, following the cursors terminates and concatenates
  // to exactly the matching rows, each once and newest first, if and only if no page boundary
  // separates two rows of the same millisecond that the truncated cursor cannot tell apart.
  lemma {:induction false} PagesTile<T>(table: seq<Row<T>>, matches: Row<T> -> bool, cursor: Option<Key>, limit: nat)
    requires limit > 0 && NewestFirst(table)
    ensures FollowAll(table, matches, cursor, limit) == Select(table, matches, cursor)
       <==> BoundariesSafe(Select(table, matches, cursor), limit)
    decreases |Select(table, matches, cursor)|
  {
    var rows := Select(table, matches, cursor);
    FollowPage(table, matches, cursor, limit);
    if |rows| > limit {
      var n := NextRows(table, matches, cursor, limit);
      var next := Some(CursorOf(rows[limit - 1].key));
      var rest := FollowAll(table, matches, next, limit);
      SameTail(rows, rest, limit);
      PagesTile(table, matches, next, limit);
      FollowedLength(table, matches, next, limit);
    }
  }

  lemma {:induction false} MillisecondsAreSafe<T>(rows: seq<Row<T>>, limit: nat)
    requires limit > 0 && NewestFirst(rows) && forall i :: 0 <= i < |rows| ==> rows[i].key.at % 1000 == 0
    ensures BoundariesSafe(rows, limit)
    decreases |rows|
  {
    if |rows| > limit { MillisecondsAreSafe(rows[limit..], limit); }
  }

  // With millisecond timestamps pages always tile.
  lemma MillisecondPagesTile<T>(table: seq<Row<T>>, matches: Row<T> -> bool, cursor: Option<Key>, limit: nat)
    requires limit > 0 && NewestFirst(table) && forall i :: 0 <= i < |table| ==> table[i].key.at % 1000 == 0
    ensures FollowAll(table, matches, cursor, limit) == Select(table, matches, cursor)
  {
    SelectIsSorted(table, matches, cursor);
    var rows := Select(table, matches, cursor);
    forall i | 0 <= i < |rows| ensures rows[i].key.at % 1000 == 0 {
      assert rows[i] in table;
    }
    MillisecondsAreSafe(rows, limit);
    PagesTile(table, matches, cursor, limit);
  }

  lemma SelectTwo(a: Row<()>, b: Row<()>)
    ensures Select([a, b], r => true, None) == [a, b]
  {
    assert [a, b][1..] == [b] && [b][1..] == [];
    assert Select([b], (r: Row<()>) => true, None) == [b] + [];
  }

  lemma SelectNone(a: Row<()>, b: Row<()>, c: Key)
    requires !Before(a.key, c) && !Before(b.key, c)
    ensures Select([a, b], r => true, Some(c)) == []
  {
    assert [a, b][1..] == [b] && [b][1..] == [];
  }

  // Two rows of one millisecond, read one per page: the second is never returned.
  lemma MicrosecondsLoseRows()
    ensures var a, b := Row(Key(1900, 2), ()), Row(Key(1500, 1), ());
            NewestFirst([a, b]) && Select([a, b], r => true, None) == [a, b]
              && FollowAll([a, b], r => true, None, 1) == [a]
  {
    var a, b := Row(Key(1900, 2), ()), Row(Key(1500, 1), ());
    var next := Some(CursorOf(a.key));
    SelectTwo(a, b);
    FollowPage([a, b], (r: Row<()>) => true, None, 1);
    SelectNone(a, b, CursorOf(a.key));
    FollowPage([a, b], (r: Row<()>) => true, next, 1);
    assert [a, b][..1] + [] == [a];
  }
}
