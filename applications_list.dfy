/**
 * The applications table: the filter -> stable sort -> page-slice pipeline
 * over the rows of the submissions endpoint, the page arithmetic and controls,
 * the status badge text, and the table's own state (search term, status
 * filter, sort column and direction, current page, column configurations).
 */
module ApplicationsList {
  import opened Wrappers
  import opened Text
  import opened Types

  type Row = ApplicationData

  /** The columns shown until the user changes the selection. */
  const DefaultColumns: seq<string> := ["Full Name", "Insurance Type", "City", "Status", "Submitted Date"]

  /** The page size; the table never changes it. */
  const ItemsPerPage: nat := 10

  // ------------------------------------------------------- column configs

  /** The configurations built when the column list first arrives: one per
      column, in order, keyed and labelled by the column, always sortable,
      visible iff the column is one of the defaults. */
  function InitialConfigs(columns: seq<string>): (r: seq<ColumnConfig>)
    ensures |r| == |columns|
    ensures forall i :: 0 <= i < |r| ==>
              && r[i].key == columns[i] && r[i].caption == columns[i] && r[i].sortable
              && (r[i].visible <==> columns[i] in DefaultColumns)
  {
    seq(|columns|, i requires 0 <= i < |columns| => ColumnConfig(columns[i], columns[i], columns[i] in DefaultColumns, true))
  }

  /** The configurations whose column is shown, in order. */
  function VisibleColumns(configs: seq<ColumnConfig>): (r: seq<ColumnConfig>)
    ensures forall c :: c in r <==> c in configs && c.visible
    ensures |r| <= |configs|
    decreases |configs|
  {
    if configs == [] then []
    else (if configs[0].visible then [configs[0]] else []) + VisibleColumns(configs[1..])
  }

  lemma {:induction false} VisibleColumnsAppend(a: seq<ColumnConfig>, b: seq<ColumnConfig>)
    ensures VisibleColumns(a + b) == VisibleColumns(a) + VisibleColumns(b)
    decreases |a|
  {
    if a != [] {
      assert (a + b)[1..] == a[1..] + b;
      VisibleColumnsAppend(a[1..], b);
    } else {
      assert a + b == b;
    }
  }

  /** When every configuration is visible, all of them are shown, in order. */
  lemma {:induction false} AllVisible(a: seq<ColumnConfig>)
    requires forall i :: 0 <= i < |a| ==> a[i].visible
    ensures VisibleColumns(a) == a
    decreases |a|
  {
    if a != [] { AllVisible(a[1..]); }
  }

  lemma {:induction false} NoneVisible(a: seq<ColumnConfig>)
    requires forall i :: 0 <= i < |a| ==> !a[i].visible
    ensures VisibleColumns(a) == []
    decreases |a|
  {
    if a != [] { NoneVisible(a[1..]); }
  }

  /** `toggleColumnVisibility`: flip `visible` on the configurations with key `key`. */
  function ToggleVisibility(configs: seq<ColumnConfig>, key: string): (r: seq<ColumnConfig>)
    ensures |r| == |configs|
    ensures forall i :: 0 <= i < |r| ==>
              && r[i].key == configs[i].key && r[i].caption == configs[i].caption && r[i].sortable == configs[i].sortable
              && r[i].visible == (if configs[i].key == key then !configs[i].visible else configs[i].visible)
  {
    seq(|configs|, i requires 0 <= i < |configs| =>
      if configs[i].key == key then configs[i].(visible := !configs[i].visible) else configs[i])
  }

  /** Toggling the same column twice restores the configurations. */
  lemma ToggleTwice(configs: seq<ColumnConfig>, key: string)
    ensures ToggleVisibility(ToggleVisibility(configs, key), key) == configs
  {
    var r := ToggleVisibility(ToggleVisibility(configs, key), key);
    assert forall i :: 0 <= i < |r| ==> r[i] == configs[i];
  }

  // ---------------------------------------------------------------- filter

  /** Some value of the row, lower-cased, contains the lower-cased term. The
      empty term matches every row, and on a row with at least one value it
      would match through the containment test too: the short cut decides
      only the row without values. A row holding the term as a whole value matches. */
  function MatchesSearch(row: Row, term: string): (m: bool)
    ensures term == "" ==> m
    ensures row != map[] ==> (m <==> exists k | k in row :: Contains(Lower(row[k]), Lower(term)))
    ensures (exists k | k in row :: row[k] == term) ==> m
  {
    EmptySearchShortCircuit(row);
    WholeValueContainsTerm(row, term);
    term == "" || exists k | k in row :: Contains(Lower(row[k]), Lower(term))
  }

  lemma WholeValueContainsTerm(row: Row, term: string)
    ensures (exists k | k in row :: row[k] == term) ==> exists k | k in row :: Contains(Lower(row[k]), Lower(term))
  {
    if exists k | k in row :: row[k] == term {
      var k :| k in row && row[k] == term;
      ContainsSelf(Lower(term));
    }
  }

  /** Every value contains the empty term. */
  lemma EmptySearchShortCircuit(row: Row)
    ensures row != map[] ==> exists k | k in row :: Contains(Lower(row[k]), Lower(""))
  {
    if row != map[] {
      var k :| k in row;
      ContainsEmpty(Lower(row[k]));
      assert Lower("") == "";
    }
  }

  /** The search ignores the case of the term. */
  lemma SearchIgnoresCase(row: Row, term: string)
    ensures MatchesSearch(row, term) == MatchesSearch(row, Lower(term))
  {
    LowerIdempotent(term);
  }

  /** The empty filter keeps every row; a row without a status is kept by
      no other filter. */
  function MatchesStatus(row: Row, status: string): (m: bool)
    ensures status == "" ==> m
    ensures "Status" !in row ==> (m <==> status == "")
  {
    status == "" || ("Status" in row && row["Status"] == status)
  }

  predicate Keep(row: Row, term: string, status: string) {
    MatchesSearch(row, term) && MatchesStatus(row, status)
  }

  /** `a` is `b` with some elements left out. */
  ghost predicate IsSubsequence<T>(a: seq<T>, b: seq<T>)
    decreases |b|
  {
    a == [] || (b != [] && ((a[0] == b[0] && IsSubsequence(a[1..], b[1..])) || IsSubsequence(a, b[1..])))
  }

  /** The filter step: the rows that match both the search term and the
      status filter, in their original order, each as often as in the input. */
  function FilterRows(rows: seq<Row>, term: string, status: string): (r: seq<Row>)
    ensures forall x :: x in r ==> Keep(x, term, status)
    ensures forall x :: multiset(r)[x] == if Keep(x, term, status) then multiset(rows)[x] else 0
    ensures IsSubsequence(r, rows)
    decreases |rows|
  {
    if rows == [] then []
    else
      var rest := FilterRows(rows[1..], term, status);
      assert rows == [rows[0]] + rows[1..];
      if Keep(rows[0], term, status) then
        assert ([rows[0]] + rest)[1..] == rest;
        [rows[0]] + rest
      else rest
  }

  /** Filtering by both is the search filter followed by the status filter. */
  lemma {:induction false} FilterSplits(rows: seq<Row>, term: string, status: string)
    ensures FilterRows(rows, term, status) == FilterRows(FilterRows(rows, term, ""), "", status)
    decreases |rows|
  {
    if rows != [] {
      FilterSplits(rows[1..], term, status);
      var searched := FilterRows(rows, term, "");
      if Keep(rows[0], term, "") {
        assert searched == [rows[0]] + FilterRows(rows[1..], term, "");
        assert searched[1..] == FilterRows(rows[1..], term, "");
      } else {
        assert searched == FilterRows(rows[1..], term, "");
      }
    }
  }

  // ------------------------------------------------------------------ sort

  datatype Direction = Asc | Desc

  /** `row[field]`; a row without the column sorts as the empty string. */
  function SortKey(row: Row, field: string): string {
    if field in row then row[field] else ""
  }

  /** May a row with key `a` precede one with key `b`: the comparator of the
      source does not return a positive number. */
  function InOrder(dir: Direction, a: string, b: string): (r: bool)
    ensures a == b ==> r
  {
    StrLtIrreflexive(a);
    match dir
    case Asc => !StrLt(b, a)
    case Desc => !StrLt(a, b)
  }

  predicate RowsInOrder(dir: Direction, field: string, x: Row, y: Row) {
    InOrder(dir, SortKey(x, field), SortKey(y, field))
  }

  lemma InOrderTotal(dir: Direction, a: string, b: string)
    ensures InOrder(dir, a, b) || InOrder(dir, b, a)
  {
    if StrLt(a, b) && StrLt(b, a) {
      StrLtTransitive(a, b, a);
      StrLtIrreflexive(a);
    }
  }

  lemma InOrderTransitive(dir: Direction, a: string, b: string, c: string)
    requires InOrder(dir, a, b) && InOrder(dir, b, c)
    ensures InOrder(dir, a, c)
  {
    match dir
    case Asc =>
      if StrLt(c, a) && a != b {
        StrLtTotal(a, b);
        StrLtTransitive(c, a, b);
      }
    case Desc =>
      if StrLt(a, c) && a != b {
        StrLtTotal(a, b);
        StrLtTransitive(b, a, c);
      }
  }

  /** Rows out of order have different keys. */
  lemma OutOfOrderKeysDiffer(dir: Direction, a: string, b: string)
    requires !InOrder(dir, a, b)
    ensures a != b
  {
    StrLtIrreflexive(a);
  }

  /** Insert `x` before the first row it may precede. */
  function Insert(x: Row, t: seq<Row>, field: string, dir: Direction): (r: seq<Row>)
    ensures multiset(r) == multiset(t) + multiset{x}
    decreases |t|
  {
    if t == [] then [x]
    else if RowsInOrder(dir, field, x, t[0]) then [x] + t
    else
      assert t == [t[0]] + t[1..];
      [t[0]] + Insert(x, t[1..], field, dir)
  }

  /** The sort step: insertion sort, which keeps rows with equal keys in their
      input order, as the stable built-in sort does. */
  function SortRows(rows: seq<Row>, field: string, dir: Direction): (r: seq<Row>)
    ensures multiset(r) == multiset(rows)
    decreases |rows|
  {
    if rows == [] then []
    else
      assert rows == [rows[0]] + rows[1..];
      Insert(rows[0], SortRows(rows[1..], field, dir), field, dir)
  }

  ghost predicate Sorted(rows: seq<Row>, field: string, dir: Direction) {
    forall i, j :: 0 <= i < j < |rows| ==> RowsInOrder(dir, field, rows[i], rows[j])
  }

  /** A row in order before every row of a sorted list can go in front of it. */
  lemma SortedCons(h: Row, rest: seq<Row>, field: string, dir: Direction)
    requires Sorted(rest, field, dir)
    requires forall j :: 0 <= j < |rest| ==> RowsInOrder(dir, field, h, rest[j])
    ensures Sorted([h] + rest, field, dir)
  {
    var r := [h] + rest;
    forall i, j | 0 <= i < j < |r| ensures RowsInOrder(dir, field, r[i], r[j]) {
      assert r[j] == rest[j - 1];
      if i > 0 { assert r[i] == rest[i - 1]; }
    }
  }

  /** The head of a sorted list goes before every row of the rest with `x` inserted, when it goes before `x`. */
  lemma HeadBeforeInsert(x: Row, t: seq<Row>, field: string, dir: Direction)
    requires t != [] && Sorted(t, field, dir) && RowsInOrder(dir, field, t[0], x)
    ensures forall j :: 0 <= j < |Insert(x, t[1..], field, dir)| ==> RowsInOrder(dir, field, t[0], Insert(x, t[1..], field, dir)[j])
  {
    var rest := Insert(x, t[1..], field, dir);
    forall j | 0 <= j < |rest| ensures RowsInOrder(dir, field, t[0], rest[j]) {
      assert rest[j] in multiset(rest);
      assert rest[j] == x || rest[j] in multiset(t[1..]);
      if rest[j] != x {
        var m :| 0 <= m < |t[1..]| && t[1..][m] == rest[j];
        assert t[m + 1] == rest[j];
      }
    }
  }

  lemma {:induction false} InsertSorted(x: Row, t: seq<Row>, field: string, dir: Direction)
    requires Sorted(t, field, dir)
    ensures Sorted(Insert(x, t, field, dir), field, dir)
    decreases |t|
  {
    if t != [] {
      if RowsInOrder(dir, field, x, t[0]) {
        forall j | 0 <= j < |t| ensures RowsInOrder(dir, field, x, t[j]) {
          if j > 0 {
            InOrderTransitive(dir, SortKey(x, field), SortKey(t[0], field), SortKey(t[j], field));
          }
        }
        SortedCons(x, t, field, dir);
      } else {
        InOrderTotal(dir, SortKey(x, field), SortKey(t[0], field));
        assert Sorted(t[1..], field, dir) by {
          forall i, j | 0 <= i < j < |t[1..]| ensures RowsInOrder(dir, field, t[1..][i], t[1..][j]) {
            assert t[1..][i] == t[i + 1] && t[1..][j] == t[j + 1];
          }
        }
        InsertSorted(x, t[1..], field, dir);
        HeadBeforeInsert(x, t, field, dir);
        SortedCons(t[0], Insert(x, t[1..], field, dir), field, dir);
      }
    }
  }

  /** The sorted rows are in order by the column in the chosen direction. */
  lemma {:induction false} SortRowsSorted(rows: seq<Row>, field: string, dir: Direction)
    ensures Sorted(SortRows(rows, field, dir), field, dir)
    decreases |rows|
  {
    if rows != [] {
      SortRowsSorted(rows[1..], field, dir);
      InsertSorted(rows[0], SortRows(rows[1..], field, dir), field, dir);
    }
  }

  /** The rows whose key for `field` is `k`, in order. */
  function WithKey(rows: seq<Row>, field: string, k: string): seq<Row>
    decreases |rows|
  {
    if rows == [] then []
    else (if SortKey(rows[0], field) == k then [rows[0]] else []) + WithKey(rows[1..], field, k)
  }

  lemma WithKeyCons(y: Row, s: seq<Row>, field: string, k: string)
    ensures WithKey([y] + s, field, k) == (if SortKey(y, field) == k then [y] else []) + WithKey(s, field, k)
  {
    assert ([y] + s)[1..] == s;
  }

  /** A row that `x` may not precede keeps its place in front of `x`'s key group. */
  lemma PassOver(x: Row, y: Row, ys: seq<Row>, rest: seq<Row>, field: string, dir: Direction, k: string)
    requires !RowsInOrder(dir, field, x, y)
    requires WithKey(rest, field, k) == (if SortKey(x, field) == k then [x] else []) + WithKey(ys, field, k)
    ensures WithKey([y] + rest, field, k) == (if SortKey(x, field) == k then [x] else []) + WithKey([y] + ys, field, k)
  {
    WithKeyCons(y, rest, field, k);
    WithKeyCons(y, ys, field, k);
    if SortKey(x, field) == k {
      OutOfOrderKeysDiffer(dir, SortKey(x, field), SortKey(y, field));
      assert WithKey([y] + rest, field, k) == WithKey(rest, field, k);
      assert WithKey([y] + ys, field, k) == WithKey(ys, field, k);
    } else {
      var h := if SortKey(y, field) == k then [y] else [];
      assert WithKey(rest, field, k) == WithKey(ys, field, k);
      assert WithKey([y] + rest, field, k) == h + WithKey(ys, field, k);
    }
  }

  lemma {:induction false} InsertWithKey(x: Row, t: seq<Row>, field: string, dir: Direction, k: string)
    ensures WithKey(Insert(x, t, field, dir), field, k)
            == (if SortKey(x, field) == k then [x] else []) + WithKey(t, field, k)
    decreases |t|
  {
    if t == [] || RowsInOrder(dir, field, x, t[0]) {
      assert Insert(x, t, field, dir) == [x] + t;
      WithKeyCons(x, t, field, k);
    } else {
      var rest := Insert(x, t[1..], field, dir);
      assert Insert(x, t, field, dir) == [t[0]] + rest;
      InsertWithKey(x, t[1..], field, dir, k);
      assert t == [t[0]] + t[1..];
      PassOver(x, t[0], t[1..], rest, field, dir, k);
    }
  }

  /** Stability: for every key, the rows with that key appear in the sorted
      output in the same order as in the input. */
  lemma {:induction false} SortRowsStable(rows: seq<Row>, field: string, dir: Direction, k: string)
    ensures WithKey(SortRows(rows, field, dir), field, k) == WithKey(rows, field, k)
    decreases |rows|
  {
    if rows != [] {
      SortRowsStable(rows[1..], field, dir, k);
      InsertWithKey(rows[0], SortRows(rows[1..], field, dir), field, dir, k);
    }
  }

  /** With a tie, descending order is not ascending order reversed: both keep the tied rows in input order. */
  lemma DescendingIsNotReversedAscending()
    ensures var a: Row := map["id" := "1", "Status" := "pending"];
            var b: Row := map["id" := "2", "Status" := "pending"];
            SortRows([a, b], "Status", Asc) == [a, b]
            && SortRows([a, b], "Status", Desc) == [a, b]
            && SortRows([a, b], "Status", Desc) != [b, a]
  {
    var a: Row := map["id" := "1", "Status" := "pending"];
    var b: Row := map["id" := "2", "Status" := "pending"];
    StrLtIrreflexive("pending");
    assert [a, b][1..] == [b];
    assert SortRows([b], "Status", Asc) == [b];
    assert SortRows([b], "Status", Desc) == [b];
    assert a != b by { assert a["id"] != b["id"]; }
  }

  /** The memoised pipeline before paging: filter, then sort when a sort column is set. */
  function FilteredAndSorted(rows: seq<Row>, term: string, status: string, sortField: string, dir: Direction)
    : (r: seq<Row>)
    ensures sortField == "" ==> r == FilterRows(rows, term, status)
    ensures multiset(r) == multiset(FilterRows(rows, term, status))
    ensures sortField != "" ==> Sorted(r, sortField, dir)
    ensures sortField != "" ==> forall k :: WithKey(r, sortField, k) == WithKey(FilterRows(rows, term, status), sortField, k)
  {
    var filtered := FilterRows(rows, term, status);
    if sortField != "" then
      SortRowsSorted(filtered, sortField, dir);
      forall k ensures WithKey(SortRows(filtered, sortField, dir), sortField, k) == WithKey(filtered, sortField, k) {
        SortRowsStable(filtered, sortField, dir, k);
      }
      SortRows(filtered, sortField, dir)
    else filtered
  }

  // ---------------------------------------------------------------- paging

  /** How `Array.prototype.slice` resolves an index: negative counts from the end. */
  function SliceIndex(rel: int, len: nat): (r: nat)
    ensures r <= len
    ensures 0 <= rel <= len ==> r == rel
  {
    if rel < 0 then (if len + rel < 0 then 0 else len + rel) else if rel > len then len else rel
  }

  lemma SliceIndexSpread(b: int, e: int, len: nat)
    ensures b <= e && SliceIndex(b, len) < SliceIndex(e, len) ==> SliceIndex(e, len) - SliceIndex(b, len) <= e - b
  {
  }

  /** `s.slice(begin, end)`: in-range bounds give that infix; a range that is
      empty or reversed gives nothing; never more than `end - begin` elements. */
  function Slice<T>(s: seq<T>, begin: int, end: int): (r: seq<T>)
    ensures 0 <= begin <= end <= |s| ==> r == s[begin..end]
    ensures 0 <= end <= begin ==> r == []
    ensures begin <= end ==> |r| <= end - begin
  {
    SliceIndexSpread(begin, end, |s|);
    var from := SliceIndex(begin, |s|);
    var to := SliceIndex(end, |s|);
    if from < to then s[from..to] else []
  }

  /** The index of the first row of page `page`. */
  function PageStart(page: int, perPage: nat): (r: int)
    ensures page >= 1 ==> r >= 0
  {
    (page - 1) * perPage
  }

  /** The rows of page `page` (1-based). */
  function Paginate(rows: seq<Row>, page: int, perPage: nat): (r: seq<Row>)
    ensures |r| <= perPage
    ensures PageStart(page, perPage) >= 0 ==>
              r == if PageStart(page, perPage) >= |rows| then []
                   else rows[PageStart(page, perPage)..if PageStart(page, perPage) + perPage <= |rows| then PageStart(page, perPage) + perPage else |rows|]
  {
    var startIndex := PageStart(page, perPage);
    SliceIndexSpread(startIndex, startIndex + perPage, |rows|);
    Slice(rows, startIndex, startIndex + perPage)
  }

  /** `Math.ceil(count / perPage)`. */
  function TotalPages(count: nat, perPage: nat): (r: nat)
    requires perPage > 0
    ensures r * perPage >= count
    ensures r == 0 || (r - 1) * perPage < count
  {
    (count + perPage - 1) / perPage
  }

  /** A page past the last one is empty; filter changes never reset the page, so this can be shown. */
  lemma PageBeyondEndIsEmpty(rows: seq<Row>, page: int, perPage: nat)
    requires perPage > 0 && page > TotalPages(|rows|, perPage)
    ensures Paginate(rows, page, perPage) == []
  {
    var tp := TotalPages(|rows|, perPage);
    assert PageStart(page, perPage) >= tp * perPage by {
      assert page - 1 >= tp;
    }
  }

  /** Every page from 1 to the last holds min(perPage, what is left) rows, so none is empty. */
  lemma PageSizes(rows: seq<Row>, page: int, perPage: nat)
    requires perPage > 0 && 1 <= page <= TotalPages(|rows|, perPage)
    ensures var left := |rows| - (page - 1) * perPage;
            left > 0 && |Paginate(rows, page, perPage)| == if left < perPage then left else perPage
  {
    var tp := TotalPages(|rows|, perPage);
    assert PageStart(page, perPage) <= (tp - 1) * perPage by {
      assert page - 1 <= tp - 1;
    }
  }

  /** 25 rows at 10 per page: three pages of 10, 10 and 5 rows. */
  lemma TwentyFiveRows(rows: seq<Row>)
    requires |rows| == 25
    ensures TotalPages(|rows|, ItemsPerPage) == 3
    ensures |Paginate(rows, 1, ItemsPerPage)| == 10
    ensures |Paginate(rows, 2, ItemsPerPage)| == 10
    ensures |Paginate(rows, 3, ItemsPerPage)| == 5
    ensures Paginate(rows, 4, ItemsPerPage) == []
  {
    PageSizes(rows, 1, ItemsPerPage);
    PageSizes(rows, 2, ItemsPerPage);
    PageSizes(rows, 3, ItemsPerPage);
    PageBeyondEndIsEmpty(rows, 4, ItemsPerPage);
  }

  /** The Previous button: `max(1, p - 1)`. */
  function PreviousPage(page: int): (r: int)
    ensures r >= 1 && (page > 1 ==> r == page - 1) && (page <= 1 ==> r == 1)
  {
    if page - 1 > 1 then page - 1 else 1
  }

  /** The Next button: `min(totalPages, p + 1)`. */
  function NextPage(page: int, totalPages: int): (r: int)
    ensures r <= totalPages && (page < totalPages ==> r == page + 1) && (page >= totalPages ==> r == totalPages)
  {
    if totalPages < page + 1 then totalPages else page + 1
  }

  /** A page in [1, totalPages] stays there under Previous and Next. */
  lemma PageControlsStayInRange(page: int, totalPages: int)
    requires 1 <= page <= totalPages
    ensures 1 <= PreviousPage(page) <= totalPages
    ensures 1 <= NextPage(page, totalPages) <= totalPages
  {
  }

  /** The numbered buttons: pages 1 to min(5, totalPages). */
  function PageButtons(totalPages: nat): (r: seq<int>)
    ensures |r| == if totalPages < 5 then totalPages else 5
    ensures forall i :: 0 <= i < |r| ==> r[i] == i + 1 && 1 <= r[i] <= totalPages
  {
    var n := if totalPages < 5 then totalPages else 5;
    seq(n, i requires 0 <= i < n => i + 1)
  }

  /** The page controls are drawn only when there is more than one page. */
  predicate ShowsPagination(totalPages: nat) {
    totalPages > 1
  }

  // ---------------------------------------------------------- status badge

  /** `status.charAt(0).toUpperCase() + status.slice(1)`. */
  function StatusBadgeText(status: string): (r: string)
    ensures |r| == |status|
    ensures status != "" ==> r[0] == UpperChar(status[0]) && r[1..] == status[1..]
  {
    if status == "" then "" else [UpperChar(status[0])] + status[1..]
  }

  lemma BadgeTexts()
    ensures StatusBadgeText("pending") == "Pending"
    ensures StatusBadgeText("approved") == "Approved"
    ensures StatusBadgeText("rejected") == "Rejected"
  {
    assert UpperChar('p') == 'P' && "pending"[1..] == "ending" && ['P'] + "ending" == "Pending";
    assert UpperChar('a') == 'A' && "approved"[1..] == "pproved" && ['A'] + "pproved" == "Approved";
    assert UpperChar('r') == 'R' && "rejected"[1..] == "ejected" && ['R'] + "ejected" == "Rejected";
  }

  // ----------------------------------------------------------- table state

  /** The column the header click selects, and its direction: the same column
      flips the direction, another column starts ascending. */
  function SortAfterClick(sortField: string, dir: Direction, clicked: string): (r: (string, Direction))
    ensures r.0 == clicked
    ensures clicked == sortField ==> r.1 != dir
    ensures clicked != sortField ==> r.1 == Asc
  {
    if sortField == clicked then (sortField, if dir == Asc then Desc else Asc) else (clicked, Asc)
  }

  /** Two clicks on the current sort column restore the direction; a new
      column clicked twice ends descending. */
  lemma SortClickedTwice(sortField: string, dir: Direction, clicked: string)
    ensures var once := SortAfterClick(sortField, dir, clicked);
            var twice := SortAfterClick(once.0, once.1, clicked);
            twice.0 == clicked && twice.1 == (if clicked == sortField then dir else Desc)
  {
  }

  class TableState {
    var searchTerm: string
    var sortField: string
    var sortDirection: Direction
    var statusFilter: string
    var showColumnSelector: bool
    var currentPage: int
    var columnConfigs: seq<ColumnConfig>

    constructor ()
      ensures searchTerm == "" && sortField == "" && sortDirection == Asc && statusFilter == ""
      ensures !showColumnSelector && currentPage == 1 && columnConfigs == []
    {
      searchTerm, sortField, sortDirection, statusFilter := "", "", Asc, "";
      showColumnSelector, currentPage, columnConfigs := false, 1, [];
    }

    /** The rows the table shows, before paging. */
    function Shown(rows: seq<Row>): seq<Row>
      reads this
    {
      FilteredAndSorted(rows, searchTerm, statusFilter, sortField, sortDirection)
    }

    /** The rows of the current page: from the page's first index, at most
        `itemsPerPage` of the shown rows, clipped at their end. */
    function CurrentRows(rows: seq<Row>): (r: seq<Row>)
      reads this
      ensures |r| <= ItemsPerPage
      ensures currentPage > TotalPages(|Shown(rows)|, ItemsPerPage) ==> r == []
      ensures 1 <= currentPage <= TotalPages(|Shown(rows)|, ItemsPerPage) ==>
                var start := PageStart(currentPage, ItemsPerPage);
                var shown := Shown(rows);
                start < |shown| &&
                r == shown[start..if start + ItemsPerPage <= |shown| then start + ItemsPerPage else |shown|]
    {
      var shown := Shown(rows);
      if currentPage > TotalPages(|shown|, ItemsPerPage) then
        PageBeyondEndIsEmpty(shown, currentPage, ItemsPerPage);
        Paginate(shown, currentPage, ItemsPerPage)
      else if currentPage >= 1 then
        PageSizes(shown, currentPage, ItemsPerPage);
        Paginate(shown, currentPage, ItemsPerPage)
      else Paginate(shown, currentPage, ItemsPerPage)
    }

    /** The configuration effect: configurations are built only when the
        column list has arrived and none exist yet. */
    method InitColumnConfigs(columns: Option<seq<string>>)
      modifies this
      ensures columnConfigs == if columns.Some? && |old(columnConfigs)| == 0 then InitialConfigs(columns.value)
                               else old(columnConfigs)
      ensures searchTerm == old(searchTerm) && sortField == old(sortField) && sortDirection == old(sortDirection)
      ensures statusFilter == old(statusFilter) && currentPage == old(currentPage)
      ensures showColumnSelector == old(showColumnSelector)
    {
      if columns.Some? && |columnConfigs| == 0 {
        columnConfigs := InitialConfigs(columns.value);
      }
    }

    /** `handleSort`. */
    method HandleSort(field: string)
      modifies this
      ensures (sortField, sortDirection) == SortAfterClick(old(sortField), old(sortDirection), field)
      ensures searchTerm == old(searchTerm) && statusFilter == old(statusFilter) && currentPage == old(currentPage)
      ensures columnConfigs == old(columnConfigs) && showColumnSelector == old(showColumnSelector)
    {
      if sortField == field {
        sortDirection := if sortDirection == Asc then Desc else Asc;
      } else {
        sortField := field;
        sortDirection := Asc;
      }
    }

    /** A header click sorts only by a sortable column. */
    method ClickHeader(col: ColumnConfig)
      modifies this
      ensures col.sortable ==> (sortField, sortDirection) == SortAfterClick(old(sortField), old(sortDirection), col.key)
      ensures !col.sortable ==> sortField == old(sortField) && sortDirection == old(sortDirection)
      ensures searchTerm == old(searchTerm) && statusFilter == old(statusFilter) && currentPage == old(currentPage)
      ensures columnConfigs == old(columnConfigs) && showColumnSelector == old(showColumnSelector)
    {
      if col.sortable {
        HandleSort(col.key);
      }
    }

    method ToggleColumnVisibility(key: string)
      modifies this
      ensures columnConfigs == ToggleVisibility(old(columnConfigs), key)
      ensures searchTerm == old(searchTerm) && sortField == old(sortField) && sortDirection == old(sortDirection)
      ensures statusFilter == old(statusFilter) && currentPage == old(currentPage)
      ensures showColumnSelector == old(showColumnSelector)
    {
      columnConfigs := ToggleVisibility(columnConfigs, key);
    }

    /** Typing in the search box; the page is not reset. */
    method SetSearchTerm(term: string)
      modifies this
      ensures searchTerm == term
      ensures sortField == old(sortField) && sortDirection == old(sortDirection) && statusFilter == old(statusFilter)
      ensures currentPage == old(currentPage) && columnConfigs == old(columnConfigs)
      ensures showColumnSelector == old(showColumnSelector)
    {
      searchTerm := term;
    }

    /** Choosing a status filter; the page is not reset. */
    method SetStatusFilter(status: string)
      modifies this
      ensures statusFilter == status
      ensures searchTerm == old(searchTerm) && sortField == old(sortField) && sortDirection == old(sortDirection)
      ensures currentPage == old(currentPage) && columnConfigs == old(columnConfigs)
      ensures showColumnSelector == old(showColumnSelector)
    {
      statusFilter := status;
    }

    method ToggleColumnSelector()
      modifies this
      ensures showColumnSelector == !old(showColumnSelector)
      ensures searchTerm == old(searchTerm) && sortField == old(sortField) && sortDirection == old(sortDirection)
      ensures statusFilter == old(statusFilter) && currentPage == old(currentPage) && columnConfigs == old(columnConfigs)
    {
      showColumnSelector := !showColumnSelector;
    }

    /** The Previous button, drawn only when the shown rows span several pages. */
    method ClickPrevious(rows: seq<Row>)
      requires ShowsPagination(TotalPages(|Shown(rows)|, ItemsPerPage))
      modifies this
      ensures currentPage == PreviousPage(old(currentPage))
      ensures searchTerm == old(searchTerm) && sortField == old(sortField) && sortDirection == old(sortDirection)
      ensures statusFilter == old(statusFilter) && columnConfigs == old(columnConfigs)
      ensures showColumnSelector == old(showColumnSelector)
    {
      currentPage := if currentPage - 1 > 1 then currentPage - 1 else 1;
    }

    /** The Next button, drawn only when the shown rows span several pages. */
    method ClickNext(rows: seq<Row>)
      requires ShowsPagination(TotalPages(|Shown(rows)|, ItemsPerPage))
      modifies this
      ensures currentPage == NextPage(old(currentPage), TotalPages(|Shown(rows)|, ItemsPerPage))
      ensures searchTerm == old(searchTerm) && sortField == old(sortField) && sortDirection == old(sortDirection)
      ensures statusFilter == old(statusFilter) && columnConfigs == old(columnConfigs)
      ensures showColumnSelector == old(showColumnSelector)
    {
      var totalPages := TotalPages(|Shown(rows)|, ItemsPerPage);
      currentPage := if totalPages < currentPage + 1 then totalPages else currentPage + 1;
    }

    /** A numbered page button, one of those drawn for the shown rows. */
    method ClickPage(rows: seq<Row>, page: int)
      requires ShowsPagination(TotalPages(|Shown(rows)|, ItemsPerPage))
      requires page in PageButtons(TotalPages(|Shown(rows)|, ItemsPerPage))
      modifies this
      ensures currentPage == page
      ensures searchTerm == old(searchTerm) && sortField == old(sortField) && sortDirection == old(sortDirection)
      ensures statusFilter == old(statusFilter) && columnConfigs == old(columnConfigs)
      ensures showColumnSelector == old(showColumnSelector)
    {
      currentPage := page;
    }
  }
}
