/** Segment ranking and audit-log paging of the platform dashboard (backend/app/admin/query_service.py). */
module Ranking {
  import opened Common
  import Trend

  // ---- `_rank_segments` ----

  datatype Item = Item(tag: string, count: int)

  /** The share is in ten-thousandths. */
  datatype Segment = Segment(item: Item, share: int, rank: nat)

  predicate LexBefore(a: string, b: string) {
    b != [] && (a == [] || a[0] < b[0] || (a[0] == b[0] && LexBefore(a[1..], b[1..])))
  }

  lemma {:induction false} LexTotal(a: string, b: string)
    ensures LexBefore(a, b) || LexBefore(b, a) || a == b
    ensures !(LexBefore(a, b) && LexBefore(b, a))
    ensures a == b ==> !LexBefore(a, b)
  {
    if a != [] && b != [] && a[0] == b[0] {
      LexTotal(a[1..], b[1..]);
      assert a == [a[0]] + a[1..] && b == [b[0]] + b[1..];
    }
  }

  lemma {:induction false} LexTransitive(a: string, b: string, c: string)
    requires LexBefore(a, b) && LexBefore(b, c)
    ensures LexBefore(a, c)
  {
    if a != [] && a[0] == b[0] && b[0] == c[0] {
      LexTransitive(a[1..], b[1..], c[1..]);
    }
  }

  /** The sort key: larger counts first, then the tag. */
  predicate Before(x: Item, y: Item) { x.count > y.count || (x.count == y.count && LexBefore(x.tag, y.tag)) }

  lemma BeforeTotal(x: Item, y: Item)
    ensures Before(x, y) || Before(y, x) || x == y
    ensures !(Before(x, y) && Before(y, x))
  {
    LexTotal(x.tag, y.tag);
  }

  lemma BeforeTransitive(x: Item, y: Item, z: Item)
    requires Before(x, y) && Before(y, z)
    ensures Before(x, z)
  {
    if x.count == y.count == z.count {
      LexTransitive(x.tag, y.tag, z.tag);
    }
  }

  function Insert(sorted: seq<Item>, x: Item): (r: seq<Item>)
    ensures multiset(r) == multiset(sorted) + multiset{x}
  {
    if sorted == [] then [x]
    else if Before(x, sorted[0]) then [x] + sorted
    else
      assert sorted == [sorted[0]] + sorted[1..];
      [sorted[0]] + Insert(sorted[1..], x)
  }

  /** The items of the dictionary in the order of the key. */
  function Sort(items: seq<Item>): (r: seq<Item>)
    ensures multiset(r) == multiset(items) && |r| == |items|
  {
    if items == [] then []
    else
      assert items == items[..|items| - 1] + [items[|items| - 1]];
      var r := Insert(Sort(items[..|items| - 1]), items[|items| - 1]);
      assert |multiset(r)| == |multiset(items)|;
      r
  }

  predicate Ranked(items: seq<Item>) { forall i, j :: 0 <= i < j < |items| ==> Before(items[i], items[j]) }

  /** The labels of a dictionary are distinct. */
  predicate Distinct(items: seq<Item>) { forall i, j :: 0 <= i < j < |items| ==> items[i].tag != items[j].tag }

  lemma {:induction false} InsertRanked(sorted: seq<Item>, x: Item)
    requires Ranked(sorted) && forall i :: 0 <= i < |sorted| ==> sorted[i] != x
    ensures Ranked(Insert(sorted, x))
  {
    if sorted == [] {
    } else if Before(x, sorted[0]) {
      forall j | 0 < j < |sorted| ensures Before(x, sorted[j]) {
        BeforeTransitive(x, sorted[0], sorted[j]);
      }
    } else {
      var rest := sorted[1..];
      InsertRanked(rest, x);
      BeforeTotal(x, sorted[0]);
      var r := Insert(rest, x);
      forall j | 0 <= j < |r| ensures Before(sorted[0], r[j]) {
        assert r[j] in multiset(r);
        if r[j] != x {
          assert r[j] in multiset(rest);
          var k :| 0 <= k < |rest| && rest[k] == r[j];
          assert rest[k] == sorted[k + 1];
        }
      }
    }
  }

  lemma {:induction false} SortRanked(items: seq<Item>)
    requires Distinct(items)
    ensures Ranked(Sort(items))
  {
    if items != [] {
      var rest, x := items[..|items| - 1], items[|items| - 1];
      SortRanked(rest);
      var sorted := Sort(rest);
      forall i | 0 <= i < |sorted| ensures sorted[i] != x {
        assert sorted[i] in multiset(rest);
        var k :| 0 <= k < |rest| && rest[k] == sorted[i];
        assert rest[k] == items[k];
      }
      InsertRanked(sorted, x);
    }
  }

  /** There is only one way to rank a set of items, so the order of the dictionary does not matter. */
  lemma {:induction false} RankingUnique(a: seq<Item>, b: seq<Item>)
    requires Ranked(a) && Ranked(b) && multiset(a) == multiset(b)
    ensures a == b
  {
    if a == [] {
      assert |multiset(b)| == 0;
    } else {
      SameHead(a, b);
      assert a == [a[0]] + a[1..] && b == [b[0]] + b[1..];
      SameTails(a, b);
      RankingUnique(a[1..], b[1..]);
    }
  }

  lemma SameTails(a: seq<Item>, b: seq<Item>)
    requires a != [] && b != [] && a[0] == b[0] && multiset(a) == multiset(b)
    ensures multiset(a[1..]) == multiset(b[1..])
  {
    assert a == [a[0]] + a[1..] && b == [b[0]] + b[1..];
    assert multiset(a[1..]) == multiset(a) - multiset{a[0]} == multiset(b[1..]);
  }

  lemma SameHead(a: seq<Item>, b: seq<Item>)
    requires Ranked(a) && Ranked(b) && multiset(a) == multiset(b) && a != []
    ensures b != [] && a[0] == b[0]
  {
    assert a[0] in multiset(b);
    assert b[0] in multiset(a);
    HeadFirst(a, b[0]);
    HeadFirst(b, a[0]);
    BeforeTotal(a[0], b[0]);
  }

  lemma HeadFirst(a: seq<Item>, x: Item)
    requires a != [] && Ranked(a) && x in multiset(a)
    ensures x == a[0] || Before(a[0], x)
  {
    var k :| 0 <= k < |a| && a[k] == x;
  }

  function Share(count: int, total: int): int {
    if total > 0 then Trend.RoundHalfEven(count * 10_000, total) else 0
  }

  method RankSegments(items: seq<Item>, total: int, limit: nat) returns (out: seq<Segment>)
    ensures |out| == Min(limit, |items|)
    ensures forall i :: 0 <= i < |out| ==> out[i] == Segment(Sort(items)[i], Share(Sort(items)[i].count, total), i + 1)
  {
    var sorted := Sort(items);
    var n := Min(limit, |items|);
    out := [];
    for i := 0 to n
      invariant |out| == i
      invariant forall k :: 0 <= k < i ==> out[k] == Segment(sorted[k], Share(sorted[k].count, total), k + 1)
    {
      out := out + [Segment(sorted[i], Share(sorted[i].count, total), i + 1)];
    }
  }

  /** Down the list counts never grow, and labels of equal counts are in alphabetical order. */
  lemma CountsNeverGrow(items: seq<Item>, i: nat, j: nat)
    requires Distinct(items) && i < j < |Sort(items)|
    ensures Sort(items)[i].count >= Sort(items)[j].count
    ensures Sort(items)[i].count == Sort(items)[j].count ==> Alphabetical(Sort(items)[i].tag, Sort(items)[j].tag)
  {
    SortRanked(items);
    assert Before(Sort(items)[i], Sort(items)[j]);
    if Sort(items)[i].count == Sort(items)[j].count {
      LexIsAlphabetical(Sort(items)[i].tag, Sort(items)[j].tag);
    }
  }

  /** The first position at which the texts differ decides; a proper prefix comes first. */
  ghost predicate Alphabetical(a: string, b: string) {
    exists n: nat :: n <= |a| && n < |b| && a[..n] == b[..n] && (n == |a| || a[n] < b[n])
  }

  lemma {:induction false} LexIsAlphabetical(a: string, b: string)
    requires LexBefore(a, b)
    ensures Alphabetical(a, b)
  {
    if a == [] || a[0] < b[0] {
      assert a[..0] == b[..0];
    } else {
      LexIsAlphabetical(a[1..], b[1..]);
      var n: nat :| n <= |a[1..]| && n < |b[1..]| && a[1..][..n] == b[1..][..n] && (n == |a[1..]| || a[1..][n] < b[1..][n]);
      assert a[..n + 1] == [a[0]] + a[1..][..n] && b[..n + 1] == [b[0]] + b[1..][..n];
      assert n + 1 <= |a| && n + 1 < |b| && (n + 1 == |a| || a[n + 1] < b[n + 1]);
    }
  }

  /** A share is the count's part of the total to the nearest ten-thousandth, and never more than all of it. */
  lemma ShareMeans(count: nat, total: int)
    ensures total <= 0 ==> Share(count, total) == 0
    ensures total > 0 ==> -total <= 2 * (Share(count, total) * total - count * 10_000) <= total
    ensures total > 0 && count <= total ==> 0 <= Share(count, total) <= 10_000
  {
    if total > 0 {
      Trend.RoundWhole(0, total);
      Trend.RoundWhole(10_000, total);
      Trend.RoundMonotone(0, count * 10_000, total);
      if count <= total {
        Trend.RoundMonotone(count * 10_000, 10_000 * total, total);
      }
    }
  }

  /** The listed segments are the top ones: an item is left out exactly when it is not among the first
      `limit`, and every listed item comes before it. */
  lemma TopSegments(items: seq<Item>, limit: nat, x: Item)
    requires Distinct(items) && x in items
    ensures var top := Sort(items)[..Min(limit, |items|)];
            x !in top ==> |top| == limit && forall y :: y in top ==> Before(y, x)
  {
    SortRanked(items);
    var sorted := Sort(items);
    assert x in multiset(sorted);
    var k :| 0 <= k < |sorted| && sorted[k] == x;
    var top := sorted[..Min(limit, |items|)];
    if k < |top| {
      assert top[k] == x;
    }
  }

  /** The same counts in any dictionary order give the same ranking. */
  lemma OrderDoesNotMatter(items: seq<Item>, items': seq<Item>)
    requires Distinct(items) && Distinct(items') && multiset(items) == multiset(items')
    ensures Sort(items) == Sort(items')
  {
    SortRanked(items);
    SortRanked(items');
    RankingUnique(Sort(items), Sort(items'));
  }

  // ---- `list_audit_logs` ----

  datatype AuditRow = AuditRow(id: Id, feature: string, role: string)

  datatype AuditPage = AuditPage(items: seq<AuditRow>, page: int, pageSize: int, total: nat, hasNext: bool, hasPrevious: bool)

  predicate Selected(r: AuditRow, feature: Option<string>, role: Option<string>) {
    (feature.Some? ==> r.feature == feature.value) && (role.Some? ==> r.role == role.value)
  }

  function Selection(rows: seq<AuditRow>, feature: Option<string>, role: Option<string>): seq<AuditRow> {
    if rows == [] then []
    else
      var kept, last := Selection(rows[..|rows| - 1], feature, role), rows[|rows| - 1];
      if Selected(last, feature, role) then kept + [last] else kept
  }

  /** The selection keeps each row of the feature area and role asked for, as often as it is there, and in
      order: selecting from a table's parts, one after the other, selects from the table. */
  lemma {:induction false} SelectionKeeps(rows: seq<AuditRow>, feature: Option<string>, role: Option<string>, r: AuditRow)
    ensures multiset(Selection(rows, feature, role))[r]
            == if (feature.None? || r.feature == feature.value) && (role.None? || r.role == role.value) then multiset(rows)[r] else 0
  {
    if rows != [] {
      SelectionKeeps(rows[..|rows| - 1], feature, role, r);
      assert rows == rows[..|rows| - 1] + [rows[|rows| - 1]];
    }
  }

  lemma {:induction false} SelectionInOrder(a: seq<AuditRow>, b: seq<AuditRow>, feature: Option<string>, role: Option<string>)
    ensures Selection(a + b, feature, role) == Selection(a, feature, role) + Selection(b, feature, role)
  {
    if b == [] {
      assert a + b == a;
    } else {
      SelectionInOrder(a, b[..|b| - 1], feature, role);
      assert (a + b)[..|a + b| - 1] == a + b[..|b| - 1];
    }
  }

  /** Rows [start, start + size) as far as they exist. */
  function Slice<T>(s: seq<T>, start: nat, size: nat): seq<T> { s[Min(start, |s|)..Min(start + size, |s|)] }

  function PageOf(items: seq<AuditRow>, page: int, size: int): AuditPage
    requires page >= 1 && size >= 1
  {
    AuditPage(Slice(items, (page - 1) * size, size), page, size, |items|, page * size < |items|, page > 1)
  }

  /** The rows come from the statement that applies the date and result clauses, newest first. */
  method ListAuditLogs(rows: seq<AuditRow>, page: int, pageSize: int, maxPageSize: int,
        feature: Option<string>, role: Option<string>)
    returns (r: AuditPage)
    ensures r == PageOf(Selection(rows, feature, role), Max(1, page), Max(1, Min(pageSize, maxPageSize)))
    ensures r.total == |Selection(rows, feature, role)| && (r.hasPrevious <==> page > 1)
    ensures r.page == (if page < 1 then 1 else page) && 1 <= r.pageSize && (maxPageSize >= 1 ==> r.pageSize <= maxPageSize)
  {
    var p, size := Max(1, page), Max(1, Min(pageSize, maxPageSize));
    var filtered: seq<AuditRow> := [];
    for i := 0 to |rows|
      invariant filtered == Selection(rows[..i], feature, role)
    {
      assert rows[..i + 1][..i] == rows[..i];
      if (feature.None? || rows[i].feature == feature.value) && (role.None? || rows[i].role == role.value) {
        filtered := filtered + [rows[i]];
      }
    }
    assert rows[..|rows|] == rows;
    var start := (p - 1) * size;
    r := AuditPage(Slice(filtered, start, size), p, size, |filtered|, p * size < |filtered|, p > 1);
  }

  /** Pages 1 to n, one after the other. */
  function FirstPages(items: seq<AuditRow>, n: nat, size: int): seq<AuditRow>
    requires size >= 1
  {
    if n == 0 then [] else FirstPages(items, n - 1, size) + PageOf(items, n, size).items
  }

  lemma {:induction false} FirstPagesArePrefix(items: seq<AuditRow>, n: nat, size: int)
    requires size >= 1
    ensures FirstPages(items, n, size) == items[..Min(n * size, |items|)]
  {
    if n > 0 {
      FirstPagesArePrefix(items, n - 1, size);
      assert (n - 1) * size + size == n * size;
    }
  }

  /** Following has_next from page 1, the pages hold every selected row once and in order by the time
      has_next is false, and not before. */
  lemma PagesCover(items: seq<AuditRow>, n: nat, size: int)
    requires n >= 1 && size >= 1
    ensures !PageOf(items, n, size).hasNext <==> FirstPages(items, n, size) == items
  {
    FirstPagesArePrefix(items, n, size);
    assert items[..|items|] == items;
  }
}
