/** Keyset pagination of the public listing search (backend/app/listings/query_service.py and the cursor
    branch of backend/app/listings/router.py). */
module Keyset {
  import opened Common

  /** A listing row as the search sees it; prices and areas are exact decimals and may be null. */
  datatype Row = Row(id: Id, createdAt: int, price: Option<real>, area: Option<real>, matches: bool)

  datatype Sort = Newest | Oldest | PriceAsc | PriceDesc | AreaAsc | AreaDesc

  // ---- ORDER BY, read as a lexicographic order on its keys ----

  datatype Key = CreatedAt | Price | Area

  datatype Dir = Asc | Desc

  function SortKey(s: Sort): Key {
    match s
    case Newest => CreatedAt case Oldest => CreatedAt
    case PriceAsc => Price case PriceDesc => Price
    case AreaAsc => Area case AreaDesc => Area
  }

  function SortDir(s: Sort): Dir {
    match s
    case Newest => Desc case Oldest => Asc
    case PriceAsc => Asc case PriceDesc => Desc
    case AreaAsc => Asc case AreaDesc => Desc
  }

  /** The direction of the id that breaks ties. */
  function TieDir(s: Sort): Dir { if s.Oldest? then Asc else Desc }

  function Column(k: Key, r: Row): Option<real> {
    match k
    case CreatedAt => Some(r.createdAt as real)
    case Price => r.price
    case Area => r.area
  }

  predicate Precedes(d: Dir, a: real, b: real) { if d.Asc? then a < b else a > b }

  /** Strictly before on one column, nulls last. */
  predicate ColumnBefore(d: Dir, a: Option<real>, b: Option<real>) {
    a.Some? && (b.None? || Precedes(d, a.value, b.value))
  }

  /** Strictly before in the ORDER BY of the sort. */
  predicate Before(s: Sort, x: Row, y: Row) {
    var a, b := Column(SortKey(s), x), Column(SortKey(s), y);
    ColumnBefore(SortDir(s), a, b) || (a == b && Precedes(TieDir(s), x.id as real, y.id as real))
  }

  /** The six orders, sort by sort: newest first, oldest first, cheapest first, dearest first, smallest first,
      largest first; rows without the value last; ties by id, downwards except for the oldest. */
  lemma OrdersMean(x: Row, y: Row)
    ensures Before(Newest, x, y) <==> x.createdAt > y.createdAt || (x.createdAt == y.createdAt && x.id > y.id)
    ensures Before(Oldest, x, y) <==> x.createdAt < y.createdAt || (x.createdAt == y.createdAt && x.id < y.id)
    ensures Before(PriceAsc, x, y) <==>
              (x.price.Some? && (y.price.None? || x.price.value < y.price.value)) || (x.price == y.price && x.id > y.id)
    ensures Before(PriceDesc, x, y) <==>
              (x.price.Some? && (y.price.None? || x.price.value > y.price.value)) || (x.price == y.price && x.id > y.id)
    ensures Before(AreaAsc, x, y) <==>
              (x.area.Some? && (y.area.None? || x.area.value < y.area.value)) || (x.area == y.area && x.id > y.id)
    ensures Before(AreaDesc, x, y) <==>
              (x.area.Some? && (y.area.None? || x.area.value > y.area.value)) || (x.area == y.area && x.id > y.id)
  {
  }

  /** On rows with distinct ids the ORDER BY is a strict total order. */
  lemma BeforeIsStrictTotal(s: Sort, x: Row, y: Row, z: Row)
    ensures !Before(s, x, x)
    ensures Before(s, x, y) ==> !Before(s, y, x)
    ensures Before(s, x, y) && Before(s, y, z) ==> Before(s, x, z)
    ensures x.id != y.id ==> Before(s, x, y) || Before(s, y, x)
  {
  }

  // ---- The WHERE clause, in SQL's three-valued logic ----

  datatype Truth = True | False | Unknown

  function TruthOf(b: bool): Truth { if b then True else False }

  function And(p: Truth, q: Truth): Truth {
    if p.False? || q.False? then False else if p.True? && q.True? then True else Unknown
  }

  function Or(p: Truth, q: Truth): Truth {
    if p.True? || q.True? then True else if p.False? && q.False? then False else Unknown
  }

  /** A comparison with a null operand is unknown. */
  function Compare(a: Option<real>, b: Option<real>, holds: (real, real) -> bool): Truth {
    if a.None? || b.None? then Unknown else TruthOf(holds(a.value, b.value))
  }

  function Less(a: Option<real>, b: Option<real>): Truth { Compare(a, b, (p, q) => p < q) }

  function Equal(a: Option<real>, b: Option<real>): Truth { Compare(a, b, (p, q) => p == q) }

  function IsNull(a: Option<real>): Truth { TruthOf(a.None?) }

  function IsNotNull(a: Option<real>): Truth { TruthOf(a.Some?) }

  /** The fields `make_cursor_from_item` puts into the cursor. */
  datatype Cursor = Cursor(createdAt: Option<int>, price: Option<real>, area: Option<real>, id: Id)

  function MakeCursor(s: Sort, r: Row): Cursor {
    match SortKey(s)
    case CreatedAt => Cursor(Some(r.createdAt), None, None, r.id)
    case Price => Cursor(None, r.price, None, r.id)
    case Area => Cursor(None, None, r.area, r.id)
  }

  /** The condition `apply_public_search_cursor` adds for a row; True when it adds none. */
  function CursorWhere(s: Sort, c: Cursor, r: Row): Truth {
    var id, ci := Some(r.id as real), Some(c.id as real);
    match s
    case Newest =>
      if c.createdAt.None? then True
      else
        var at, ca := Some(r.createdAt as real), Some(c.createdAt.value as real);
        Or(Less(at, ca), And(Equal(at, ca), Less(id, ci)))
    case Oldest =>
      if c.createdAt.None? then True
      else
        var at, ca := Some(r.createdAt as real), Some(c.createdAt.value as real);
        Or(Less(ca, at), And(Equal(at, ca), Less(ci, id)))
    case _ =>
      var onPrice := s.PriceAsc? || s.PriceDesc?;
      var col := if onPrice then r.price else r.area;
      var cv := if onPrice then c.price else c.area;
      if cv.Some? then
        var past := if s.PriceDesc? || s.AreaDesc? then Less(col, cv) else Less(cv, col);
        Or(And(IsNotNull(col), past), Or(And(Equal(col, cv), Less(id, ci)), IsNull(col)))
      else And(IsNull(col), Less(id, ci))
  }

  /** The WHERE clause keeps a row exactly when it comes strictly after the cursor's row. */
  lemma CursorEqualsOrder(s: Sort, x: Row, y: Row)
    ensures CursorWhere(s, MakeCursor(s, x), y) == True <==> Before(s, x, y)
  {
  }

  // ---- One page ----

  /** A table state: rows with distinct ids. */
  ghost predicate Table(t: set<Row>) {
    forall x, y :: x in t && y in t && x.id == y.id ==> x == y
  }

  /** The rows the query of a page selects. */
  function Selected(t: set<Row>, s: Sort, c: Cursor): set<Row> {
    set r | r in t && r.matches && CursorWhere(s, c, r) == True
  }

  /** The rows that come after `x` in the order. */
  function After(t: set<Row>, s: Sort, x: Row): set<Row> {
    set r | r in t && r.matches && Before(s, x, r)
  }

  ghost predicate IsFirst(rows: set<Row>, s: Sort, m: Row) {
    m in rows && forall r :: r in rows && r != m ==> Before(s, m, r)
  }

  lemma FirstExists(rows: set<Row>, s: Sort) returns (m: Row)
    requires rows != {} && Table(rows)
    ensures IsFirst(rows, s, m)
  {
    m :| m in rows;
    if rows != {m} {
      var k := FirstExists(rows - {m}, s);
      BeforeIsStrictTotal(s, m, k, k);
      if Before(s, k, m) {
        m := k;
      } else {
        forall r | r in rows && r != m ensures Before(s, m, r) {
          BeforeIsStrictTotal(s, m, k, r);
        }
      }
    }
  }

  lemma HasFirst(rows: set<Row>, s: Sort)
    requires rows != {} && Table(rows)
    ensures exists m :: IsFirst(rows, s, m)
  {
    var m := FirstExists(rows, s);
  }

  /** `ORDER BY ... LIMIT n`: the first n rows in order. */
  ghost function Limit(rows: set<Row>, s: Sort, n: nat): (items: seq<Row>)
    requires Table(rows)
    decreases n
  {
    if n == 0 || rows == {} then []
    else
      HasFirst(rows, s);
      var m :| IsFirst(rows, s, m);
      [m] + Limit(rows - {m}, s, n - 1)
  }

  ghost predicate Sorted(s: Sort, items: seq<Row>) {
    forall i, j :: 0 <= i < j < |items| ==> Before(s, items[i], items[j])
  }

  function Elements(items: seq<Row>): set<Row> { set r | r in items }

  /** Everything left out comes after the last item. */
  ghost predicate RestAfter(rows: set<Row>, s: Sort, items: seq<Row>) {
    items != [] ==> forall r :: r in rows - Elements(items) ==> Before(s, items[|items| - 1], r)
  }

  /** A limited result is sorted, belongs to the rows, has the right size, and what it leaves out comes
      after everything it contains. */
  ghost predicate IsLimited(rows: set<Row>, s: Sort, n: nat, items: seq<Row>) {
    Sorted(s, items) && Elements(items) <= rows && |items| == Min(n, |rows|) && RestAfter(rows, s, items)
    && (|rows| <= n ==> Elements(items) == rows)
  }

  lemma LimitStep(rows: set<Row>, s: Sort, n: nat) returns (m: Row)
    requires Table(rows) && n != 0 && rows != {}
    ensures IsFirst(rows, s, m) && Limit(rows, s, n) == [m] + Limit(rows - {m}, s, n - 1)
  {
    HasFirst(rows, s);
    m :| IsFirst(rows, s, m) && Limit(rows, s, n) == [m] + Limit(rows - {m}, s, n - 1);
  }

  lemma {:induction false} LimitFacts(rows: set<Row>, s: Sort, n: nat)
    requires Table(rows)
    ensures IsLimited(rows, s, n, Limit(rows, s, n))
    decreases n
  {
    if n == 0 || rows == {} {
      assert Elements([]) == {};
    } else {
      var m := LimitStep(rows, s, n);
      LimitFacts(rows - {m}, s, n - 1);
      FirstThenRest(rows, s, n, m, Limit(rows - {m}, s, n - 1));
    }
  }

  lemma FirstThenRest(rows: set<Row>, s: Sort, n: nat, m: Row, rest: seq<Row>)
    requires n > 0 && IsFirst(rows, s, m) && IsLimited(rows - {m}, s, n - 1, rest)
    ensures IsLimited(rows, s, n, [m] + rest)
  {
    var items := [m] + rest;
    assert Elements(items) == {m} + Elements(rest);
    assert rows - Elements(items) == rows - {m} - Elements(rest);
    assert Sorted(s, items) by { FirstSorted(rows, s, m, rest); }
    assert RestAfter(rows, s, items) by {
      assert rest != [] ==> items[|items| - 1] == rest[|rest| - 1];
    }
  }

  lemma FirstSorted(rows: set<Row>, s: Sort, m: Row, rest: seq<Row>)
    requires IsFirst(rows, s, m) && Sorted(s, rest) && Elements(rest) <= rows - {m}
    ensures Sorted(s, [m] + rest)
  {
    forall i | 0 <= i < |rest| ensures Before(s, m, rest[i]) {
      assert rest[i] in Elements(rest);
    }
  }

  /** Cutting the extra row off keeps the first `size` rows. */
  lemma CutFacts(rows: set<Row>, s: Sort, size: nat, fetched: seq<Row>)
    requires size > 0 && IsLimited(rows, s, size + 1, fetched) && |fetched| > size
    ensures var items := fetched[..size];
            && Sorted(s, items)
            && (forall r :: r in items ==> r in rows)
            && (forall r :: r in rows && r !in items ==> Before(s, items[size - 1], r))
  {
    var items, last := fetched[..size], fetched[size];
    assert fetched == items + [last];
    forall r | r in items ensures r in rows {
      assert r in Elements(fetched);
    }
    forall r | r in rows && r !in items ensures Before(s, items[size - 1], r) {
      if r != last {
        assert r in rows - Elements(fetched);
        BeforeIsStrictTotal(s, items[size - 1], last, r);
      }
    }
  }

  /** With nothing to cut off, the rows are all there. */
  lemma WholeFacts(rows: set<Row>, s: Sort, n: nat, fetched: seq<Row>)
    requires IsLimited(rows, s, n, fetched) && |fetched| < n
    ensures forall r :: r in fetched <==> r in rows
  {
    assert forall r :: r in fetched <==> r in Elements(fetched);
  }

  datatype Page = Page(items: seq<Row>, hasNext: bool, next: Option<Cursor>)

  /** The cursor branch of `public_search_listings`: fetch one row more than a page, cut, and point the
      next cursor at the last row kept. */
  ghost function FetchPage(t: set<Row>, s: Sort, c: Cursor, size: nat): Page
    requires Table(t)
  {
    var fetched := Limit(Selected(t, s, c), s, size + 1);
    var hasNext := |fetched| > size;
    var items := if hasNext then fetched[..size] else fetched;
    var next := if items != [] && hasNext then Some(MakeCursor(s, items[|items| - 1])) else None;
    Page(items, hasNext, next)
  }

  lemma SelectedIsAfter(t: set<Row>, s: Sort, x: Row)
    ensures Selected(t, s, MakeCursor(s, x)) == After(t, s, x)
  {
    forall r ensures r in Selected(t, s, MakeCursor(s, x)) <==> r in After(t, s, x) {
      CursorEqualsOrder(s, x, r);
    }
  }

  /** The rows of a page are the first of those selected, all of them when there is nothing to cut off. */
  ghost predicate IsPageOf(rows: set<Row>, s: Sort, size: nat, items: seq<Row>, hasNext: bool) {
    && Sorted(s, items)
    && (forall r :: r in items ==> r in rows)
    && (hasNext <==> |rows| > size)
    && (!hasNext ==> forall r :: r in rows ==> r in items)
    && (hasNext ==> size > 0 && |items| == size && forall r :: r in rows && r !in items ==> Before(s, items[size - 1], r))
  }

  lemma CutIsPage(rows: set<Row>, s: Sort, size: nat, fetched: seq<Row>)
    requires size > 0 && IsLimited(rows, s, size + 1, fetched)
    ensures IsPageOf(rows, s, size, if |fetched| > size then fetched[..size] else fetched, |fetched| > size)
  {
    if |fetched| > size {
      CutFacts(rows, s, size, fetched);
    } else {
      WholeFacts(rows, s, size + 1, fetched);
    }
  }

  /** What a page holds: the next rows after the cursor's row, in order and without gaps; all of them when
      there is no further page, and exactly a page full otherwise. */
  lemma PageFacts(t: set<Row>, s: Sort, x: Row, size: nat)
    requires Table(t) && size > 0
    ensures var page := FetchPage(t, s, MakeCursor(s, x), size);
            && IsPageOf(After(t, s, x), s, size, page.items, page.hasNext)
            && (page.hasNext ==> page.next == Some(MakeCursor(s, page.items[size - 1])))
  {
    SelectedIsAfter(t, s, x);
    LimitFacts(After(t, s, x), s, size + 1);
    CutIsPage(After(t, s, x), s, size, Limit(After(t, s, x), s, size + 1));
  }

  // ---- Following the cursors while the table changes ----

  datatype Walked = Walked(items: seq<Row>, finished: bool)

  /** Follows the cursors: the k-th request sees the k-th table. Stops at the first page without a
      successor, or unfinished when the tables run out. */
  ghost function Walk(tables: seq<set<Row>>, s: Sort, c: Cursor, size: nat): Walked
    requires forall t :: t in tables ==> Table(t)
    decreases |tables|
  {
    if tables == [] then Walked([], false)
    else
      var page := FetchPage(tables[0], s, c, size);
      if page.next.None? then Walked(page.items, !page.hasNext)
      else
        var rest := Walk(tables[1..], s, page.next.value, size);
        Walked(page.items + rest.items, rest.finished)
  }

  lemma SortedConcat(s: Sort, a: seq<Row>, b: seq<Row>)
    requires Sorted(s, a) && Sorted(s, b)
    requires a != [] && forall r :: r in b ==> Before(s, a[|a| - 1], r)
    ensures Sorted(s, a + b)
  {
    forall i, j | 0 <= i < |a| && 0 <= j < |b| ensures Before(s, a[i], b[j]) {
      assert b[j] in b;
      if i < |a| - 1 { BeforeIsStrictTotal(s, a[i], a[|a| - 1], b[j]); }
    }
  }

  /** Whatever other rows are inserted, deleted or deactivated between the requests: the rows returned
      come strictly after the starting cursor and in strictly increasing order. */
  lemma {:induction false} WalkIsSorted(tables: seq<set<Row>>, s: Sort, x: Row, size: nat)
    requires forall t :: t in tables ==> Table(t)
    requires size > 0
    ensures var w := Walk(tables, s, MakeCursor(s, x), size);
            Sorted(s, w.items) && forall r :: r in w.items ==> Before(s, x, r)
    decreases |tables|
  {
    if tables != [] {
      PageFacts(tables[0], s, x, size);
      var page := FetchPage(tables[0], s, MakeCursor(s, x), size);
      if page.hasNext {
        var last := page.items[size - 1];
        WalkIsSorted(tables[1..], s, last, size);
        var rest := Walk(tables[1..], s, MakeCursor(s, last), size).items;
        SortedConcat(s, page.items, rest);
        assert last in page.items;
        forall r | r in rest ensures Before(s, x, r) {
          BeforeIsStrictTotal(s, x, last, r);
        }
      }
    }
  }

  lemma SortedHasNoDuplicates(s: Sort, items: seq<Row>)
    requires Sorted(s, items)
    ensures forall i, j :: 0 <= i < j < |items| ==> items[i] != items[j]
  {
    forall i, j | 0 <= i < j < |items| ensures items[i] != items[j] {
      BeforeIsStrictTotal(s, items[i], items[j], items[j]);
    }
  }

  /** A row that stays active and unchanged and lies after the starting cursor is returned once the walk
      has finished. */
  lemma {:induction false} WalkFinds(tables: seq<set<Row>>, s: Sort, x: Row, size: nat, y: Row)
    requires forall t :: t in tables ==> Table(t) && y in t
    requires size > 0 && y.matches && Before(s, x, y)
    requires Walk(tables, s, MakeCursor(s, x), size).finished
    ensures y in Walk(tables, s, MakeCursor(s, x), size).items
    decreases |tables|
  {
    PageFacts(tables[0], s, x, size);
    var page := FetchPage(tables[0], s, MakeCursor(s, x), size);
    assert y in After(tables[0], s, x);
    if y !in page.items {
      WalkFinds(tables[1..], s, page.items[size - 1], size, y);
    }
  }

  /** Exactly once, and nothing twice. */
  lemma ReturnedExactlyOnce(tables: seq<set<Row>>, s: Sort, x: Row, size: nat, y: Row)
    requires forall t :: t in tables ==> Table(t) && y in t
    requires size > 0 && y.matches && Before(s, x, y)
    requires Walk(tables, s, MakeCursor(s, x), size).finished
    ensures var items := Walk(tables, s, MakeCursor(s, x), size).items;
            && (exists i :: 0 <= i < |items| && items[i] == y && forall j :: 0 <= j < |items| && j != i ==> items[j] != y)
            && (forall i, j :: 0 <= i < j < |items| ==> items[i] != items[j])
  {
    WalkIsSorted(tables, s, x, size);
    WalkFinds(tables, s, x, size, y);
    SortedHasNoDuplicates(s, Walk(tables, s, MakeCursor(s, x), size).items);
  }

  // ---- A table that does not change ----

  /** Each further page leaves strictly fewer rows to come: exactly a page full fewer. */
  lemma SuffixShrinks(t: set<Row>, s: Sort, x: Row, size: nat)
    requires Table(t) && size > 0 && FetchPage(t, s, MakeCursor(s, x), size).hasNext
    ensures |After(t, s, x)| > size
    ensures var items := FetchPage(t, s, MakeCursor(s, x), size).items;
            && |items| == size
            && After(t, s, items[size - 1]) == After(t, s, x) - Elements(items)
            && After(t, s, x) == Elements(items) + After(t, s, items[size - 1])
            && |After(t, s, items[size - 1])| == |After(t, s, x)| - size
  {
    PageFacts(t, s, x, size);
    var items := FetchPage(t, s, MakeCursor(s, x), size).items;
    var last := items[size - 1];
    forall r ensures r in After(t, s, last) <==> r in After(t, s, x) && r !in items {
      assert last in items;
      BeforeIsStrictTotal(s, x, last, r);
      if r in items {
        var i :| 0 <= i < size && items[i] == r;
        BeforeIsStrictTotal(s, r, last, last);
      }
    }
    SortedHasNoDuplicates(s, items);
    SetSize(items);
    assert Elements(items) <= After(t, s, x);
  }

  lemma {:induction false} SetSize(items: seq<Row>)
    requires forall i, j :: 0 <= i < j < |items| ==> items[i] != items[j]
    ensures |Elements(items)| == |items|
  {
    if items != [] {
      var init, last := items[..|items| - 1], items[|items| - 1];
      SetSize(init);
      assert items == init + [last];
      assert Elements(items) == Elements(init) + {last};
    }
  }

  lemma OnePageLess(n: nat, size: nat, rows: nat)
    requires n * size >= rows > size
    ensures n > 1 && (n - 1) * size >= rows - size
  {
    assert n * size == (n - 1) * size + size;
  }

  lemma ElementsOfConcat(a: seq<Row>, b: seq<Row>)
    ensures Elements(a + b) == Elements(a) + Elements(b)
  {
  }

  lemma LastPage(rows: set<Row>, s: Sort, size: nat, items: seq<Row>)
    requires IsPageOf(rows, s, size, items, false)
    ensures Elements(items) == rows
  {
  }

  /** Every request sees the same table. */
  ghost predicate Static(tables: seq<set<Row>>, t: set<Row>) {
    Table(t) && forall k :: 0 <= k < |tables| ==> tables[k] == t
  }

  lemma StaticTables(tables: seq<set<Row>>, t: set<Row>)
    requires Static(tables, t)
    ensures forall u :: u in tables ==> Table(u)
    ensures tables != [] ==> tables[0] == t && Static(tables[1..], t)
  {
  }

  /** The walk has visited exactly the rows after x. */
  ghost predicate Visits(w: Walked, t: set<Row>, s: Sort, x: Row) {
    w.finished && Elements(w.items) == After(t, s, x)
  }

  ghost function StaticWalked(tables: seq<set<Row>>, t: set<Row>, s: Sort, x: Row, size: nat): Walked
    requires Static(tables, t)
  {
    StaticTables(tables, t);
    Walk(tables, s, MakeCursor(s, x), size)
  }

  lemma WalkEnds(tables: seq<set<Row>>, t: set<Row>, s: Sort, x: Row, size: nat)
    requires Static(tables, t) && tables != [] && size > 0 && !FetchPage(t, s, MakeCursor(s, x), size).hasNext
    ensures Visits(StaticWalked(tables, t, s, x, size), t, s, x)
  {
    StaticTables(tables, t);
    PageFacts(t, s, x, size);
    LastPage(After(t, s, x), s, size, FetchPage(t, s, MakeCursor(s, x), size).items);
  }

  /** A further page: the walk goes on from its last row. */
  lemma WalkGoesOn(tables: seq<set<Row>>, t: set<Row>, s: Sort, x: Row, size: nat)
    requires Static(tables, t) && tables != [] && size > 0 && FetchPage(t, s, MakeCursor(s, x), size).hasNext
    ensures Static(tables[1..], t)
    ensures var items := FetchPage(t, s, MakeCursor(s, x), size).items;
            && |items| == size
            && var rest := StaticWalked(tables[1..], t, s, items[size - 1], size);
               StaticWalked(tables, t, s, x, size) == Walked(items + rest.items, rest.finished)
  {
    StaticTables(tables, t);
    PageFacts(t, s, x, size);
  }

  lemma {:induction false} StaticWalkVisits(tables: seq<set<Row>>, t: set<Row>, s: Sort, x: Row, size: nat)
    requires Static(tables, t) && tables != [] && size > 0 && |tables| * size >= |After(t, s, x)|
    ensures Visits(StaticWalked(tables, t, s, x, size), t, s, x)
    decreases |tables|
  {
    var page := FetchPage(t, s, MakeCursor(s, x), size);
    if !page.hasNext {
      WalkEnds(tables, t, s, x, size);
    } else {
      WalkGoesOn(tables, t, s, x, size);
      SuffixShrinks(t, s, x, size);
      OnePageLess(|tables|, size, |After(t, s, x)|);
      StaticWalkVisits(tables[1..], t, s, page.items[size - 1], size);
      ElementsOfConcat(page.items, StaticWalked(tables[1..], t, s, page.items[size - 1], size).items);
    }
  }

  /** On a static table the walk finishes once the requests can hold all remaining rows, and the pages
      concatenate to the sorted rows after the cursor. */
  lemma StaticWalk(tables: seq<set<Row>>, t: set<Row>, s: Sort, x: Row, size: nat)
    requires Static(tables, t) && tables != [] && size > 0 && |tables| * size >= |After(t, s, x)|
    ensures var w := StaticWalked(tables, t, s, x, size);
            w.finished && Sorted(s, w.items) && Elements(w.items) == After(t, s, x)
  {
    StaticTables(tables, t);
    WalkIsSorted(tables, s, x, size);
    StaticWalkVisits(tables, t, s, x, size);
  }
}
