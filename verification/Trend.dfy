/** The search-volume trend of the platform dashboard (backend/app/admin/query_service.py). Dates are day
    numbers and moments are microseconds, the resolution of the source's datetimes. */
module Trend {

  const DAY := 86_400_000_000

  datatype Bucket = Bucket(start: int, end: int)

  datatype TrendPoint = TrendPoint(bucket: Bucket, searchCount: nat)

  // ---- Rounding a quotient to whole microseconds ----

  /** p / q rounded to the nearest integer, ties to the even one. */
  function RoundHalfEven(p: int, q: int): (r: int)
    requires q > 0
    ensures -q <= 2 * (r * q - p) <= q
    ensures (2 * (r * q - p) == q || 2 * (p - r * q) == q) ==> r % 2 == 0
  {
    var f, rem := p / q, p % q;
    assert f * q + rem == p;
    if 2 * rem < q || (2 * rem == q && f % 2 == 0) then f
    else
      assert (f + 1) * q == f * q + q;
      f + 1
  }

  lemma RoundMonotone(p: int, p': int, q: int)
    requires q > 0 && p <= p'
    ensures RoundHalfEven(p, q) <= RoundHalfEven(p', q)
  {
    var r, r' := RoundHalfEven(p, q), RoundHalfEven(p', q);
    if r > r' {
      MulMonotone(r' + 1, r, q);
      Distribute(r' + 1, 1, q);
    }
  }

  lemma MulMonotone(a: int, b: int, q: int)
    requires a <= b && q > 0
    ensures a * q <= b * q
  {
    assert (b - a) * q >= 0;
  }

  lemma RoundWhole(k: int, q: int)
    requires q > 0
    ensures RoundHalfEven(k * q, q) == k
  {
    var r := RoundHalfEven(k * q, q);
    assert (r - k) * q == r * q - k * q;
    if r > k {
      MulMonotone(1, r - k, q);
    } else if r < k {
      MulMonotone(r - k, -1, q);
    }
  }

  // ---- The buckets ----

  /** The edge before bucket i of n over a span. */
  function Edge(span: int, n: int, i: int): int
    requires n > 0
  {
    RoundHalfEven(span * i, n)
  }

  function Buckets(df: int, dt: int, n: int): seq<Bucket> {
    if n <= 0 then []
    else if df == dt then [Bucket(df * DAY, df * DAY + DAY)]
    else
      var span := (dt + 1 - df) * DAY;
      if span <= 0 then []
      else seq(n, i => Bucket(df * DAY + Edge(span, n, i), df * DAY + Edge(span, n, i + 1)))
  }

  method BucketDates(df: int, dt: int, n: int) returns (out: seq<Bucket>)
    ensures out == Buckets(df, dt, n)
  {
    if n <= 0 {
      return [];
    }
    if df == dt {
      return [Bucket(df * DAY, df * DAY + DAY)];
    }
    var span := (dt + 1 - df) * DAY;
    if span <= 0 {
      return [];
    }
    var cursor := df * DAY;
    out := [];
    for i := 0 to n
      invariant |out| == i
      invariant forall k :: 0 <= k < i ==> out[k] == Buckets(df, dt, n)[k]
    {
      out := out + [Bucket(cursor + Edge(span, n, i), cursor + Edge(span, n, i + 1))];
    }
  }

  /** Consecutive half-open intervals from one moment to another. */
  predicate Tiles(bs: seq<Bucket>, from: int, to: int) {
    && bs != [] && bs[0].start == from && bs[|bs| - 1].end == to
    && (forall i :: 0 <= i < |bs| ==> bs[i].start <= bs[i].end)
    && (forall i :: 0 < i < |bs| ==> bs[i - 1].end == bs[i].start)
  }

  /** There are buckets exactly for a positive count and a window that is not reversed, and then they tile
      [date_from, date_to + 1 day). */
  lemma BucketsTile(df: int, dt: int, n: int)
    ensures Buckets(df, dt, n) == [] <==> n <= 0 || dt < df
    ensures n > 0 && df <= dt ==> Tiles(Buckets(df, dt, n), df * DAY, (dt + 1) * DAY)
  {
    var span := (dt + 1 - df) * DAY;
    if n > 0 && df < dt {
      var bs := Buckets(df, dt, n);
      assert Edge(span, n, 0) == 0 by { RoundWhole(0, n); }
      assert Edge(span, n, n) == span by { RoundWhole(span, n); }
      forall i | 0 <= i < n ensures bs[i].start <= bs[i].end {
        assert span * i + span == span * (i + 1);
        RoundMonotone(span * i, span * (i + 1), n);
      }
    }
  }

  lemma EdgeStep(span: int, n: int, i: int)
    requires n > 0
    ensures -n <= (Edge(span, n, i + 1) - Edge(span, n, i)) * n - span <= n
  {
    var r, r' := Edge(span, n, i), Edge(span, n, i + 1);
    Distribute(r', r, n);
    assert span * (i + 1) == span * i + span;
  }

  lemma Distribute(a: int, b: int, n: int)
    ensures (a - b) * n == a * n - b * n
  {
  }

  /** Over several days no bucket is more than a microsecond away from its share of the window. */
  lemma BucketsAreEven(df: int, dt: int, n: int, i: nat)
    requires n > 0 && df < dt && i < n
    ensures var b, span := Buckets(df, dt, n)[i], (dt + 1 - df) * DAY;
            -n <= (b.end - b.start) * n - span <= n
  {
    var b, span := Buckets(df, dt, n)[i], (dt + 1 - df) * DAY;
    EdgeStep(span, n, i);
    assert b.end - b.start == Edge(span, n, i + 1) - Edge(span, n, i);
  }

  // ---- Counting ----

  predicate Within(b: Bucket, t: int) { b.start <= t < b.end }

  function CountIn(logs: seq<int>, b: Bucket): nat {
    if logs == [] then 0
    else CountIn(logs[..|logs| - 1], b) + if Within(b, logs[|logs| - 1]) then 1 else 0
  }

  /** The logs from one moment on and before another. */
  function LogsIn(logs: seq<int>, start: int, end: int): set<int> { set j | 0 <= j < |logs| && start <= logs[j] < end }

  lemma {:induction false} CountIsSize(logs: seq<int>, b: Bucket)
    ensures CountIn(logs, b) == |LogsIn(logs, b.start, b.end)|
  {
    if logs != [] {
      var k := |logs| - 1;
      CountIsSize(logs[..k], b);
      var before := LogsIn(logs[..k], b.start, b.end);
      assert LogsIn(logs, b.start, b.end) == if b.start <= logs[k] < b.end then before + {k} else before;
    }
  }

  function Points(logs: seq<int>, bs: seq<Bucket>): seq<TrendPoint> {
    seq(|bs|, i requires 0 <= i < |bs| => TrendPoint(bs[i], CountIn(logs, bs[i])))
  }

  method BuildTrend(logs: seq<int>, df: int, dt: int, n: int) returns (out: seq<TrendPoint>)
    ensures out == Points(logs, Buckets(df, dt, n))
    ensures |out| == |Buckets(df, dt, n)| && forall i :: 0 <= i < |out| ==>
      out[i].bucket == Buckets(df, dt, n)[i] && out[i].searchCount == |LogsIn(logs, out[i].bucket.start, out[i].bucket.end)|
  {
    var bs := BucketDates(df, dt, n);
    out := [];
    for i := 0 to |bs|
      invariant |out| == i
      invariant forall k :: 0 <= k < i ==> out[k] == TrendPoint(bs[k], CountIn(logs, bs[k]))
    {
      var count := 0;
      for j := 0 to |logs|
        invariant count == CountIn(logs[..j], bs[i])
      {
        assert logs[..j + 1][..j] == logs[..j];
        if bs[i].start <= logs[j] < bs[i].end {
          count := count + 1;
        }
      }
      assert logs[..|logs|] == logs;
      out := out + [TrendPoint(bs[i], count)];
    }
    forall i | 0 <= i < |out| ensures out[i].searchCount == |LogsIn(logs, out[i].bucket.start, out[i].bucket.end)| {
      CountIsSize(logs, bs[i]);
    }
  }

  function Total(points: seq<TrendPoint>): nat {
    if points == [] then 0 else Total(points[..|points| - 1]) + points[|points| - 1].searchCount
  }

  lemma {:induction false} CountSplits(logs: seq<int>, a: int, b: int, c: int)
    requires a <= b <= c
    ensures CountIn(logs, Bucket(a, b)) + CountIn(logs, Bucket(b, c)) == CountIn(logs, Bucket(a, c))
  {
    if logs != [] {
      CountSplits(logs[..|logs| - 1], a, b, c);
    }
  }

  lemma {:induction false} TilesOrdered(bs: seq<Bucket>, from: int, to: int, i: nat, j: nat)
    requires Tiles(bs, from, to) && i < j < |bs|
    ensures from <= bs[i].end <= bs[j].start <= to
    decreases j
  {
    if i > 0 { TilesOrdered(bs, from, to, 0, i); }
    if i + 1 < j { TilesOrdered(bs, from, to, i, j - 1); }
    EndsBelow(bs, from, to, j);
  }

  lemma {:induction false} EndsBelow(bs: seq<Bucket>, from: int, to: int, j: nat)
    requires Tiles(bs, from, to) && j < |bs|
    ensures bs[j].start <= bs[j].end <= to
    decreases |bs| - j
  {
    if j + 1 < |bs| { EndsBelow(bs, from, to, j + 1); }
  }

  lemma {:induction false} TotalOverTiles(logs: seq<int>, bs: seq<Bucket>, from: int, to: int)
    requires Tiles(bs, from, to)
    ensures Total(Points(logs, bs)) == CountIn(logs, Bucket(from, to))
    ensures from <= to
  {
    var k := |bs| - 1;
    if k == 0 {
      assert Points(logs, bs)[..0] == [];
      assert bs[0] == Bucket(from, to);
    } else {
      TotalOverTiles(logs, bs[..k], from, bs[k].start);
      assert Points(logs, bs)[..k] == Points(logs, bs[..k]);
      CountSplits(logs, from, bs[k].start, to);
      assert bs[k] == Bucket(bs[k].start, to);
    }
  }

  /** The search logs the dashboard fetches for a window. */
  function InScope(table: seq<int>, df: int, dt: int): seq<int> {
    if table == [] then []
    else
      var logs := InScope(table[..|table| - 1], df, dt);
      if df * DAY <= table[|table| - 1] < (dt + 1) * DAY then logs + [table[|table| - 1]] else logs
  }

  lemma {:induction false} AllInScopeCounted(table: seq<int>, df: int, dt: int)
    ensures var logs := InScope(table, df, dt); CountIn(logs, Bucket(df * DAY, (dt + 1) * DAY)) == |logs|
  {
    if table != [] {
      AllInScopeCounted(table[..|table| - 1], df, dt);
      var logs := InScope(table[..|table| - 1], df, dt);
      assert (logs + [table[|table| - 1]])[..|logs|] == logs;
    }
  }

  /** The counts of the trend add up to the total search volume. */
  lemma TrendConserves(table: seq<int>, df: int, dt: int, n: int)
    requires n > 0 && df <= dt
    ensures var logs := InScope(table, df, dt); Total(Points(logs, Buckets(df, dt, n))) == |logs|
  {
    BucketsTile(df, dt, n);
    TotalOverTiles(InScope(table, df, dt), Buckets(df, dt, n), df * DAY, (dt + 1) * DAY);
    AllInScopeCounted(table, df, dt);
  }

  ghost predicate OnlyBucketOf(bs: seq<Bucket>, t: int, i: int) {
    0 <= i < |bs| && Within(bs[i], t) && forall j :: 0 <= j < |bs| && Within(bs[j], t) ==> j == i
  }

  lemma {:induction false} SomeBucket(bs: seq<Bucket>, from: int, to: int, t: int) returns (i: nat)
    requires Tiles(bs, from, to) && from <= t < to
    ensures i < |bs| && Within(bs[i], t)
  {
    var k := |bs| - 1;
    if bs[k].start <= t {
      i := k;
    } else {
      i := SomeBucket(bs[..k], from, bs[k].start, t);
    }
  }

  /** Every moment of the window lies in exactly one bucket, and no other moment lies in any. */
  lemma ExactlyOneBucket(df: int, dt: int, n: int, t: int)
    requires n > 0 && df <= dt
    ensures (exists i :: OnlyBucketOf(Buckets(df, dt, n), t, i)) <==> df * DAY <= t < (dt + 1) * DAY
    ensures !(df * DAY <= t < (dt + 1) * DAY) ==> forall i :: 0 <= i < |Buckets(df, dt, n)| ==> !Within(Buckets(df, dt, n)[i], t)
  {
    BucketsTile(df, dt, n);
    var bs, from, to := Buckets(df, dt, n), df * DAY, (dt + 1) * DAY;
    forall i: nat, j: nat | i < j < |bs| ensures from <= bs[i].end <= bs[j].start <= to {
      TilesOrdered(bs, from, to, i, j);
    }
    forall i: nat | i < |bs| && Within(bs[i], t) ensures from <= t < to {
      EndsBelow(bs, from, to, i);
      if i > 0 { TilesOrdered(bs, from, to, 0, i); }
    }
    if from <= t < to {
      var i := SomeBucket(bs, from, to, t);
      assert OnlyBucketOf(bs, t, i);
    }
  }
}
