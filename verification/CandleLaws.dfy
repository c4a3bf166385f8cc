/** Laws of the chart: arrival order does not matter, and coarse candles are merged fine ones. */
module CandleLaws {
  import opened Arithmetic
  import opened Common
  import opened Candles

  // ---------------------------------------------------------------- order independence

  /** The trades at the earliest time of a range agree on the price. */
  ghost predicate OpenDecided(log: seq<Tick>, lo: int, hi: int) {
    forall i, k :: Earliest(log, lo, hi, i) && Earliest(log, lo, hi, k) ==> log[i].price == log[k].price
  }

  ghost predicate CloseDecided(log: seq<Tick>, lo: int, hi: int) {
    forall i, k :: Latest(log, lo, hi, i) && Latest(log, lo, hi, k) ==> log[i].price == log[k].price
  }

  predicate Earliest(log: seq<Tick>, lo: int, hi: int, i: int) {
    && 0 <= i < |log| && Within(log[i], lo, hi)
    && forall j :: 0 <= j < |log| && Within(log[j], lo, hi) ==> log[i].time <= log[j].time
  }

  predicate Latest(log: seq<Tick>, lo: int, hi: int, i: int) {
    && 0 <= i < |log| && Within(log[i], lo, hi)
    && forall j :: 0 <= j < |log| && Within(log[j], lo, hi) ==> log[j].time <= log[i].time
  }

  lemma {:induction false} VolumeSplit(a: seq<Tick>, t: Tick, b: seq<Tick>, lo: int, hi: int)
    ensures VolumeIn(a + [t] + b, lo, hi) == VolumeIn(a + b, lo, hi) + (if Within(t, lo, hi) then t.quantity else 0.0)
  {
    if b == [] {
      assert a + [t] + b == a + [t] && a + b == a;
      VolumeAppend(a, t, lo, hi);
    } else {
      var n := |b| - 1;
      VolumeSplit(a, t, b[..n], lo, hi);
      assert a + [t] + b == a + [t] + b[..n] + [b[n]] && a + b == a + b[..n] + [b[n]];
      VolumeAppend(a + [t] + b[..n], b[n], lo, hi);
      VolumeAppend(a + b[..n], b[n], lo, hi);
    }
  }

  lemma RestPermutes(p: seq<Tick>, t: Tick, a: seq<Tick>, b: seq<Tick>)
    requires multiset(p + [t]) == multiset(a + [t] + b)
    ensures multiset(p) == multiset(a + b)
  {
    assert multiset(p + [t]) == multiset(p) + multiset{t};
    assert multiset(a + [t] + b) == multiset(a + b) + multiset{t};
    assert multiset(p) == multiset(p + [t]) - multiset{t};
    assert multiset(a + b) == multiset(a + [t] + b) - multiset{t};
  }

  lemma {:induction false} VolumePermutes(p: seq<Tick>, q: seq<Tick>, lo: int, hi: int)
    requires multiset(p) == multiset(q)
    ensures VolumeIn(p, lo, hi) == VolumeIn(q, lo, hi)
    decreases |p|
  {
    if p == [] {
      assert |multiset(q)| == 0;
    } else {
      var n := |p| - 1;
      var t := p[n];
      assert p == p[..n] + [t];
      assert t in multiset(q);
      var k :| 0 <= k < |q| && q[k] == t;
      assert q == q[..k] + [t] + q[k + 1..];
      RestPermutes(p[..n], t, q[..k], q[k + 1..]);
      VolumePermutes(p[..n], q[..k] + q[k + 1..], lo, hi);
      VolumeSplit(q[..k], t, q[k + 1..], lo, hi);
      VolumeAppend(p[..n], t, lo, hi);
    }
  }

  lemma SameMember(p: seq<Tick>, q: seq<Tick>, i: int) returns (j: int)
    requires multiset(p) == multiset(q) && 0 <= i < |p|
    ensures 0 <= j < |q| && q[j] == p[i]
  {
    assert p[i] in multiset(q);
    j :| 0 <= j < |q| && q[j] == p[i];
  }

  lemma OpenPermutes(p: seq<Tick>, q: seq<Tick>, lo: int, hi: int, i: int, j: int)
    requires multiset(p) == multiset(q) && OpenDecided(p, lo, hi)
    requires Opens(p, lo, hi, i) && Opens(q, lo, hi, j)
    ensures p[i].time == q[j].time && p[i].price == q[j].price
  {
    var i' := SameMember(p, q, i);
    var j' := SameMember(q, p, j);
    assert Earliest(p, lo, hi, i) && Earliest(p, lo, hi, j');
  }

  lemma ClosePermutes(p: seq<Tick>, q: seq<Tick>, lo: int, hi: int, i: int, j: int)
    requires multiset(p) == multiset(q) && CloseDecided(p, lo, hi)
    requires Closes(p, lo, hi, i) && Closes(q, lo, hi, j)
    ensures p[i].time == q[j].time && p[i].price == q[j].price
  {
    var i' := SameMember(p, q, i);
    var j' := SameMember(q, p, j);
    assert Latest(p, lo, hi, i) && Latest(p, lo, hi, j');
  }

  lemma ExtremesPermute(s: Summary, t: Summary, p: seq<Tick>, q: seq<Tick>, lo: int, hi: int)
    requires multiset(p) == multiset(q)
    requires Summarises(s, p, lo, hi) && Summarises(t, q, lo, hi)
    ensures s.high == t.high && s.low == t.low
  {
    var a :| Tops(p, lo, hi, a) && s.high == p[a].price;
    var b :| Tops(q, lo, hi, b) && t.high == q[b].price;
    var a' := SameMember(p, q, a);
    var b' := SameMember(q, p, b);
    var c :| Bottoms(p, lo, hi, c) && s.low == p[c].price;
    var d :| Bottoms(q, lo, hi, d) && t.low == q[d].price;
    var c' := SameMember(p, q, c);
    var d' := SameMember(q, p, d);
  }

  /** Two arrival orders of the same trades give the same batch result. */
  lemma SummaryPermutes(s: Summary, t: Summary, p: seq<Tick>, q: seq<Tick>, lo: int, hi: int)
    requires multiset(p) == multiset(q) && OpenDecided(p, lo, hi) && CloseDecided(p, lo, hi)
    requires Summarises(s, p, lo, hi) && Summarises(t, q, lo, hi)
    ensures s == t
  {
    ExtremesPermute(s, t, p, q, lo, hi);
    VolumePermutes(p, q, lo, hi);
    var a :| Opens(p, lo, hi, a) && s.open == p[a].price && s.first == p[a].time;
    var b :| Opens(q, lo, hi, b) && t.open == q[b].price && t.first == q[b].time;
    OpenPermutes(p, q, lo, hi, a, b);
    var c :| Closes(p, lo, hi, c) && s.close == p[c].price && s.last == p[c].time;
    var d :| Closes(q, lo, hi, d) && t.close == q[d].price && t.last == q[d].time;
    ClosePermutes(p, q, lo, hi, c, d);
  }

  lemma EmptyPermutes(p: seq<Tick>, q: seq<Tick>, lo: int, hi: int)
    requires multiset(p) == multiset(q)
    ensures Empty(p, lo, hi) == Empty(q, lo, hi)
  {
    if i :| 0 <= i < |p| && Within(p[i], lo, hi) { var j := SameMember(p, q, i); }
    if i :| 0 <= i < |q| && Within(q[i], lo, hi) { var j := SameMember(q, p, i); }
  }

  /** What a timeframe holds after a log: the chart's own updates, one trade at a time. */
  datatype Frame = Frame(candles: CandleMap, bounds: BoundsMap, volumes: VolumeMap)

  ghost predicate Holds(f: Frame, ms: int, log: seq<Tick>)
    requires ms > 0
  {
    FrameOk(f.candles, f.bounds, f.volumes, ms, log)
  }

  function FrameOf(log: seq<Tick>, ms: int): (f: Frame)
    requires ms > 0
    ensures Holds(f, ms, log)
  {
    if log == [] then
      EmptyFrame(ms);
      Frame(map[], map[], map[])
    else
      var rest, t := log[..|log| - 1], log[|log| - 1];
      var f := FrameOf(rest, ms);
      var b := BucketOf(t.time, ms);
      SameBuckets(f.candles, f.bounds, f.volumes, ms, rest, b);
      FrameKeeps(f.candles, f.bounds, f.volumes, ms, rest, t);
      assert rest + [t] == log;
      var c := NextCandle(f.candles, f.bounds, b, t);
      Frame(f.candles[b := c], f.bounds[b := NextBounds(f.candles, f.bounds, b, t)],
            f.volumes[b := NextVolume(f.volumes, b, c, t)])
  }

  /** A chart that holds a log shows exactly the frame of that log. */
  lemma FrameIsUnique(f: Frame, ms: int, log: seq<Tick>)
    requires ms > 0 && Holds(f, ms, log)
    ensures f == FrameOf(log, ms)
  {
    hide FrameOf, Summarises;
    var g := FrameOf(log, ms);
    forall b
      ensures (b in f.candles <==> b in g.candles) && (b in f.bounds <==> b in g.bounds)
      ensures b in f.volumes <==> b in g.volumes
      ensures b in f.candles ==> f.candles[b] == g.candles[b]
      ensures b in f.bounds ==> f.bounds[b] == g.bounds[b]
      ensures b in f.volumes ==> f.volumes[b] == g.volumes[b]
    {
      assert BucketOk(f.candles, f.bounds, f.volumes, ms, log, b)
          && BucketOk(g.candles, g.bounds, g.volumes, ms, log, b);
      if b in f.candles {
        SummaryUnique(Kept(f.candles[b], f.bounds[b], f.volumes[b]), Kept(g.candles[b], g.bounds[b], g.volumes[b]),
                      log, b, b + ms);
      }
    }
    assert f.candles == g.candles && f.bounds == g.bounds && f.volumes == g.volumes;
  }

  ghost predicate EdgesDecided(log: seq<Tick>, ms: int)
    requires ms > 0
  {
    forall b :: b % ms == 0 ==> OpenDecided(log, b, b + ms) && CloseDecided(log, b, b + ms)
  }

  /** Charts fed the same trades in two orders agree when the edges of every bucket are decided. */
  lemma FramesAgree(f: Frame, g: Frame, ms: int, p: seq<Tick>, q: seq<Tick>)
    requires ms > 0 && Holds(f, ms, p) && Holds(g, ms, q)
    requires multiset(p) == multiset(q) && EdgesDecided(p, ms)
    ensures f == g
  {
    hide Summarises, OpenDecided, CloseDecided;
    forall b
      ensures (b in f.candles <==> b in g.candles) && (b in f.bounds <==> b in g.bounds)
      ensures b in f.volumes <==> b in g.volumes
      ensures b in f.candles ==> f.candles[b] == g.candles[b]
      ensures b in f.bounds ==> f.bounds[b] == g.bounds[b]
      ensures b in f.volumes ==> f.volumes[b] == g.volumes[b]
    {
      assert BucketOk(f.candles, f.bounds, f.volumes, ms, p, b) && BucketOk(g.candles, g.bounds, g.volumes, ms, q, b);
      EmptyPermutes(p, q, b, b + ms);
      if b in f.candles {
        SummaryPermutes(Kept(f.candles[b], f.bounds[b], f.volumes[b]), Kept(g.candles[b], g.bounds[b], g.volumes[b]),
                        p, q, b, b + ms);
      }
    }
    assert f.candles == g.candles && f.bounds == g.bounds && f.volumes == g.volumes;
  }

  /** Trade `k` moved to the front of the log, or to its back. */
  function ToFront(p: seq<Tick>, k: int): (q: seq<Tick>)
    requires 0 <= k < |p|
    ensures |q| == |p| && q[0] == p[k]
    ensures multiset(q) == multiset(p)
  {
    assert p == p[..k] + [p[k]] + p[k + 1..];
    [p[k]] + p[..k] + p[k + 1..]
  }

  function ToBack(p: seq<Tick>, k: int): (q: seq<Tick>)
    requires 0 <= k < |p|
    ensures |q| == |p| && q[|p| - 1] == p[k]
    ensures multiset(q) == multiset(p)
  {
    assert p == p[..k] + [p[k]] + p[k + 1..];
    p[..k] + p[k + 1..] + [p[k]]
  }

  /** An earliest trade moved to the front opens its range, a latest one moved to the back closes it. */
  lemma MovedOpens(p: seq<Tick>, lo: int, hi: int, k: int)
    requires Earliest(p, lo, hi, k)
    ensures Opens(ToFront(p, k), lo, hi, 0)
  {
    var q := ToFront(p, k);
    forall j | 0 <= j < |q| && Within(q[j], lo, hi) ensures q[0].time <= q[j].time {
      var i := SameMember(q, p, j);
    }
  }

  lemma MovedCloses(p: seq<Tick>, lo: int, hi: int, k: int)
    requires Latest(p, lo, hi, k)
    ensures Closes(ToBack(p, k), lo, hi, |p| - 1)
  {
    var q := ToBack(p, k);
    forall j | 0 <= j < |q| && Within(q[j], lo, hi) ensures q[j].time <= q[|p| - 1].time {
      var i := SameMember(q, p, j);
    }
  }

  /** What a bucket with trades shows as open and close. */
  lemma ShownEdges(log: seq<Tick>, ms: int, b: int, i: int, j: int)
    requires ms > 0 && b % ms == 0 && Opens(log, b, b + ms, i) && Closes(log, b, b + ms, j)
    ensures b in FrameOf(log, ms).candles
    ensures FrameOf(log, ms).candles[b].open == log[i].price && FrameOf(log, ms).candles[b].close == log[j].price
  {
    hide FrameOf;
    var f := FrameOf(log, ms);
    assert BucketOk(f.candles, f.bounds, f.volumes, ms, log, b);
    assert !Empty(log, b, b + ms);
    var s := Kept(f.candles[b], f.bounds[b], f.volumes[b]);
    var a :| Opens(log, b, b + ms, a) && s.open == log[a].price && s.first == log[a].time;
    var c :| Closes(log, b, b + ms, c) && s.close == log[c].price && s.last == log[c].time;
    assert a == i && c == j;
  }

  /** Every order of the log shows the same frame. */
  ghost predicate OrderFree(p: seq<Tick>, ms: int)
    requires ms > 0
  {
    forall q :: multiset(q) == multiset(p) ==> FrameOf(q, ms) == FrameOf(p, ms)
  }

  lemma EdgeOf(p: seq<Tick>, lo: int, hi: int, k: int) returns (i: int, j: int)
    requires 0 <= k < |p| && Within(p[k], lo, hi)
    ensures Opens(p, lo, hi, i) && Closes(p, lo, hi, j)
  {
    var n := |p| - 1;
    if k == n && Empty(p[..n], lo, hi) {
      i, j := n, n;
      forall m | 0 <= m < n ensures !Within(p[m], lo, hi) { assert p[..n][m] == p[m]; }
    } else {
      var m :| 0 <= m < n && Within(p[..n][m], lo, hi);
      i, j := EdgeOf(p[..n], lo, hi, m);
      assert forall x :: 0 <= x < n ==> p[..n][x] == p[x];
      if Within(p[n], lo, hi) {
        if p[n].time < p[i].time { i := n; }
        if p[n].time >= p[j].time { j := n; }
      }
    }
  }

  /** If every order shows the same open, the earliest trades of the bucket agree. */
  lemma OpenMustBeDecided(p: seq<Tick>, ms: int, b: int)
    requires ms > 0 && b % ms == 0 && OrderFree(p, ms)
    ensures OpenDecided(p, b, b + ms)
  {
    hide FrameOf;
    forall i, k | Earliest(p, b, b + ms, i) && Earliest(p, b, b + ms, k) ensures p[i].price == p[k].price {
      OpenShows(p, ms, b, i);
      OpenShows(p, ms, b, k);
    }
  }

  lemma OpenShows(p: seq<Tick>, ms: int, b: int, k: int)
    requires ms > 0 && b % ms == 0 && OrderFree(p, ms) && Earliest(p, b, b + ms, k)
    ensures b in FrameOf(p, ms).candles && FrameOf(p, ms).candles[b].open == p[k].price
  {
    hide FrameOf;
    var q := ToFront(p, k);
    MovedOpens(p, b, b + ms, k);
    var i, j := EdgeOf(q, b, b + ms, 0);
    ShownEdges(q, ms, b, 0, j);
    assert FrameOf(q, ms) == FrameOf(p, ms);
  }

  lemma CloseShows(p: seq<Tick>, ms: int, b: int, k: int)
    requires ms > 0 && b % ms == 0 && OrderFree(p, ms) && Latest(p, b, b + ms, k)
    ensures b in FrameOf(p, ms).candles && FrameOf(p, ms).candles[b].close == p[k].price
  {
    hide FrameOf;
    var q := ToBack(p, k);
    MovedCloses(p, b, b + ms, k);
    var i, j := EdgeOf(q, b, b + ms, |p| - 1);
    ShownEdges(q, ms, b, i, |p| - 1);
    assert FrameOf(q, ms) == FrameOf(p, ms);
  }

  lemma CloseMustBeDecided(p: seq<Tick>, ms: int, b: int)
    requires ms > 0 && b % ms == 0 && OrderFree(p, ms)
    ensures CloseDecided(p, b, b + ms)
  {
    hide FrameOf;
    forall i, k | Latest(p, b, b + ms, i) && Latest(p, b, b + ms, k) ensures p[i].price == p[k].price {
      CloseShows(p, ms, b, i);
      CloseShows(p, ms, b, k);
    }
  }

  /**
   The order of arrival does not show exactly when, in every bucket, the trades at its earliest
   time agree in price and so do those at its latest.
   */
  lemma OrderIsIrrelevantIff(p: seq<Tick>, ms: int)
    requires ms > 0
    ensures OrderFree(p, ms) <==> EdgesDecided(p, ms)
  {
    hide FrameOf, OpenDecided, CloseDecided;
    if EdgesDecided(p, ms) {
      forall q | multiset(q) == multiset(p) ensures FrameOf(q, ms) == FrameOf(p, ms) {
        FramesAgree(FrameOf(p, ms), FrameOf(q, ms), ms, p, q);
      }
    }
    if OrderFree(p, ms) {
      forall b | b % ms == 0 ensures OpenDecided(p, b, b + ms) && CloseDecided(p, b, b + ms) {
        OpenMustBeDecided(p, ms, b);
        CloseMustBeDecided(p, ms, b);
      }
    }
  }

  /** Two trades of one time and two prices: the order they arrive in shows. */
  lemma TiedTradesShowOrder(first: Tick, second: Tick, ms: int)
    requires ms > 0 && first.time == second.time && first.price != second.price
    ensures !OrderFree([first, second], ms)
  {
    hide FrameOf;
    var p, b := [first, second], BucketOf(first.time, ms);
    BucketHolds(first.time, ms);
    assert Earliest(p, b, b + ms, 0) && Earliest(p, b, b + ms, 1);
    assert !OpenDecided(p, b, b + ms);
    OrderIsIrrelevantIff(p, ms);
  }

  /** Distinct timestamps decide every edge. */
  lemma DistinctTimesDecide(p: seq<Tick>, ms: int)
    requires ms > 0 && forall i, j :: 0 <= i < j < |p| ==> p[i].time != p[j].time
    ensures EdgesDecided(p, ms)
  {
    forall b | b % ms == 0 ensures OpenDecided(p, b, b + ms) && CloseDecided(p, b, b + ms) {
      forall i, k | Earliest(p, b, b + ms, i) && Earliest(p, b, b + ms, k) ensures p[i].price == p[k].price {}
      forall i, k | Latest(p, b, b + ms, i) && Latest(p, b, b + ms, k) ensures p[i].price == p[k].price {}
    }
  }

  // ---------------------------------------------------------------- coarser timeframes

  /** One candle for two adjacent stretches of time, the earlier one first. */
  function Merge(a: Option<Summary>, b: Option<Summary>): Option<Summary> {
    if a.None? then b else if b.None? then a
    else
      var x, y := a.value, b.value;
      Some(Summary(x.open, if x.high >= y.high then x.high else y.high, if x.low <= y.low then x.low else y.low,
                   y.close, x.first, y.last, x.volume + y.volume))
  }

  ghost predicate Describes(o: Option<Summary>, log: seq<Tick>, lo: int, hi: int) {
    match o
    case None => Empty(log, lo, hi)
    case Some(s) => Summarises(s, log, lo, hi)
  }

  lemma {:induction false} VolumeAdds(log: seq<Tick>, lo: int, mid: int, hi: int)
    requires lo <= mid <= hi
    ensures VolumeIn(log, lo, hi) == VolumeIn(log, lo, mid) + VolumeIn(log, mid, hi)
  {
    if log != [] { VolumeAdds(log[..|log| - 1], lo, mid, hi); }
  }

  lemma WidenEmpty(s: Summary, log: seq<Tick>, lo: int, mid: int, hi: int, left: bool)
    requires lo <= mid <= hi
    requires if left then Summarises(s, log, lo, mid) && Empty(log, mid, hi)
             else Empty(log, lo, mid) && Summarises(s, log, mid, hi)
    ensures Summarises(s, log, lo, hi)
  {
    var lo', hi' := if left then lo else mid, if left then mid else hi;
    VolumeAdds(log, lo, mid, hi);
    VolumeOfEmpty(log, if left then mid else lo, if left then hi else mid);
    assert forall i :: 0 <= i < |log| ==> (Within(log[i], lo, hi) <==> Within(log[i], lo', hi'));
    var a :| Opens(log, lo', hi', a) && s.open == log[a].price && s.first == log[a].time;
    assert Opens(log, lo, hi, a);
    var b :| Closes(log, lo', hi', b) && s.close == log[b].price && s.last == log[b].time;
    assert Closes(log, lo, hi, b);
    var c :| Tops(log, lo', hi', c) && s.high == log[c].price;
    assert Tops(log, lo, hi, c);
    var d :| Bottoms(log, lo', hi', d) && s.low == log[d].price;
    assert Bottoms(log, lo, hi, d);
  }

  lemma MergeEnds(x: Summary, y: Summary, log: seq<Tick>, lo: int, mid: int, hi: int)
    requires lo <= mid <= hi && Summarises(x, log, lo, mid) && Summarises(y, log, mid, hi)
    ensures exists i :: Opens(log, lo, hi, i) && x.open == log[i].price && x.first == log[i].time
    ensures exists i :: Closes(log, lo, hi, i) && y.close == log[i].price && y.last == log[i].time
  {
    var a :| Opens(log, lo, mid, a) && x.open == log[a].price && x.first == log[a].time;
    assert Opens(log, lo, hi, a);
    var b :| Closes(log, mid, hi, b) && y.close == log[b].price && y.last == log[b].time;
    assert Closes(log, lo, hi, b);
  }

  lemma MergeHigh(x: Summary, y: Summary, log: seq<Tick>, lo: int, mid: int, hi: int)
    requires lo <= mid <= hi && Summarises(x, log, lo, mid) && Summarises(y, log, mid, hi)
    ensures exists i :: Tops(log, lo, hi, i) && Merge(Some(x), Some(y)).value.high == log[i].price
  {
    var a :| Tops(log, lo, mid, a) && x.high == log[a].price;
    var b :| Tops(log, mid, hi, b) && y.high == log[b].price;
    assert Tops(log, lo, hi, if x.high >= y.high then a else b);
  }

  lemma MergeLow(x: Summary, y: Summary, log: seq<Tick>, lo: int, mid: int, hi: int)
    requires lo <= mid <= hi && Summarises(x, log, lo, mid) && Summarises(y, log, mid, hi)
    ensures exists i :: Bottoms(log, lo, hi, i) && Merge(Some(x), Some(y)).value.low == log[i].price
  {
    var c :| Bottoms(log, lo, mid, c) && x.low == log[c].price;
    var d :| Bottoms(log, mid, hi, d) && y.low == log[d].price;
    assert Bottoms(log, lo, hi, if x.low <= y.low then c else d);
  }

  /** Merging two adjacent batch results gives the batch result of the joined range. */
  lemma MergeDescribes(a: Option<Summary>, b: Option<Summary>, log: seq<Tick>, lo: int, mid: int, hi: int)
    requires lo <= mid <= hi && Describes(a, log, lo, mid) && Describes(b, log, mid, hi)
    ensures Describes(Merge(a, b), log, lo, hi)
  {
    if a.None? && b.None? {
      assert Empty(log, lo, hi);
    } else if a.None? {
      WidenEmpty(b.value, log, lo, mid, hi, false);
    } else if b.None? {
      WidenEmpty(a.value, log, lo, mid, hi, true);
    } else {
      MergeEnds(a.value, b.value, log, lo, mid, hi);
      MergeHigh(a.value, b.value, log, lo, mid, hi);
      MergeLow(a.value, b.value, log, lo, mid, hi);
      VolumeAdds(log, lo, mid, hi);
    }
  }

  /** What a timeframe shows for one bucket. */
  function Shown(cs: CandleMap, bs: BoundsMap, vs: VolumeMap, bucket: int): Option<Summary> {
    if bucket in cs && bucket in bs && bucket in vs then Some(Kept(cs[bucket], bs[bucket], vs[bucket])) else None
  }

  /** The first `n` buckets of a timeframe from `lo` on, merged left to right. */
  function MergeRow(cs: CandleMap, bs: BoundsMap, vs: VolumeMap, ms: int, lo: int, n: nat): Option<Summary> {
    if n == 0 then None else Merge(MergeRow(cs, bs, vs, ms, lo, n - 1), Shown(cs, bs, vs, lo + (n - 1) * ms))
  }

  lemma {:induction false} RowDescribes(cs: CandleMap, bs: BoundsMap, vs: VolumeMap, ms: int, log: seq<Tick>,
      lo: int, n: nat)
    requires ms > 0 && lo % ms == 0 && FrameOk(cs, bs, vs, ms, log)
    ensures Describes(MergeRow(cs, bs, vs, ms, lo, n), log, lo, lo + n * ms)
  {
    hide Summarises;
    if n == 0 {
    } else {
      var mid := lo + (n - 1) * ms;
      RowDescribes(cs, bs, vs, ms, log, lo, n - 1);
      StepMultiple(ms, lo, n - 1);
      ScaleMonotone(0, n - 1, ms);
      assert BucketOk(cs, bs, vs, ms, log, mid);
      assert mid + ms == lo + n * ms;
      MergeDescribes(MergeRow(cs, bs, vs, ms, lo, n - 1), Shown(cs, bs, vs, mid), log, lo, mid, mid + ms);
    }
  }

  lemma StepMultiple(m: int, lo: int, k: int)
    requires m > 0 && lo % m == 0
    ensures (lo + k * m) % m == 0
  {
    var q := lo / m;
    assert lo + k * m == m * (q + k);
    MultipleMod(m, q + k);
  }

  /** A bucket of a timeframe `n` times as long shows exactly its `n` finer buckets merged. */
  lemma CoarseIsMergedFine(cs: CandleMap, bs: BoundsMap, vs: VolumeMap, cs': CandleMap, bs': BoundsMap, vs': VolumeMap,
                           fine: int, n: nat, log: seq<Tick>, bucket: int)
    requires fine > 0 && n > 0
    requires FrameOk(cs, bs, vs, fine, log) && n * fine > 0 && FrameOk(cs', bs', vs', n * fine, log)
    requires bucket % (n * fine) == 0
    ensures Shown(cs', bs', vs', bucket) == MergeRow(cs, bs, vs, fine, bucket, n)
  {
    hide Summarises;
    var q := bucket / (n * fine);
    assert bucket == (n * fine) * q;
    assert (n * fine) * q == fine * (n * q);
    MultipleMod(fine, n * q);
    RowDescribes(cs, bs, vs, fine, log, bucket, n);
    assert BucketOk(cs', bs', vs', n * fine, log, bucket);
    var coarse, row := Shown(cs', bs', vs', bucket), MergeRow(cs, bs, vs, fine, bucket, n);
    assert Describes(coarse, log, bucket, bucket + n * fine) && Describes(row, log, bucket, bucket + n * fine);
    DescriptionUnique(coarse, row, log, bucket, bucket + n * fine);
  }

  lemma DescriptionUnique(a: Option<Summary>, b: Option<Summary>, log: seq<Tick>, lo: int, hi: int)
    requires Describes(a, log, lo, hi) && Describes(b, log, lo, hi)
    ensures a == b
  {
    if a.Some? && b.Some? { SummaryUnique(a.value, b.value, log, lo, hi); }
  }

  /** Each timeframe of the chart divides the next one. */
  lemma TimeframesNest(i: int)
    requires 0 <= i && i + 1 < |TIMEFRAMES|
    ensures TIMEFRAMES[i] > 0 && TIMEFRAMES[i + 1] % TIMEFRAMES[i] == 0
    ensures TIMEFRAMES[i + 1] == (TIMEFRAMES[i + 1] / TIMEFRAMES[i]) * TIMEFRAMES[i]
  {
  }
}
