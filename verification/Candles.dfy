/** OHLCV aggregation: trades are folded into candles of six timeframes as they arrive. */
module Candles {
  import opened Arithmetic

  /** One trade as the chart sees it; times are milliseconds. */
  datatype Tick = Tick(price: real, quantity: real, time: int)

  datatype Candle = Candle(time: int, open: real, high: real, low: real, close: real)

  datatype Bounds = Bounds(firstTs: int, lastTs: int)

  /** The volume bar; `rising` is its colour. */
  datatype Volume = Volume(time: int, value: real, rising: bool)

  const TIMEFRAMES: seq<int> := [60_000, 300_000, 900_000, 3_600_000, 14_400_000, 86_400_000]

  function BucketOf(time: int, ms: int): int
    requires ms > 0
  {
    time / ms * ms
  }

  // ---------------------------------------------------------------- batch definitions

  predicate Within(t: Tick, lo: int, hi: int) {
    lo <= t.time < hi
  }

  predicate Empty(log: seq<Tick>, lo: int, hi: int) {
    forall i :: 0 <= i < |log| ==> !Within(log[i], lo, hi)
  }

  /** The earliest trade of the range; of several at that time the first ingested. */
  predicate Opens(log: seq<Tick>, lo: int, hi: int, i: int) {
    && 0 <= i < |log| && Within(log[i], lo, hi)
    && forall j :: 0 <= j < |log| && Within(log[j], lo, hi) ==>
         log[i].time < log[j].time || (log[i].time == log[j].time && i <= j)
  }

  /** The latest trade of the range; of several at that time the last ingested. */
  predicate Closes(log: seq<Tick>, lo: int, hi: int, i: int) {
    && 0 <= i < |log| && Within(log[i], lo, hi)
    && forall j :: 0 <= j < |log| && Within(log[j], lo, hi) ==>
         log[j].time < log[i].time || (log[j].time == log[i].time && j <= i)
  }

  predicate Tops(log: seq<Tick>, lo: int, hi: int, i: int) {
    && 0 <= i < |log| && Within(log[i], lo, hi)
    && forall j :: 0 <= j < |log| && Within(log[j], lo, hi) ==> log[j].price <= log[i].price
  }

  predicate Bottoms(log: seq<Tick>, lo: int, hi: int, i: int) {
    && 0 <= i < |log| && Within(log[i], lo, hi)
    && forall j :: 0 <= j < |log| && Within(log[j], lo, hi) ==> log[i].price <= log[j].price
  }

  function VolumeIn(log: seq<Tick>, lo: int, hi: int): real {
    if log == [] then 0.0
    else
      var t := log[|log| - 1];
      VolumeIn(log[..|log| - 1], lo, hi) + (if Within(t, lo, hi) then t.quantity else 0.0)
  }

  /** Everything kept about one bucket. */
  datatype Summary = Summary(open: real, high: real, low: real, close: real, first: int, last: int, volume: real)

  /** The batch result for a range of time. */
  ghost predicate Summarises(s: Summary, log: seq<Tick>, lo: int, hi: int) {
    && (exists i :: Opens(log, lo, hi, i) && s.open == log[i].price && s.first == log[i].time)
    && (exists i :: Closes(log, lo, hi, i) && s.close == log[i].price && s.last == log[i].time)
    && (exists i :: Tops(log, lo, hi, i) && s.high == log[i].price)
    && (exists i :: Bottoms(log, lo, hi, i) && s.low == log[i].price)
    && s.volume == VolumeIn(log, lo, hi)
  }

  /** The batch result is unique. */
  lemma SummaryUnique(s: Summary, t: Summary, log: seq<Tick>, lo: int, hi: int)
    requires Summarises(s, log, lo, hi) && Summarises(t, log, lo, hi)
    ensures s == t
  {
    var a :| Opens(log, lo, hi, a) && s.open == log[a].price && s.first == log[a].time;
    var b :| Opens(log, lo, hi, b) && t.open == log[b].price && t.first == log[b].time;
    assert a == b;
    var c :| Closes(log, lo, hi, c) && s.close == log[c].price && s.last == log[c].time;
    var d :| Closes(log, lo, hi, d) && t.close == log[d].price && t.last == log[d].time;
    assert c == d;
  }

  // ---------------------------------------------------------------- one more trade

  function First(t: Tick): Summary {
    Summary(t.price, t.price, t.price, t.price, t.time, t.time, t.quantity)
  }

  function Fold(s: Summary, t: Tick): Summary {
    Summary(
      if t.time < s.first then t.price else s.open,
      if t.price > s.high then t.price else s.high,
      if t.price < s.low then t.price else s.low,
      if t.time >= s.last then t.price else s.close,
      if t.time < s.first then t.time else s.first,
      if t.time >= s.last then t.time else s.last,
      s.volume + t.quantity)
  }

  lemma VolumeAppend(log: seq<Tick>, t: Tick, lo: int, hi: int)
    ensures VolumeIn(log + [t], lo, hi) == VolumeIn(log, lo, hi) + (if Within(t, lo, hi) then t.quantity else 0.0)
  {
    assert (log + [t])[..|log + [t]| - 1] == log;
  }

  lemma {:induction false} VolumeOfEmpty(log: seq<Tick>, lo: int, hi: int)
    requires Empty(log, lo, hi)
    ensures VolumeIn(log, lo, hi) == 0.0
  {
    if log != [] { VolumeOfEmpty(log[..|log| - 1], lo, hi); }
  }

  /** A trade outside a range changes nothing in it. */
  lemma OutsideKeeps(s: Summary, log: seq<Tick>, t: Tick, lo: int, hi: int)
    requires Summarises(s, log, lo, hi) && !Within(t, lo, hi)
    ensures Summarises(s, log + [t], lo, hi)
  {
    var log' := log + [t];
    VolumeAppend(log, t, lo, hi);
    var a :| Opens(log, lo, hi, a) && s.open == log[a].price && s.first == log[a].time;
    assert Opens(log', lo, hi, a);
    var b :| Closes(log, lo, hi, b) && s.close == log[b].price && s.last == log[b].time;
    assert Closes(log', lo, hi, b);
    var c :| Tops(log, lo, hi, c) && s.high == log[c].price;
    assert Tops(log', lo, hi, c);
    var d :| Bottoms(log, lo, hi, d) && s.low == log[d].price;
    assert Bottoms(log', lo, hi, d);
  }

  lemma FirstSummarises(log: seq<Tick>, t: Tick, lo: int, hi: int)
    requires Empty(log, lo, hi) && Within(t, lo, hi)
    ensures Summarises(First(t), log + [t], lo, hi)
  {
    var log' := log + [t];
    var n := |log|;
    VolumeAppend(log, t, lo, hi);
    VolumeOfEmpty(log, lo, hi);
    assert log'[n] == t;
    assert Opens(log', lo, hi, n) && Closes(log', lo, hi, n) && Tops(log', lo, hi, n) && Bottoms(log', lo, hi, n);
  }

  lemma FoldOpens(s: Summary, log: seq<Tick>, t: Tick, lo: int, hi: int)
    requires Summarises(s, log, lo, hi) && Within(t, lo, hi)
    ensures exists i ::
              && Opens(log + [t], lo, hi, i)
              && Fold(s, t).open == (log + [t])[i].price && Fold(s, t).first == (log + [t])[i].time
  {
    var log' := log + [t];
    var a :| Opens(log, lo, hi, a) && s.open == log[a].price && s.first == log[a].time;
    if t.time < s.first { assert Opens(log', lo, hi, |log|); } else { assert Opens(log', lo, hi, a); }
  }

  lemma FoldCloses(s: Summary, log: seq<Tick>, t: Tick, lo: int, hi: int)
    requires Summarises(s, log, lo, hi) && Within(t, lo, hi)
    ensures exists i ::
              && Closes(log + [t], lo, hi, i)
              && Fold(s, t).close == (log + [t])[i].price && Fold(s, t).last == (log + [t])[i].time
  {
    var log' := log + [t];
    var a :| Closes(log, lo, hi, a) && s.close == log[a].price && s.last == log[a].time;
    if t.time >= s.last { assert Closes(log', lo, hi, |log|); } else { assert Closes(log', lo, hi, a); }
  }

  /** Folding one more trade of the range into its batch result gives the new batch result. */
  lemma FoldSummarises(s: Summary, log: seq<Tick>, t: Tick, lo: int, hi: int)
    requires Summarises(s, log, lo, hi) && Within(t, lo, hi)
    ensures Summarises(Fold(s, t), log + [t], lo, hi)
  {
    var log' := log + [t];
    VolumeAppend(log, t, lo, hi);
    FoldOpens(s, log, t, lo, hi);
    FoldCloses(s, log, t, lo, hi);
    var c :| Tops(log, lo, hi, c) && s.high == log[c].price;
    assert if t.price > s.high then Tops(log', lo, hi, |log|) else Tops(log', lo, hi, c);
    var d :| Bottoms(log, lo, hi, d) && s.low == log[d].price;
    assert if t.price < s.low then Bottoms(log', lo, hi, |log|) else Bottoms(log', lo, hi, d);
  }

  // ---------------------------------------------------------------- one timeframe

  type CandleMap = map<int, Candle>
  type BoundsMap = map<int, Bounds>
  type VolumeMap = map<int, Volume>

  function Kept(c: Candle, b: Bounds, v: Volume): Summary {
    Summary(c.open, c.high, c.low, c.close, b.firstTs, b.lastTs, v.value)
  }

  /** A bucket is present exactly when a trade fell into it, and then holds the batch result. */
  ghost predicate BucketOk(cs: CandleMap, bs: BoundsMap, vs: VolumeMap, ms: int, log: seq<Tick>, bucket: int)
    requires ms > 0
  {
    && (bucket in cs <==> bucket % ms == 0 && !Empty(log, bucket, bucket + ms))
    && (bucket in bs <==> bucket in cs) && (bucket in vs <==> bucket in cs)
    && (bucket in cs ==>
          && Summarises(Kept(cs[bucket], bs[bucket], vs[bucket]), log, bucket, bucket + ms)
          && cs[bucket].time == vs[bucket].time == bucket / 1000
          && vs[bucket].rising == (cs[bucket].close >= cs[bucket].open))
  }

  ghost predicate FrameOk(cs: CandleMap, bs: BoundsMap, vs: VolumeMap, ms: int, log: seq<Tick>)
    requires ms > 0
  {
    forall bucket :: BucketOk(cs, bs, vs, ms, log, bucket)
  }

  lemma BucketHolds(time: int, ms: int)
    requires ms > 0
    ensures BucketOf(time, ms) <= time < BucketOf(time, ms) + ms && BucketOf(time, ms) % ms == 0
    ensures forall b :: b % ms == 0 && b <= time < b + ms ==> b == BucketOf(time, ms)
  {
    assert time == ms * (time / ms) + time % ms;
    var k := time / ms;
    assert BucketOf(time, ms) == ms * k;
    MultipleMod(ms, k);
    forall b | b % ms == 0 && b <= time < b + ms ensures b == BucketOf(time, ms) {
      assert b == ms * (b / ms);
      NoMultipleBetween(ms, b / ms, k);
    }
  }

  /** Buckets other than the trade's own are untouched, by the maps and by the batch results. */
  lemma OtherBucketKeeps(cs: CandleMap, bs: BoundsMap, vs: VolumeMap, cs': CandleMap, bs': BoundsMap, vs': VolumeMap,
                         ms: int, log: seq<Tick>, t: Tick, bucket: int)
    requires ms > 0 && BucketOk(cs, bs, vs, ms, log, bucket)
    requires bucket != BucketOf(t.time, ms)
    requires (bucket in cs' <==> bucket in cs) && (bucket in bs' <==> bucket in bs) && (bucket in vs' <==> bucket in vs)
    requires bucket in cs ==> cs'[bucket] == cs[bucket] && bs'[bucket] == bs[bucket] && vs'[bucket] == vs[bucket]
    ensures BucketOk(cs', bs', vs', ms, log + [t], bucket)
  {
    hide Summarises;
    BucketHolds(t.time, ms);
    if bucket % ms == 0 {
      assert !Within(t, bucket, bucket + ms);
      assert forall i :: 0 <= i < |log| ==> (log + [t])[i] == log[i];
      assert Empty(log, bucket, bucket + ms) <==> Empty(log + [t], bucket, bucket + ms);
      if bucket in cs {
        OutsideKeeps(Kept(cs[bucket], bs[bucket], vs[bucket]), log, t, bucket, bucket + ms);
      }
    }
  }

  /** The entries one trade writes into its bucket. */
  function NextCandle(cs: CandleMap, bs: BoundsMap, bucket: int, t: Tick): Candle
    requires bucket in cs ==> bucket in bs
  {
    if bucket !in cs then Candle(bucket / 1000, t.price, t.price, t.price, t.price)
    else
      var c, b := cs[bucket], bs[bucket];
      Candle(c.time,
             if t.time < b.firstTs then t.price else c.open,
             if c.high >= t.price then c.high else t.price,
             if c.low <= t.price then c.low else t.price,
             if t.time >= b.lastTs then t.price else c.close)
  }

  function NextBounds(cs: CandleMap, bs: BoundsMap, bucket: int, t: Tick): Bounds
    requires bucket in cs ==> bucket in bs
  {
    if bucket !in cs then Bounds(t.time, t.time)
    else
      Bounds(if t.time < bs[bucket].firstTs then t.time else bs[bucket].firstTs,
             if t.time >= bs[bucket].lastTs then t.time else bs[bucket].lastTs)
  }

  function NextVolume(vs: VolumeMap, bucket: int, c: Candle, t: Tick): Volume {
    Volume(if bucket in vs then vs[bucket].time else bucket / 1000,
           if bucket in vs then vs[bucket].value + t.quantity else t.quantity,
           c.close >= c.open)
  }

  lemma OwnBucketKeeps(cs: CandleMap, bs: BoundsMap, vs: VolumeMap, ms: int, log: seq<Tick>, t: Tick)
    requires ms > 0 && BucketOk(cs, bs, vs, ms, log, BucketOf(t.time, ms))
    ensures
      var b := BucketOf(t.time, ms);
      var c := NextCandle(cs, bs, b, t);
      BucketOk(cs[b := c], bs[b := NextBounds(cs, bs, b, t)], vs[b := NextVolume(vs, b, c, t)], ms, log + [t], b)
  {
    hide Summarises;
    var b := BucketOf(t.time, ms);
    var c := NextCandle(cs, bs, b, t);
    BucketHolds(t.time, ms);
    assert (log + [t])[|log|] == t && Within(t, b, b + ms);
    var s' := Kept(c, NextBounds(cs, bs, b, t), NextVolume(vs, b, c, t));
    if b in cs {
      var s := Kept(cs[b], bs[b], vs[b]);
      FoldSummarises(s, log, t, b, b + ms);
      assert s' == Fold(s, t);
    } else {
      FirstSummarises(log, t, b, b + ms);
      assert s' == First(t);
    }
  }

  /** Writing a trade's entries keeps every bucket of a timeframe at its batch result. */
  lemma FrameKeeps(cs: CandleMap, bs: BoundsMap, vs: VolumeMap, ms: int, log: seq<Tick>, t: Tick)
    requires ms > 0 && FrameOk(cs, bs, vs, ms, log)
    ensures
      var b := BucketOf(t.time, ms);
      assert BucketOk(cs, bs, vs, ms, log, b);
      var c := NextCandle(cs, bs, b, t);
      FrameOk(cs[b := c], bs[b := NextBounds(cs, bs, b, t)], vs[b := NextVolume(vs, b, c, t)], ms, log + [t])
  {
    var b := BucketOf(t.time, ms);
    assert BucketOk(cs, bs, vs, ms, log, b);
    var c := NextCandle(cs, bs, b, t);
    var cs', bs', vs' := cs[b := c], bs[b := NextBounds(cs, bs, b, t)], vs[b := NextVolume(vs, b, c, t)];
    forall bucket ensures BucketOk(cs', bs', vs', ms, log + [t], bucket) {
      assert BucketOk(cs, bs, vs, ms, log, bucket);
      if bucket == b {
        OwnBucketKeeps(cs, bs, vs, ms, log, t);
      } else {
        OtherBucketKeeps(cs, bs, vs, cs', bs', vs', ms, log, t, bucket);
      }
    }
  }

  lemma SameBuckets(cs: CandleMap, bs: BoundsMap, vs: VolumeMap, ms: int, log: seq<Tick>, bucket: int)
    requires ms > 0 && FrameOk(cs, bs, vs, ms, log)
    ensures (bucket in bs <==> bucket in cs) && (bucket in vs <==> bucket in cs)
    ensures bucket in cs ==> cs[bucket].time == vs[bucket].time == bucket / 1000
  {
    assert BucketOk(cs, bs, vs, ms, log, bucket);
  }

  lemma EmptyFrame(ms: int)
    requires ms > 0
    ensures FrameOk(map[], map[], map[], ms, [])
  {
  }

  // ---------------------------------------------------------------- the chart

  function Of<T>(m: map<int, map<int, T>>, ms: int): map<int, T> {
    if ms in m then m[ms] else map[]
  }

  class Chart {
    var candles: map<int, CandleMap>
    var bounds: map<int, BoundsMap>
    var volumes: map<int, VolumeMap>
    ghost var log: seq<Tick>

    ghost predicate Valid()
      reads this
    {
      forall k :: 0 <= k < |TIMEFRAMES| ==> HoldsFor(TIMEFRAMES[k], log)
    }

    ghost predicate HoldsFor(ms: int, log: seq<Tick>)
      reads this
    {
      ms > 0 && FrameOk(Of(candles, ms), Of(bounds, ms), Of(volumes, ms), ms, log)
    }

    constructor ()
      ensures Valid() && log == []
    {
      candles, bounds, volumes, log := map[], map[], map[], [];
      new;
      forall k | 0 <= k < |TIMEFRAMES| ensures HoldsFor(TIMEFRAMES[k], log) {
        EmptyFrame(TIMEFRAMES[k]);
      }
    }

    /** The candle and its time bounds after a trade: created, or updated field by field. */
    static method UpdateCandle(cs: CandleMap, bs: BoundsMap, candleTime: int, t: Tick)
        returns (candle: Candle, limits: Bounds)
      requires candleTime in cs ==> candleTime in bs
      ensures candle == NextCandle(cs, bs, candleTime, t) && limits == NextBounds(cs, bs, candleTime, t)
    {
      if candleTime !in cs {
        candle := Candle(candleTime / 1000, t.price, t.price, t.price, t.price);
        limits := Bounds(t.time, t.time);
      } else {
        candle, limits := cs[candleTime], bs[candleTime];
        if t.time < limits.firstTs {
          candle := candle.(open := t.price);
          limits := limits.(firstTs := t.time);
        }
        if t.time >= limits.lastTs {
          candle := candle.(close := t.price);
          limits := limits.(lastTs := t.time);
        }
        candle := candle.(high := if candle.high >= t.price then candle.high else t.price);
        candle := candle.(low := if candle.low <= t.price then candle.low else t.price);
      }
    }

    /** One trade into one timeframe. */
    method IngestInto(t: Tick, ms: int, ghost seen: seq<Tick>)
      requires HoldsFor(ms, seen)
      modifies `candles, `bounds, `volumes
      ensures HoldsFor(ms, seen + [t])
      ensures forall other, past :: other != ms && old(HoldsFor(other, past)) ==> HoldsFor(other, past)
    {
      hide BucketOk, NextCandle, NextBounds;
      var candleTime := BucketOf(t.time, ms);
      var cs, bs, vs := Of(candles, ms), Of(bounds, ms), Of(volumes, ms);
      SameBuckets(cs, bs, vs, ms, seen, candleTime);
      FrameKeeps(cs, bs, vs, ms, seen, t);
      var candle, limits := UpdateCandle(cs, bs, candleTime, t);
      candles := candles[ms := cs[candleTime := candle]];
      bounds := bounds[ms := bs[candleTime := limits]];
      var vol;
      if candleTime !in vs {
        vol := Volume(candleTime / 1000, t.quantity, candle.close >= candle.open);
      } else {
        vol := vs[candleTime].(value := vs[candleTime].value + t.quantity, rising := candle.close >= candle.open);
      }
      volumes := volumes[ms := vs[candleTime := vol]];
      assert vol == NextVolume(vs, candleTime, candle, t);
    }

    /** Every timeframe then holds the batch results of the log with this trade appended. */
    method IngestTrade(price: real, quantity: real, tradeTime: int)
      requires Valid()
      modifies this
      ensures Valid() && log == old(log) + [Tick(price, quantity, tradeTime)]
    {
      var t := Tick(price, quantity, tradeTime);
      var i := 0;
      while i < |TIMEFRAMES|
        invariant 0 <= i <= |TIMEFRAMES| && log == old(log)
        invariant forall k :: 0 <= k < i ==> HoldsFor(TIMEFRAMES[k], log + [t])
        invariant forall k :: i <= k < |TIMEFRAMES| ==> HoldsFor(TIMEFRAMES[k], log)
      {
        IngestInto(t, TIMEFRAMES[i], log);
        i := i + 1;
      }
      log := log + [t];
    }
  }
}
