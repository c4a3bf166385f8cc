/** The market maker's running price statistics over the latest trades of each ticker. */
module TradeStats {

  datatype Trade = Trade(price: real, quantity: real, timestamp: int)

  const MAX_TRADES_WINDOW: nat := 1000

  // ---------------------------------------------------------------- recomputation

  function Sum(xs: seq<real>): real {
    if xs == [] then 0.0 else Sum(xs[..|xs| - 1]) + xs[|xs| - 1]
  }

  function SumSquares(xs: seq<real>): real {
    if xs == [] then 0.0 else SumSquares(xs[..|xs| - 1]) + xs[|xs| - 1] * xs[|xs| - 1]
  }

  function Mean(xs: seq<real>): real
    requires xs != []
  {
    Sum(xs) / |xs| as real
  }

  /** Sum of squared distances from `m`: the second pass of the textbook variance. */
  function Deviations(xs: seq<real>, m: real): real {
    if xs == [] then 0.0
    else
      var d := xs[|xs| - 1] - m;
      Deviations(xs[..|xs| - 1], m) + d * d
  }

  /** Two-pass sample variance. */
  function SampleVariance(xs: seq<real>): real {
    if |xs| < 2 then 0.0 else Deviations(xs, Mean(xs)) / (|xs| - 1) as real
  }

  lemma {:induction false} DropFirst(xs: seq<real>)
    requires xs != []
    ensures Sum(xs) == xs[0] + Sum(xs[1..])
    ensures SumSquares(xs) == xs[0] * xs[0] + SumSquares(xs[1..])
  {
    if |xs| == 1 {
      assert xs[..0] == [] && xs[1..] == [];
    } else {
      var n := |xs| - 1;
      DropFirst(xs[..n]);
      assert xs[..n][0] == xs[0] && xs[..n][1..] == xs[1..][..n - 1] && xs[1..][n - 1] == xs[n];
    }
  }

  lemma Append(xs: seq<real>, x: real)
    ensures Sum(xs + [x]) == Sum(xs) + x
    ensures SumSquares(xs + [x]) == SumSquares(xs) + x * x
  {
    assert (xs + [x])[..|xs|] == xs;
  }

  lemma Square(d: real)
    ensures d * d >= 0.0
  {
    if d < 0.0 { assert d * d == (-d) * (-d); }
  }

  lemma {:induction false} DeviationsNonNegative(xs: seq<real>, m: real)
    ensures Deviations(xs, m) >= 0.0
  {
    if xs != [] {
      DeviationsNonNegative(xs[..|xs| - 1], m);
      Square(xs[|xs| - 1] - m);
    }
  }

  /** Squared distances from `m`, expanded, in terms of the sums. */
  function Expanded(q: real, s: real, n: real, m: real): real {
    q - 2.0 * m * s + n * (m * m)
  }

  /** The identity behind the one-pass formula. */
  lemma {:induction false} DeviationsExpand(xs: seq<real>, m: real)
    ensures Deviations(xs, m) == Expanded(SumSquares(xs), Sum(xs), |xs| as real, m)
  {
    if xs == [] {
    } else {
      var n := |xs| - 1;
      hide Expanded;
      DeviationsExpand(xs[..n], m);
      ExpandStep(SumSquares(xs[..n]), Sum(xs[..n]), n as real, xs[n], m);
    }
  }

  lemma ExpandStep(q: real, s: real, n: real, p: real, m: real)
    ensures Expanded(q, s, n, m) + (p - m) * (p - m) == Expanded(q + p * p, s + p, n + 1.0, m)
  {
    assert (p - m) * (p - m) == p * p - 2.0 * m * p + m * m;
    assert (n + 1.0) * (m * m) == n * (m * m) + m * m;
    assert 2.0 * m * (s + p) == 2.0 * m * s + 2.0 * m * p;
  }

  lemma ScaleQuotient(s: real, n: real, m: real)
    requires n != 0.0 && m == s / n
    ensures (s * s) / n == m * s && n * (m * m) == m * s
  {
    assert n * m == s;
    assert n * (m * m) == (n * m) * m;
    assert (m * s) * n == s * s;
  }

  lemma AtMean(q: real, s: real, n: real, m: real)
    requires n != 0.0 && m == s / n
    ensures Expanded(q, s, n, m) == q - (s * s) / n
  {
    ScaleQuotient(s, n, m);
    assert 2.0 * m * s == 2.0 * (m * s);
  }

  function Numerator(sumX: real, sumX2: real, count: nat): real
    requires count != 0
  {
    sumX2 - (sumX * sumX) / count as real
  }

  /** The one-pass numerator is the two-pass one, hence never negative. */
  lemma NumeratorIsDeviations(xs: seq<real>)
    requires xs != []
    ensures Numerator(Sum(xs), SumSquares(xs), |xs|) == Deviations(xs, Mean(xs)) >= 0.0
  {
    hide Sum;
    hide SumSquares;
    hide Deviations;
    hide Expanded;
    DeviationsExpand(xs, Mean(xs));
    DeviationsNonNegative(xs, Mean(xs));
    AtMean(SumSquares(xs), Sum(xs), |xs| as real, Mean(xs));
  }

  function OnePass(sumX: real, sumX2: real, count: nat): real
    requires count >= 2
  {
    Numerator(sumX, sumX2, count) / (count - 1) as real
  }

  /** The one-pass formula is the two-pass sample variance, and is non-negative before any clamp. */
  lemma OnePassIsSampleVariance(xs: seq<real>)
    requires |xs| >= 2
    ensures OnePass(Sum(xs), SumSquares(xs), |xs|) == SampleVariance(xs) >= 0.0
  {
    hide Sum;
    hide SumSquares;
    hide Deviations;
    hide Mean;
    hide Numerator;
    NumeratorIsDeviations(xs);
    var top, k := Deviations(xs, Mean(xs)), (|xs| - 1) as real;
    QuotientNonNegative(top, k);
  }

  lemma QuotientNonNegative(a: real, b: real)
    requires a >= 0.0 && b > 0.0
    ensures a / b >= 0.0
  {
  }

  // ---------------------------------------------------------------- incremental statistics

  class Stats {
    var sumX: real
    var sumX2: real
    var count: nat
    /** The prices added and not yet removed, oldest first. */
    ghost var prices: seq<real>

    ghost predicate Valid()
      reads this
    {
      sumX == Sum(prices) && sumX2 == SumSquares(prices) && count == |prices|
    }

    constructor ()
      ensures Valid() && prices == []
    {
      sumX, sumX2, count, prices := 0.0, 0.0, 0, [];
    }

    method AddTrade(price: real)
      requires Valid()
      modifies this
      ensures Valid() && prices == old(prices) + [price]
    {
      Append(prices, price);
      sumX := sumX + price;
      sumX2 := sumX2 + price * price;
      count := count + 1;
      prices := prices + [price];
    }

    method RemoveTrade(price: real)
      requires Valid() && prices != [] && price == prices[0]
      modifies this
      ensures Valid() && prices == old(prices)[1..]
    {
      DropFirst(prices);
      sumX := sumX - price;
      sumX2 := sumX2 - price * price;
      count := count - 1;
      prices := prices[1..];
    }

    /** `raw` is the value before the clamp: it is never negative, so the clamp changes nothing. */
    method GetVariance() returns (v: real, ghost raw: real)
      requires Valid()
      ensures v == SampleVariance(prices) >= 0.0
      ensures v == raw && (count >= 2 ==> raw == OnePass(sumX, sumX2, count))
    {
      if count < 2 { return 0.0, 0.0; }
      var variance := OnePass(sumX, sumX2, count);
      OnePassIsSampleVariance(prices);
      hide OnePass;
      hide SampleVariance;
      return if variance > 0.0 then variance else 0.0, variance;
    }
  }

  // ---------------------------------------------------------------- the sliding window

  /** The latest trades of a ticker, at most a full window. */
  function Latest(log: seq<Trade>): seq<Trade> {
    if |log| <= MAX_TRADES_WINDOW then log else log[|log| - MAX_TRADES_WINDOW..]
  }

  function LogOf(logs: map<string, seq<Trade>>, ticker: string): seq<Trade> {
    if ticker in logs then logs[ticker] else []
  }

  function Prices(w: seq<Trade>): seq<real> {
    seq(|w|, i requires 0 <= i < |w| => w[i].price)
  }

  /** Push at the back, then drop the front when over the limit. */
  function Slide(w: seq<Trade>, t: Trade): seq<Trade> {
    if |w| + 1 > MAX_TRADES_WINDOW then (w + [t])[1..] else w + [t]
  }

  /** Sliding keeps the window at the latest trades. */
  lemma SlideIsLatest(log: seq<Trade>, t: Trade)
    ensures Slide(Latest(log), t) == Latest(log + [t])
  {
  }

  class MarketDataHandler {
    var trades: map<string, seq<Trade>>
    var stats: map<string, Stats>
    /** Every trade received, by ticker. */
    ghost var received: map<string, seq<Trade>>

    /** The statistics of a ticker are those of its latest trades. */
    ghost predicate Tracks(s: Stats, log: seq<Trade>)
      reads s
    {
      s.Valid() && s.prices == Prices(Latest(log))
    }

    ghost predicate WindowsOk(logs: map<string, seq<Trade>>)
      reads `trades
    {
      && logs.Keys <= trades.Keys
      && forall ticker :: ticker in trades ==> trades[ticker] == Latest(LogOf(logs, ticker))
    }

    ghost predicate StatsOk(logs: map<string, seq<Trade>>)
      reads `stats, stats.Values
    {
      && logs.Keys <= stats.Keys
      && (forall a, b :: a in stats && b in stats && a != b ==> stats[a] != stats[b])
      && forall ticker :: ticker in stats ==> Tracks(stats[ticker], LogOf(logs, ticker))
    }

    /** Looking a ticker up creates an empty entry, so the maps may hold tickers never traded. */
    ghost predicate Valid()
      reads this, stats.Values
    {
      WindowsOk(received) && StatsOk(received)
    }

    constructor ()
      ensures Valid() && fresh(stats.Values) && received == map[]
    {
      trades, stats, received := map[], map[], map[];
    }

    method StatsOf(ticker: string, ghost logs: map<string, seq<Trade>>) returns (s: Stats)
      requires StatsOk(logs)
      modifies `stats
      ensures StatsOk(logs) && ticker in stats && s == stats[ticker] && s in stats.Values
      ensures fresh(stats.Values - old(stats.Values))
    {
      if ticker !in stats {
        var created := new Stats();
        stats := stats[ticker := created];
      }
      s := stats[ticker];
    }

    /** Feeds one trade to the statistics of a window, dropping the oldest when it is full. */
    method SlideStats(s: Stats, window: seq<Trade>, t: Trade, ghost log: seq<Trade>) returns (w: seq<Trade>)
      requires Tracks(s, log) && window == Latest(log)
      modifies s
      ensures Tracks(s, log + [t]) && w == Latest(log + [t])
    {
      SlideIsLatest(log, t);
      w := window + [t];
      s.AddTrade(t.price);
      assert s.prices == Prices(w);
      if |w| > MAX_TRADES_WINDOW {
        s.RemoveTrade(w[0].price);
        w := w[1..];
        assert s.prices == Prices(w);
      }
    }

    /** The same for the statistics of a ticker; those of other tickers stay as they are. */
    method SlideTicker(ticker: string, window: seq<Trade>, t: Trade, ghost logs: map<string, seq<Trade>>)
        returns (w: seq<Trade>)
      requires StatsOk(logs) && window == Latest(LogOf(logs, ticker))
      modifies `stats, stats.Values
      ensures StatsOk(logs[ticker := LogOf(logs, ticker) + [t]]) && fresh(stats.Values - old(stats.Values))
      ensures w == Latest(LogOf(logs, ticker) + [t])
    {
      hide Latest, Tracks;
      var s := StatsOf(ticker, logs);
      w := SlideStats(s, window, t, LogOf(logs, ticker));
    }

    /** A ticker's window then holds its latest trades, and its sums are those of that window. */
    method ProcessTrade(ticker: string, t: Trade)
      requires Valid()
      modifies this, stats.Values
      ensures Valid() && fresh(stats.Values - old(stats.Values))
      ensures received == old(received)[ticker := LogOf(old(received), ticker) + [t]]
      ensures ticker in trades && 0 < |trades[ticker]| <= 1000
    {
      hide Latest, StatsOk;
      NoTrades();
      var window := if ticker in trades then trades[ticker] else [];
      window := SlideTicker(ticker, window, t, received);
      trades := trades[ticker := window];
      received := received[ticker := LogOf(received, ticker) + [t]];
      LatestIsSuffix(received[ticker]);
    }

    /** The variance reported for a ticker is the two-pass variance of its latest trades. */
    method CalculateVariance(ticker: string) returns (v: real)
      requires Valid()
      modifies `stats
      ensures Valid() && fresh(stats.Values - old(stats.Values))
      ensures v == SampleVariance(Prices(Latest(LogOf(received, ticker)))) >= 0.0
    {
      hide SampleVariance;
      var s := StatsOf(ticker, received);
      ghost var raw;
      v, raw := s.GetVariance();
    }
  }

  lemma NoTrades()
    ensures Latest([]) == []
  {
  }

  /** The window is the last thousand trades, or all of them if there are fewer. */
  lemma LatestIsSuffix(log: seq<Trade>)
    ensures |Latest(log)| == (if |log| <= 1000 then |log| else 1000)
    ensures Latest(log) == log[|log| - |Latest(log)|..]
  {
    assert log[0..] == log;
  }
}
