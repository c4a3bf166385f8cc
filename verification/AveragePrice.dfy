/** The truncated running average price of one order, against its exact volume-weighted average. */
module AveragePrice {
  import opened Arithmetic
  import opened Common
  import opened OrderManagement
  import opened PipelineInv

  datatype Exec = Exec(price: int, qty: int)

  predicate Positive(es: seq<Exec>) {
    forall i :: 0 <= i < |es| ==> es[i].price > 0 && es[i].qty > 0
  }

  /** The figures the order manager keeps, fill after fill. */
  function Running(w: Width, es: seq<Exec>): Figures {
    if es == [] then Figures(0, 0)
    else NextFigures(w, Running(w, es[..|es| - 1]), es[|es| - 1].price, es[|es| - 1].qty)
  }

  function Volume(es: seq<Exec>): int {
    if es == [] then 0 else Volume(es[..|es| - 1]) + es[|es| - 1].qty
  }

  function Value(es: seq<Exec>): int {
    if es == [] then 0 else Value(es[..|es| - 1]) + es[|es| - 1].price * es[|es| - 1].qty
  }

  /** Division by a positive volume loses less than one unit per share. */
  lemma DivisionLoss(a: int, b: int)
    requires a >= 0 && b > 0
    ensures 0 <= a - TruncDiv(a, b) * b < b
  {
    assert a == (a / b) * b + a % b;
  }

  /** A quotient of a weighted sum stays between the bounds of what was summed. */
  lemma DivisionBounds(a: int, b: int, lo: int, hi: int)
    requires a >= 0 && b > 0 && lo * b <= a <= hi * b
    ensures lo <= TruncDiv(a, b) <= hi
  {
    var q := TruncDiv(a, b);
    DivisionLoss(a, b);
    assert (q + 1 - lo) * b == q * b + b - lo * b;
    PositiveFactor(q + 1 - lo, b);
    assert (hi + 1 - q) * b == hi * b + b - q * b;
    PositiveFactor(hi + 1 - q, b);
  }

  /** One fill keeps the average between the bounds. */
  lemma FillBetween(avg: int, cum: int, price: int, qty: int, lo: int, hi: int)
    requires lo <= price <= hi && price > 0 && qty > 0 && cum >= 0
    requires cum > 0 ==> lo <= avg <= hi && avg >= 0
    ensures lo <= TruncDiv(avg * cum + price * qty, qty + cum) <= hi
    ensures TruncDiv(avg * cum + price * qty, qty + cum) >= 0
  {
    if cum > 0 {
      ScaleMonotone(lo, avg, cum);
      ScaleMonotone(avg, hi, cum);
      ScaleMonotone(0, avg, cum);
    }
    ScaleMonotone(lo, price, qty);
    ScaleMonotone(price, hi, qty);
    ScaleMonotone(0, price, qty);
    assert lo * (qty + cum) == lo * cum + lo * qty;
    assert hi * (qty + cum) == hi * cum + hi * qty;
    var a := avg * cum + price * qty;
    assert cum == 0 ==> avg * cum == 0 && lo * cum == 0 && hi * cum == 0;
    DivisionBounds(a, qty + cum, lo, hi);
    DivisionBounds(a, qty + cum, 0, if hi > 0 then hi else 0);
  }

  /** One more fill adds less than one unit per share to the loss. */
  lemma FillLoss(value: int, avg: int, cum: int, price: int, qty: int, n: int)
    requires n >= 1 && cum >= 1 && qty >= 1 && price > 0 && avg >= 0
    requires 0 <= value - avg * cum <= (n - 1) * (cum - 1)
    ensures var avg' := TruncDiv(avg * cum + price * qty, qty + cum);
            0 <= value + price * qty - avg' * (cum + qty) <= n * (cum + qty - 1)
  {
    ScaleMonotone(0, avg, cum);
    ScaleMonotone(0, price, qty);
    DivisionLoss(avg * cum + price * qty, qty + cum);
    assert (n - 1) * (cum + qty - 1) == (n - 1) * (cum - 1) + (n - 1) * qty;
    ScaleMonotone(0, n - 1, qty);
    assert n * (cum + qty - 1) == (n - 1) * (cum + qty - 1) + (cum + qty - 1);
  }

  /** The average lies between any bounds of the fill prices. */
  lemma {:induction false} AverageBetween(es: seq<Exec>, lo: int, hi: int)
    requires Positive(es) && es != []
    requires forall i :: 0 <= i < |es| ==> lo <= es[i].price <= hi
    ensures Running(Exact, es).cum == Volume(es) > 0
    ensures lo <= Running(Exact, es).avg <= hi && Running(Exact, es).avg >= 0
  {
    hide TruncDiv;
    var rest, e := es[..|es| - 1], es[|es| - 1];
    var f := Running(Exact, rest);
    if rest != [] { AverageBetween(rest, lo, hi); }
    FillBetween(f.avg, f.cum, e.price, e.qty, lo, hi);
  }

  /**
   Exact after one fill, never above the volume-weighted average, and after n fills below it by
   less than n - 1 price units (all three multiplied out by the volume).
   */
  lemma {:induction false} AverageError(es: seq<Exec>)
    requires Positive(es) && es != []
    ensures Running(Exact, es).cum == Volume(es) > 0 && Running(Exact, es).avg >= 0
    ensures 0 <= Value(es) - Running(Exact, es).avg * Volume(es) <= (|es| - 1) * (Volume(es) - 1)
    ensures |es| == 1 ==> Running(Exact, es).avg == es[0].price
    ensures |es| >= 2 ==> Value(es) - Running(Exact, es).avg * Volume(es) < (|es| - 1) * Volume(es)
  {
    hide TruncDiv;
    var rest, e := es[..|es| - 1], es[|es| - 1];
    var f := Running(Exact, rest);
    if rest == [] {
      assert es[0] == e && Volume(es) == e.qty && Value(es) == e.price * e.qty;
      FillBetween(f.avg, f.cum, e.price, e.qty, e.price, e.price);
    } else {
      AverageError(rest);
      FillLoss(Value(rest), f.avg, f.cum, e.price, e.qty, |rest|);
      FillBetween(f.avg, f.cum, e.price, e.qty, 0, if e.price > f.avg then e.price else f.avg);
      assert |rest| * Volume(es) == |rest| * (Volume(es) - 1) + |rest|;
    }
  }

  // ---------------------------------------------------------------- averages in 32 bits

  /** The numerator of the next average fits 32 bits. */
  predicate NumeratorFits(f: Figures, price: int, qty: int) {
    Fits32(f.avg * f.cum + price * qty)
  }

  /** Losing a multiple of 2^32 from a numerator shows in the quotient. */
  lemma QuotientShows(a: int, volume: int)
    requires a >= 0 && 0 < volume <= MAX_INT
    ensures TruncDiv(Wrap32(a), volume) == TruncDiv(a, volume) <==> Fits32(a)
  {
    WrapKeepsIff(a);
    var w := Wrap32(a);
    hide Wrap32;
    if !Fits32(a) {
      assert (a - w) % TWO_32 == 0 && a - w > 0;
      assert a - w >= TWO_32;
      QuotientsDiffer(a, w, volume);
    }
  }

  lemma QuotientsDiffer(a: int, w: int, volume: int)
    requires a >= 0 && a - w >= TWO_32 && 0 < volume <= MAX_INT
    ensures TruncDiv(w, volume) < TruncDiv(a, volume)
  {
    var p, q := TruncDiv(a, volume), TruncDiv(w, volume);
    assert a == (a / volume) * volume + a % volume;
    assert p * volume > a - volume;
    TruncAbove(w, volume);
    assert (p - q) * volume == p * volume - q * volume;
    PositiveFactor(p - q, volume);
  }

  lemma TruncAbove(w: int, volume: int)
    requires volume > 0
    ensures TruncDiv(w, volume) * volume < w + volume
  {
    if w >= 0 {
      assert w == (w / volume) * volume + w % volume;
    } else {
      assert -w == (-w / volume) * volume + (-w) % volume;
    }
  }

  /** One fill is booked right in 32 bits exactly when the numerator of the average fits. */
  lemma NextAgreesIff(f: Figures, price: int, qty: int)
    requires f.avg * f.cum >= 0 && price * qty >= 0 && 0 < qty + f.cum <= MAX_INT
    ensures NextFigures(Bits32, f, price, qty) == NextFigures(Exact, f, price, qty) <==> NumeratorFits(f, price, qty)
  {
    hide Wrap32, TruncDiv;
    var a, b := f.avg * f.cum, price * qty;
    WrapSum(Wrap32(a), b);
    WrapSum(b, a);
    QuotientShows(a + b, qty + f.cum);
  }

  /** The numerator of every average of a sequence of fills fits 32 bits. */
  ghost predicate NumeratorsFit(es: seq<Exec>) {
    forall k :: 0 <= k < |es| ==> NumeratorFits(Running(Exact, es[..k]), es[k].price, es[k].qty)
  }

  /** The figures kept in 32 bits are the exact ones after every fill. */
  ghost predicate FiguresRight(es: seq<Exec>) {
    forall k :: 0 <= k <= |es| ==> Running(Bits32, es[..k]) == Running(Exact, es[..k])
  }

  lemma RunningNext(w: Width, es: seq<Exec>, k: int)
    requires 0 <= k < |es|
    ensures Running(w, es[..k + 1]) == NextFigures(w, Running(w, es[..k]), es[k].price, es[k].qty)
  {
    hide NextFigures;
    assert es[..k + 1][..k] == es[..k];
  }

  lemma {:induction false} VolumeOfPrefix(es: seq<Exec>, k: int)
    requires Positive(es) && 0 <= k <= |es|
    ensures 0 <= Volume(es[..k]) <= Volume(es) && 0 <= Value(es[..k]) <= Value(es)
    decreases |es| - k
  {
    if k == |es| {
      assert es[..k] == es;
      SumsNonNegative(es);
    } else {
      VolumeOfPrefix(es, k + 1);
      assert es[..k + 1][..k] == es[..k];
      ScaleMonotone(0, es[k].price, es[k].qty);
      SumsNonNegative(es[..k]);
    }
  }

  lemma {:induction false} SumsNonNegative(es: seq<Exec>)
    requires Positive(es)
    ensures Volume(es) >= 0 && Value(es) >= 0
  {
    if es != [] {
      SumsNonNegative(es[..|es| - 1]);
      ScaleMonotone(0, es[|es| - 1].price, es[|es| - 1].qty);
    }
  }

  /** What the next fill starts from: a numerator between zero and the traded value. */
  lemma NumeratorWithinValue(es: seq<Exec>, k: int)
    requires Positive(es) && 0 <= k < |es|
    ensures var f := Running(Exact, es[..k]);
            && f.cum == Volume(es[..k]) && 0 < es[k].qty + f.cum <= Volume(es)
            && 0 <= f.avg * f.cum && 0 <= es[k].price * es[k].qty
            && f.avg * f.cum + es[k].price * es[k].qty <= Value(es)
  {
    hide NextFigures;
    var f := Running(Exact, es[..k]);
    VolumeOfPrefix(es, k);
    VolumeOfPrefix(es, k + 1);
    assert es[..k + 1][..k] == es[..k];
    ScaleMonotone(0, es[k].price, es[k].qty);
    if k > 0 {
      AverageError(es[..k]);
      ScaleMonotone(0, f.avg, f.cum);
    }
  }

  /** The figures kept in 32 bits are right after every fill exactly when every numerator fits. */
  lemma FiguresRightIff(es: seq<Exec>)
    requires Positive(es) && Volume(es) <= MAX_INT
    ensures FiguresRight(es) <==> NumeratorsFit(es)
  {
    hide Running, Volume, Value, NextFigures, NumeratorFits;
    if NumeratorsFit(es) {
      forall k | 0 <= k <= |es| ensures Running(Bits32, es[..k]) == Running(Exact, es[..k]) {
        FittingRunsAgree(es, k);
      }
    }
    if FiguresRight(es) {
      forall k | 0 <= k < |es| ensures NumeratorFits(Running(Exact, es[..k]), es[k].price, es[k].qty) {
        assert Running(Bits32, es[..k]) == Running(Exact, es[..k]);
        assert Running(Bits32, es[..k + 1]) == Running(Exact, es[..k + 1]);
        RunningNext(Bits32, es, k);
        RunningNext(Exact, es, k);
        NumeratorWithinValue(es, k);
        NextAgreesIff(Running(Exact, es[..k]), es[k].price, es[k].qty);
      }
    }
  }

  lemma {:induction false} FittingRunsAgree(es: seq<Exec>, k: int)
    requires Positive(es) && Volume(es) <= MAX_INT && NumeratorsFit(es) && 0 <= k <= |es|
    ensures Running(Bits32, es[..k]) == Running(Exact, es[..k])
  {
    hide Volume, Value, NextFigures, NumeratorFits;
    if k > 0 {
      FittingRunsAgree(es, k - 1);
      RunningNext(Bits32, es, k - 1);
      RunningNext(Exact, es, k - 1);
      NumeratorWithinValue(es, k - 1);
      NextAgreesIff(Running(Exact, es[..k - 1]), es[k - 1].price, es[k - 1].qty);
    }
  }

  /** It is enough that the traded value fits. */
  lemma ValueSuffices(es: seq<Exec>)
    requires Positive(es) && Value(es) <= MAX_INT
    ensures NumeratorsFit(es)
  {
    hide Running, Volume, Value;
    forall k | 0 <= k < |es| ensures NumeratorFits(Running(Exact, es[..k]), es[k].price, es[k].qty) {
      NumeratorWithinValue(es, k);
    }
  }

  // ---------------------------------------------------------------- the fills of an order

  function ExecsOf(ts: seq<Trade>, id: int): seq<Exec> {
    if ts == [] then []
    else
      var t := ts[|ts| - 1];
      ExecsOf(ts[..|ts| - 1], id) + (if t.takerOrder == id || t.makerOrder == id then [Exec(t.price, t.qty)] else [])
  }

  lemma {:induction false} FiguresAreRunning(w: Width, ts: seq<Trade>, id: int)
    ensures FiguresOf(w, ts, id) == Running(w, ExecsOf(ts, id))
  {
    if ts != [] {
      var t, rest := ts[|ts| - 1], ts[..|ts| - 1];
      FiguresAreRunning(w, rest, id);
      var es := ExecsOf(rest, id);
      if t.takerOrder == id || t.makerOrder == id {
        assert (es + [Exec(t.price, t.qty)])[..|es|] == es;
      } else {
        assert es + [] == es;
      }
    }
  }

  lemma {:induction false} ExecsPositive(ts: seq<Trade>, id: int)
    requires forall i :: 0 <= i < |ts| ==> ts[i].price > 0 && ts[i].qty > 0
    ensures Positive(ExecsOf(ts, id))
  {
    if ts != [] { ExecsPositive(ts[..|ts| - 1], id); }
  }
}
