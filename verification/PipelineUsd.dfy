/** When USD is conserved, and how much of it a run makes or loses when it is not. */
module PipelineUsd {
  import opened Arithmetic
  import opened Common
  import opened BookSpec
  import opened BookCost
  import opened Messages
  import opened BalanceLedger
  import opened OrderManagement
  import opened Pipeline
  import opened PipelineInv
  import opened PipelineMeasures
  import opened PipelineSettle
  import opened PipelineEngine
  import opened PipelineMoney
  import opened PipelineRuns

  // ---------------------------------------------------------------- one event

  /** The next response credits only amounts that the width keeps. */
  ghost predicate CreditsFit(w: Width, s: State)
    requires s.respQ != []
  {
    match s.respQ[0]
    case TradeResp(t) => SettleGuards(w, s.om, t) ==> Fits(w, Returned(s.om.infos, t)) && Fits(w, Notional(t))
    case CancelResp(id, _, success) =>
      success && CancelGuards(w, s.om, id, success) && s.om.infos[id].side == Bid ==>
        Fits(w, ReservedFor(s.om.infos[id]))
  }

  /** The next request, if it is a market bid that is taken, was charged the right cost: the levels counted for it. */
  ghost predicate ChargeRight(w: Width, s: State)
    requires s.reqQ != []
  {
    s.reqQ[0].NewReq? && IsMarketBid(s.reqQ[0].order) && s.reqQ[0].order.symbol in s.books
    && Takes(s.books[s.reqQ[0].order.symbol], TakerOf(s.reqQ[0].id, s.reqQ[0].order), s.reqQ[0].order.qty) ==>
      QuoteFits(w, s.books[s.reqQ[0].order.symbol].asks, s.reqQ[0].order.qty)
  }

  /** What a caller can see before an event: the amounts it credits fit, and the charge it relies on is right. */
  ghost predicate UsdFits(cfg: Config, s: State, e: Event) {
    && (e.Deliver? && Enabled(s, e) ==> CreditsFit(cfg.width, s))
    && (e.Engine? && Enabled(s, e) ==> ChargeRight(cfg.width, s))
  }

  lemma CreditsFitIff(cfg: Config, s: State)
    requires ConfigOk(cfg) && Inv(cfg, s) && s.respQ != []
    ensures DeliverChange(cfg.width, s) == 0 <==> CreditsFit(cfg.width, s)
    ensures DeliverChange(cfg.width, s) <= 0
  {
    hide Inv, ConfigOk, SettleGuards, CancelGuards, Keep, Fits, Returned, Notional, ReservedFor, Improvement;
    match s.respQ[0]
    case TradeResp(t) =>
      TradeInPlace(cfg, s, t);
      AmountsNonNegative(cfg, s, t);
      KeepIff(cfg.width, Returned(s.om.infos, t));
      KeepIff(cfg.width, Notional(t));
    case CancelResp(id, clOrdId, success) =>
      if success {
        RefundIsDue(cfg, s, id, clOrdId);
        ReserveNonNegative(cfg, s, id);
        KeepIff(cfg.width, ReservedFor(s.om.infos[id]));
      }
  }

  lemma AmountsNonNegative(cfg: Config, s: State, t: Trade)
    requires AccInv(cfg, s.om, s.hist.accepted) && TradeFits(t, s.hist.accepted, s.hist.frontier)
    ensures Returned(s.om.infos, t) >= 0 && Notional(t) >= 0
  {
    OnlyImprovement(cfg, s.om, s.hist.accepted, t, s.hist.frontier);
    TradeIsForward(t, s.hist.accepted, s.hist.frontier);
    ScaleMonotone(0, Improvement(s.om.infos, t), t.qty);
  }

  lemma ReserveNonNegative(cfg: Config, s: State, id: int)
    requires Inv(cfg, s) && id in s.hist.accepted && id in s.om.infos && s.om.infos[id].leaves >= 0
    ensures ReservedFor(s.om.infos[id]) >= 0
  {
    assert AccOk(cfg, s.om, id, s.hist.accepted[id]);
    if s.om.infos[id].price.Some? { ScaleMonotone(0, s.om.infos[id].price.value, s.om.infos[id].leaves); }
  }

  lemma ChargeRightIff(cfg: Config, s: State)
    requires ConfigOk(cfg) && Inv(cfg, s) && s.reqQ != []
    ensures ServeChange(s) == 0 <==> ChargeRight(cfg.width, s)
  {
    hide Inv, ConfigOk, Takes, TakerOf, AddMatch, CostOf, Answer32, QuoteFits;
    if s.reqQ[0].NewReq? && IsMarketBid(s.reqQ[0].order) {
      MarketBidCost(cfg, s, s.reqQ[0].id, s.reqQ[0].order);
      BookInPlace(cfg, s, s.reqQ[0].order.symbol);
      AddNeverFails(cfg, s, s.reqQ[0].id, s.reqQ[0].order);
      AnswerExactIff(cfg.width, s.books[s.reqQ[0].order.symbol].asks, Ask, s.reqQ[0].order.qty);
    }
  }

  /** An event conserves USD exactly when the amounts it credits fit and the charge it relies on is right. */
  lemma StepConservesIff(cfg: Config, s: State, e: Event)
    requires ConfigOk(cfg) && Inv(cfg, s)
    ensures TotalUsd(Next(cfg, s, e)) == TotalUsd(s) <==> UsdFits(cfg, s, e)
  {
    hide Inv, ConfigOk, Next, TotalUsd, DeliverChange, ServeChange, CreditsFit, ChargeRight;
    StepKeeps(cfg, s, e);
    if e.Deliver? && Enabled(s, e) { CreditsFitIff(cfg, s); }
    if e.Engine? && Enabled(s, e) { ChargeRightIff(cfg, s); }
  }

  // ---------------------------------------------------------------- runs

  /** The USD of the initial balances is all there after every prefix of the events. */
  ghost predicate Conserves(cfg: Config, ledger: Ledger, es: seq<Event>) {
    forall k :: 0 <= k <= |es| ==> TotalUsd(After(cfg, ledger, es[..k])) == Total(ledger, USD_SYMBOL)
  }

  ghost predicate RunUsdFits(cfg: Config, ledger: Ledger, es: seq<Event>) {
    forall k :: 0 <= k < |es| ==> UsdFits(cfg, After(cfg, ledger, es[..k]), es[k])
  }

  lemma AfterNext(cfg: Config, ledger: Ledger, es: seq<Event>, k: int)
    requires 0 <= k < |es|
    ensures After(cfg, ledger, es[..k + 1]) == Next(cfg, After(cfg, ledger, es[..k]), es[k])
  {
    hide Next, Init;
    assert es[..k + 1][..k] == es[..k];
  }

  /**
   All USD: in balances, reserved by open limit bids, reserved by a market bid on its way, or in
   unsettled trades of market bids. It is the initial USD and what the events have made or lost.
   */
  lemma UsdIsAccountedFor(cfg: Config, ledger: Ledger, es: seq<Event>)
    requires ConfigOk(cfg) && NonNegative(ledger)
    ensures var s := After(cfg, ledger, es);
            Total(s.om.ledger, USD_SYMBOL) + SumMap(UsdOf(s)) + ReqReserve(s.reqQ, s.hist.accepted)
            + RespMarket(s.respQ, s.hist.accepted) == Total(ledger, USD_SYMBOL) + UsdDrift(cfg, ledger, es)
  {
    hide Inv, ConfigOk, NonNegative, Run, Init, UsdChange;
    RunKeeps(cfg, ledger, es);
  }

  /** USD is conserved all along a run exactly when every credit fits and every charge is right. */
  lemma UsdIsConservedIff(cfg: Config, ledger: Ledger, es: seq<Event>)
    requires ConfigOk(cfg) && NonNegative(ledger)
    ensures Conserves(cfg, ledger, es) <==> RunUsdFits(cfg, ledger, es)
  {
    hide Inv, ConfigOk, NonNegative, Run, Init, Next, TotalUsd, UsdFits, Total;
    if RunUsdFits(cfg, ledger, es) {
      forall k | 0 <= k <= |es| ensures TotalUsd(After(cfg, ledger, es[..k])) == Total(ledger, USD_SYMBOL) {
        FittingConserves(cfg, ledger, es, k);
      }
    }
    if Conserves(cfg, ledger, es) {
      forall k | 0 <= k < |es| ensures UsdFits(cfg, After(cfg, ledger, es[..k]), es[k]) {
        assert TotalUsd(After(cfg, ledger, es[..k])) == TotalUsd(After(cfg, ledger, es[..k + 1]));
        AfterNext(cfg, ledger, es, k);
        RunKeeps(cfg, ledger, es[..k]);
        StepConservesIff(cfg, After(cfg, ledger, es[..k]), es[k]);
      }
    }
  }

  lemma {:induction false} FittingConserves(cfg: Config, ledger: Ledger, es: seq<Event>, k: int)
    requires ConfigOk(cfg) && NonNegative(ledger) && RunUsdFits(cfg, ledger, es) && 0 <= k <= |es|
    ensures TotalUsd(After(cfg, ledger, es[..k])) == Total(ledger, USD_SYMBOL)
  {
    hide Inv, ConfigOk, NonNegative, Init, Next, TotalUsd, UsdFits, Total, UsdChange;
    if k == 0 {
      RunKeeps(cfg, ledger, es[..0]);
    } else {
      FittingConserves(cfg, ledger, es, k - 1);
      AfterNext(cfg, ledger, es, k - 1);
      RunKeeps(cfg, ledger, es[..k - 1]);
      StepConservesIff(cfg, After(cfg, ledger, es[..k - 1]), es[k - 1]);
    }
  }

  /** With exact amounts USD is conserved over every run. */
  lemma ExactUsdIsConserved(cfg: Config, ledger: Ledger, es: seq<Event>)
    requires ConfigOk(cfg) && NonNegative(ledger) && cfg.width.Exact?
    ensures Conserves(cfg, ledger, es)
  {
    hide Inv, ConfigOk, NonNegative, Run, Init, Next, TotalUsd, UsdFits, Total;
    forall k | 0 <= k < |es| ensures UsdFits(cfg, After(cfg, ledger, es[..k]), es[k]) {
      ExactUsdFits(cfg, After(cfg, ledger, es[..k]), es[k]);
    }
    UsdIsConservedIff(cfg, ledger, es);
  }

  lemma ExactUsdFits(cfg: Config, s: State, e: Event)
    requires cfg.width.Exact?
    ensures UsdFits(cfg, s, e)
  {
    hide SettleGuards, CancelGuards, Takes, TakerOf, CostOf;
  }

  // ---------------------------------------------------------------- reservations cover amounts

  lemma HeldIsNonNegative(cfg: Config, s: State, id: int)
    requires Inv(cfg, s) && id in s.hist.accepted
    ensures HeldUsd(s, id) >= 0
  {
    LeavesCoverTrades(cfg, s, id);
    assert AccOk(cfg, s.om, id, s.hist.accepted[id]);
    if IsLimitBid(s.hist.accepted[id].order) {
      ScaleMonotone(0, s.om.infos[id].leaves, s.hist.accepted[id].order.ordType.price);
    }
  }

  lemma {:induction false} RespMarketBounds(q: seq<Response>, acc: Orders)
    requires forall i :: 0 <= i < |q| && q[i].TradeResp? ==> Notional(q[i].trade) >= 0
    ensures RespMarket(q, acc) >= 0
    ensures q != [] && q[0].TradeResp? ==> RespMarket(q, acc) >= MarketNotional(q[0].trade, acc)
  {
    if q != [] { RespMarketBounds(q[1..], acc); }
  }

  lemma ReserveIsNonNegative(cfg: Config, s: State)
    requires Inv(cfg, s)
    ensures ReqReserve(s.reqQ, s.hist.accepted) >= 0
  {
    hide IdsInv, NonNegative, AccInv, ReqInv, BooksInv, RespInv, CancelInv, QtyInv, BlockedInv, BlockedId;
    hide FiguresInv, LifeInv, Quote;
    if s.reqQ != [] {
      forall i | 0 <= i < |s.reqQ[1..]| ensures !IsMarketReq(s.reqQ[1..][i]) { assert !IsMarketReq(s.reqQ[i + 1]); }
      NoMarketNoReserve(s.reqQ[1..], s.hist.accepted);
      if IsMarketReq(s.reqQ[0]) {
        QuotePositive(cfg.width, s.books[s.reqQ[0].order.symbol], s.reqQ[0].order.qty, Ask);
      }
    }
  }

  lemma MarketIsNonNegative(cfg: Config, s: State)
    requires Inv(cfg, s)
    ensures RespMarket(s.respQ, s.hist.accepted) >= 0
    ensures s.respQ != [] && s.respQ[0].TradeResp? ==>
              RespMarket(s.respQ, s.hist.accepted) >= MarketNotional(s.respQ[0].trade, s.hist.accepted)
  {
    forall i | 0 <= i < |s.respQ| && s.respQ[i].TradeResp? ensures Notional(s.respQ[i].trade) >= 0 {
      assert RespOk(s.respQ[i], s.hist, s.om.infos.Keys, s.omUp);
      TradeIsForward(s.respQ[i].trade, s.hist.accepted, s.hist.frontier);
    }
    RespMarketBounds(s.respQ, s.hist.accepted);
  }

  lemma LedgerIsNonNegative(cfg: Config, s: State, ticker: string)
    requires Inv(cfg, s) && (s.omUp || cfg.width.Exact?)
    ensures Total(s.om.ledger, ticker) >= 0
  {
    BalanceWithinTotal(s.om.ledger, "", ticker);
  }

  /** What one order has reserved, plus the market trades under way, is within the total. */
  lemma HeldWithinTotal(cfg: Config, s: State, id: int)
    requires Inv(cfg, s) && s.omUp && id in s.hist.accepted
    ensures 0 <= HeldUsd(s, id) && HeldUsd(s, id) + RespMarket(s.respQ, s.hist.accepted) <= TotalUsd(s)
  {
    hide Inv, HeldUsd;
    LedgerIsNonNegative(cfg, s, USD_SYMBOL);
    ReserveIsNonNegative(cfg, s);
    MarketIsNonNegative(cfg, s);
    forall j | j in UsdOf(s) ensures UsdOf(s)[j] >= 0 { HeldIsNonNegative(cfg, s, j); }
    SumMapNonNegative(UsdOf(s));
    assert UsdOf(s)[id] == HeldUsd(s, id);
  }

  /** A trade's two USD credits together are covered by its buyer's reservation. */
  lemma TradeIsReserved(cfg: Config, s: State, t: Trade)
    requires Inv(cfg, s) && s.omUp && s.respQ != [] && s.respQ[0] == TradeResp(t)
    requires AccInv(cfg, s.om, s.hist.accepted) && TradeFits(t, s.hist.accepted, s.hist.frontier)
    ensures Notional(t) >= 0 && Returned(s.om.infos, t) >= 0
    ensures Notional(t) + Returned(s.om.infos, t) <= TotalUsd(s)
  {
    hide Inv, TotalUsd;
    var b := BuyerOrder(t);
    PendingFillIsOpen(cfg, s, b);
    HeldWithinTotal(cfg, s, b);
    MarketIsNonNegative(cfg, s);
    AmountsNonNegative(cfg, s, t);
    OnlyImprovement(cfg, s.om, s.hist.accepted, t, s.hist.frontier);
    if IsLimitBid(s.hist.accepted[b].order) {
      var p: int := s.hist.accepted[b].order.ordType.price;
      ScaleMonotone(t.qty, s.om.infos[b].leaves, p);
      assert (p - t.price) * t.qty + t.price * t.qty == p * t.qty;
    }
  }

  lemma RefundIsHeld(cfg: Config, s: State, id: int)
    requires Inv(cfg, s) && id in s.hist.accepted && id in s.om.infos && id !in s.hist.refunded
    requires s.hist.accepted[id].order.ordType.Limit?
    ensures s.om.infos[id].side == Bid ==> HeldUsd(s, id) == ReservedFor(s.om.infos[id])
  {
    assert AccOk(cfg, s.om, id, s.hist.accepted[id]);
  }

  /** Every amount the next response credits is covered by a reservation, hence by the USD there is. */
  lemma CreditsAreReserved(cfg: Config, s: State)
    requires ConfigOk(cfg) && Inv(cfg, s) && s.omUp && s.respQ != []
    ensures match s.respQ[0]
            case TradeResp(t) => 0 <= Notional(t) <= TotalUsd(s) && 0 <= Returned(s.om.infos, t) <= TotalUsd(s)
            case CancelResp(id, _, success) =>
              success ==> id in s.om.infos
                          && (s.om.infos[id].side == Bid ==> 0 <= ReservedFor(s.om.infos[id]) <= TotalUsd(s))
  {
    hide Inv, ConfigOk, TotalUsd, HeldUsd;
    match s.respQ[0]
    case TradeResp(t) =>
      TradeInPlace(cfg, s, t);
      TradeIsReserved(cfg, s, t);
    case CancelResp(id, clOrdId, success) =>
      if success {
        RefundIsDue(cfg, s, id, clOrdId);
        HeldWithinTotal(cfg, s, id);
        MarketIsNonNegative(cfg, s);
        RefundIsHeld(cfg, s, id);
      }
  }

  // ---------------------------------------------------------------- little USD in circulation

  /** Every market bid the engine took was charged the right cost. */
  ghost predicate ChargesRight(cfg: Config, ledger: Ledger, es: seq<Event>) {
    forall k :: 0 <= k < |es| ==>
      var s := After(cfg, ledger, es[..k]);
      es[k].Engine? && Enabled(s, es[k]) ==> ChargeRight(cfg.width, s)
  }

  lemma SmallCreditsFit(cfg: Config, s: State)
    requires ConfigOk(cfg) && Inv(cfg, s) && s.omUp && s.respQ != [] && TotalUsd(s) <= MAX_INT
    ensures CreditsFit(cfg.width, s)
  {
    hide Inv, ConfigOk, TotalUsd, SettleGuards, CancelGuards, Notional, Returned, ReservedFor;
    CreditsAreReserved(cfg, s);
  }

  /**
   With no more USD in circulation than 32 bits can count, charges that are right are enough: every
   amount credited then fits, and USD is conserved.
   */
  lemma {:induction false} SmallCirculationConserves(cfg: Config, ledger: Ledger, es: seq<Event>, k: int)
    requires ConfigOk(cfg) && NonNegative(ledger) && Total(ledger, USD_SYMBOL) <= MAX_INT
    requires ChargesRight(cfg, ledger, es) && 0 <= k <= |es|
    ensures TotalUsd(After(cfg, ledger, es[..k])) == Total(ledger, USD_SYMBOL)
    ensures k < |es| ==> UsdFits(cfg, After(cfg, ledger, es[..k]), es[k])
  {
    hide Inv, ConfigOk, NonNegative, Init, Next, TotalUsd, Total, UsdChange, CreditsFit, ChargeRight;
    RunKeeps(cfg, ledger, es[..k]);
    if k > 0 {
      SmallCirculationConserves(cfg, ledger, es, k - 1);
      AfterNext(cfg, ledger, es, k - 1);
      RunKeeps(cfg, ledger, es[..k - 1]);
      StepConservesIff(cfg, After(cfg, ledger, es[..k - 1]), es[k - 1]);
    }
    var s := After(cfg, ledger, es[..k]);
    if k < |es| && es[k].Deliver? && Enabled(s, es[k]) { SmallCreditsFit(cfg, s); }
  }
}
