/**
 What a bound on the USD and the shares in circulation gives: level sums and settlement amounts then
 fit 32 bits, and only costs and average prices are left to watch.
 */
module Circulation {
  import opened Arithmetic
  import opened Common
  import opened BookSpec
  import opened BookCost
  import opened Messages
  import opened BalanceLedger
  import opened OrderManagement
  import opened AveragePrice
  import opened Pipeline
  import opened PipelineInv
  import opened PipelineSettle
  import opened PipelineMoney
  import opened PipelineRuns
  import opened PipelineUsd
  import opened Agreement

  // ---------------------------------------------------------------- level sums

  /** Resting orders with distinct ids hold no more than what a map of non-negative amounts holds for them. */
  lemma {:induction false} RestingWithin(q: seq<Order>, m: map<int, int>)
    requires UniqueIds(q) && forall id :: id in m ==> m[id] >= 0
    requires forall i :: 0 <= i < |q| ==> q[i].id in m && q[i].qty <= m[q[i].id]
    ensures TotalQty(q) <= SumMap(m)
  {
    if q == [] {
      forall k | k in m ensures m[k] >= 0 {}
      SumMapNonNegative(m);
    } else {
      SumMapRemove(m, q[0].id);
      assert forall i :: 0 <= i < |q[1..]| ==> q[1..][i] == q[i + 1];
      RestingWithin(q[1..], m - {q[0].id});
    }
  }

  /** A resting order is accepted, unrefunded, and its order manager still has it open. */
  lemma RestingIsOpen(cfg: Config, s: State, symbol: string, side: Side, i: int)
    requires Inv(cfg, s) && symbol in s.books && 0 <= i < |SideOf(s.books[symbol], side)|
    ensures var o := SideOf(s.books[symbol], side)[i];
            && o.id in s.hist.accepted && o.id in s.om.infos && o.id !in s.hist.refunded
            && o.qty <= s.om.infos[o.id].leaves && o.qty > 0 && o.price > 0
            && s.hist.accepted[o.id].order.symbol == symbol && s.hist.accepted[o.id].order.side == side
            && PriceOf(s.hist.accepted[o.id].order) == Some(o.price)
  {
    hide IdsInv, NonNegative, AccInv, ReqInv, RespInv, QtyInv, MarketInv, BlockedInv, FiguresInv, LifeInv;
    var b := s.books[symbol];
    var o := SideOf(b, side)[i];
    assert BookRests(b, symbol, s.hist);
    assert RestOk(o, symbol, s.hist.accepted, s.hist) && OrderOk(o, side);
    LeavesCoverTrades(cfg, s, o.id);
    QtyOfMember(SideOf(b, side), i);
    QtyOfOther(SideOf(b, Opposite(side)), o.id);
  }

  lemma {:induction false} QtyOfMember(q: seq<Order>, i: int)
    requires PositiveQty(q) && 0 <= i < |q|
    ensures QtyOf(q, q[i].id) >= q[i].qty
  {
    QtyOfOther(q[1..], q[i].id);
    if i > 0 { QtyOfMember(q[1..], i - 1); }
  }

  lemma {:induction false} QtyOfOther(q: seq<Order>, id: int)
    requires PositiveQty(q)
    ensures QtyOf(q, id) >= 0
  {
    if q != [] { QtyOfOther(q[1..], id); }
  }

  lemma HeldAreNonNegative(cfg: Config, s: State, symbol: string)
    requires Inv(cfg, s)
    ensures forall id :: id in UsdOf(s) ==> UsdOf(s)[id] >= 0
    ensures forall id :: id in SharesOf(s, symbol) ==> SharesOf(s, symbol)[id] >= 0
  {
    hide Inv, HeldUsd;
    forall id | id in s.hist.accepted ensures HeldUsd(s, id) >= 0 && HeldShares(s, id, symbol) >= 0 {
      HeldIsNonNegative(cfg, s, id);
      LeavesCoverTrades(cfg, s, id);
    }
  }

  /** All units on a side are backed by shares or by USD in circulation. */
  lemma SideIsBacked(cfg: Config, s: State, symbol: string, side: Side)
    requires ConfigOk(cfg) && Inv(cfg, s) && symbol in s.books && (s.omUp || cfg.width.Exact?)
    ensures TotalQty(SideOf(s.books[symbol], side)) <= if side == Ask then TotalShares(s, symbol) else TotalUsd(s)
  {
    hide Inv, ConfigOk;
    var q := SideOf(s.books[symbol], side);
    var m := if side == Ask then SharesOf(s, symbol) else UsdOf(s);
    BookInPlace(cfg, s, symbol);
    HeldAreNonNegative(cfg, s, symbol);
    forall i | 0 <= i < |q| ensures q[i].id in m && q[i].qty <= m[q[i].id] {
      RestingIsOpen(cfg, s, symbol, side, i);
      if side == Bid { ScaleMonotone(1, q[i].price, s.om.infos[q[i].id].leaves); }
    }
    RestingWithin(q, m);
    RestIsNonNegative(cfg, s, symbol);
  }

  lemma RestIsNonNegative(cfg: Config, s: State, symbol: string)
    requires Inv(cfg, s) && (s.omUp || cfg.width.Exact?)
    ensures Total(s.om.ledger, symbol) >= 0 && Total(s.om.ledger, USD_SYMBOL) >= 0
    ensures ReqReserve(s.reqQ, s.hist.accepted) >= 0 && RespMarket(s.respQ, s.hist.accepted) >= 0
  {
    hide Inv;
    LedgerIsNonNegative(cfg, s, USD_SYMBOL);
    LedgerIsNonNegative(cfg, s, symbol);
    ReserveIsNonNegative(cfg, s);
    MarketIsNonNegative(cfg, s);
  }

  lemma LevelsAreBacked(cfg: Config, s: State, symbol: string, side: Side)
    requires ConfigOk(cfg) && Inv(cfg, s) && symbol in s.books && (s.omUp || cfg.width.Exact?)
    requires TotalUsd(s) <= MAX_INT && TotalShares(s, symbol) <= MAX_INT
    ensures LevelsFit(SideOf(s.books[symbol], side)) && PositiveQty(SideOf(s.books[symbol], side))
  {
    hide Inv, ConfigOk, TotalUsd, TotalShares, QtyAtPrice, TotalQty;
    BookInPlace(cfg, s, symbol);
    SideIsBacked(cfg, s, symbol, side);
    var q := SideOf(s.books[symbol], side);
    forall p ensures QtyAtPrice(q, p) <= MAX_INT { QtyAtPriceBounds(q, p); }
  }

  // ---------------------------------------------------------------- what is left to watch

  /** No more USD, and no more shares of any symbol, than 32 bits can count. */
  ghost predicate CirculationFits(ledger: Ledger) {
    forall ticker :: Total(ledger, ticker) <= MAX_INT
  }

  /** If the next request is a query the engine can serve, its exact cost fits. */
  predicate CostFits(s: State, e: Event) {
    e.Engine? && Enabled(s, e) && s.reqQ[0].CostQuery? && s.reqQ[0].symbol in s.books ==>
      CostOf(SideOf(s.books[s.reqQ[0].symbol], s.reqQ[0].side), s.reqQ[0].qty) <= MAX_INT
  }

  /** If the next response is a trade, the numerators of both new averages fit. */
  predicate FiguresFit(s: State, e: Event) {
    e.Deliver? && Enabled(s, e) && s.respQ[0].TradeResp? ==>
      var t := s.respQ[0].trade;
      t.takerOrder in s.om.infos && t.makerOrder in s.om.infos ==>
        && NumeratorFits(FiguresIn(s.om.infos[t.takerOrder]), t.price, t.qty)
        && NumeratorFits(FiguresIn(s.om.infos[t.makerOrder]), t.price, t.qty)
  }

  ghost predicate Bounded(s: State) {
    TotalUsd(s) <= MAX_INT && forall symbol :: symbol in s.books ==> TotalShares(s, symbol) <= MAX_INT
  }

  lemma BoundedSteps(cfg: Config, s: State, e: Event)
    requires ConfigOk(cfg) && cfg.width.Exact? && Inv(cfg, s) && Bounded(s)
    ensures StepFits(s, e) <==> CostFits(s, e) && FiguresFit(s, e)
  {
    hide Inv, ConfigOk, TotalUsd, TotalShares, CostOf, NumeratorFits, QuoteFits, SnapshotsFit, ReservedFor, Returned;
    if Enabled(s, e) {
      match e
      case Deliver => CreditsAreReserved(cfg, s);
      case Engine => BoundedRequest(cfg, s);
      case Flush => BoundedSnapshots(cfg, s);
      case _ =>
    }
  }

  lemma BoundedRequest(cfg: Config, s: State)
    requires ConfigOk(cfg) && cfg.width.Exact? && Inv(cfg, s) && Bounded(s) && Enabled(s, Engine)
    ensures RequestFits(s) <==> CostFits(s, Engine)
  {
    hide Inv, ConfigOk, TotalUsd, TotalShares, LevelsFit, QuoteFits, Served, Understated;
    if s.reqQ[0].CostQuery? && s.reqQ[0].symbol in s.books {
      var symbol, qty, side := s.reqQ[0].symbol, s.reqQ[0].qty, s.reqQ[0].side;
      var q := SideOf(s.books[symbol], side);
      BookInPlace(cfg, s, symbol);
      LevelsAreBacked(cfg, s, symbol, side);
      if q != [] && qty > 0 {
        FittingLevelsServe(q, qty);
        AnswerExactIff(Bits32, q, side, qty);
      }
    }
  }

  lemma BoundedSnapshots(cfg: Config, s: State)
    requires ConfigOk(cfg) && cfg.width.Exact? && Inv(cfg, s) && Bounded(s)
    ensures SnapshotsFit(s)
  {
    hide Inv, ConfigOk, TotalUsd, TotalShares, LevelsFit, TopSumsOk, TickerFits;
    forall symbol | symbol in s.books
      ensures TopSumsOk(s.books[symbol].bids, ORDER_BOOK_AGGREGATE_LEVELS)
      ensures TopSumsOk(s.books[symbol].asks, ORDER_BOOK_AGGREGATE_LEVELS)
    {
      LevelsAreBacked(cfg, s, symbol, Bid);
      LevelsAreBacked(cfg, s, symbol, Ask);
      FittingSumsAreOk(s.books[symbol].bids, ORDER_BOOK_AGGREGATE_LEVELS);
      FittingSumsAreOk(s.books[symbol].asks, ORDER_BOOK_AGGREGATE_LEVELS);
    }
  }

  /** With a bounded circulation an event fits exactly when the cost it asks for and the averages it takes do. */
  lemma BoundedFitsIff(cfg: Config, ledger: Ledger, es: seq<Event>, e: Event)
    requires ConfigOk(cfg) && cfg.width.Exact? && NonNegative(ledger) && CirculationFits(ledger)
    ensures var s := After(cfg, ledger, es); StepFits(s, e) <==> CostFits(s, e) && FiguresFit(s, e)
  {
    hide ConfigOk, NonNegative, Inv, Init, Run, TotalUsd, TotalShares, CostFits, FiguresFit, StepFits, Total;
    var s := After(cfg, ledger, es);
    RunKeeps(cfg, ledger, es);
    ExactUsdIsConserved(cfg, ledger, es);
    assert es[..|es|] == es;
    NotUsd(cfg, s);
    BoundedSteps(cfg, s, e);
  }

  lemma NotUsd(cfg: Config, s: State)
    requires ConfigOk(cfg) && Inv(cfg, s)
    ensures USD_SYMBOL !in s.books
  {
  }

  // ---------------------------------------------------------------- order ids

  /** Order ids stay below the number of events, so they fit while that does. */
  lemma {:induction false} OrderIdsStaySmall(cfg: Config, ledger: Ledger, es: seq<Event>)
    ensures -1 <= After(cfg, ledger, es).om.lastId < |es|
  {
    hide Init;
    if es == [] {
      FirstId(cfg, ledger);
    } else {
      OrderIdsStaySmall(cfg, ledger, es[..|es| - 1]);
      LastIdStep(cfg, After(cfg, ledger, es[..|es| - 1]), es[|es| - 1]);
    }
  }

  lemma FirstId(cfg: Config, ledger: Ledger)
    ensures Init(cfg, ledger).om.lastId == -1
  {
  }

  lemma LastIdStep(cfg: Config, s: State, e: Event)
    ensures s.om.lastId <= Next(cfg, s, e).om.lastId <= s.om.lastId + 1
  {
    hide SubmitStep, ResumeStep, CancelStep, DeliverStep, ServeStep, FlushStep;
    if Enabled(s, e) {
      match e
      case Submit(n) => SubmitId(cfg, s, n);
      case Resume => ResumeId(cfg, s);
      case RequestCancel(c) => CancelId(cfg, s, c);
      case Deliver => DeliverId(cfg, s);
      case Engine => EngineId(cfg.width, s);
      case Flush => EngineId(cfg.width, s);
    }
  }

  lemma SubmitId(cfg: Config, s: State, n: NewOrder)
    ensures s.om.lastId <= SubmitStep(cfg, s, n).om.lastId <= s.om.lastId + 1
  {
    hide Decided, ValidateAsserts, TransformId;
    DecidedId(cfg, s.(om := Preprocess(cfg, s.om, n)), Preprocess(cfg, s.om, n).lastId, n, None);
  }

  lemma ResumeId(cfg: Config, s: State)
    requires s.blocked.Some? && s.costQ != []
    ensures ResumeStep(cfg, s).om.lastId == s.om.lastId
  {
    hide Decided, ValidateAsserts;
    DecidedId(cfg, s.(blocked := None, costQ := s.costQ[1..]), s.blocked.value.id, s.blocked.value.order, s.costQ[0]);
  }

  lemma DecidedId(cfg: Config, s: State, id: int, n: NewOrder, cost: Option<int>)
    ensures Decided(cfg, s, id, n, cost).om.lastId == s.om.lastId
  {
    hide Validate;
  }

  lemma CancelId(cfg: Config, s: State, c: CancelRequest)
    ensures CancelStep(cfg, s, c).om == s.om
  {
    hide ResolveCancel, CancelRejection, PendingCancelReport;
  }

  lemma DeliverId(cfg: Config, s: State)
    requires s.respQ != []
    ensures DeliverStep(cfg, s).om.lastId == s.om.lastId
  {
    hide SettleGuards, PersistGuards, FillBoth, PayOut, CancelGuards, CancelPersists, Update, FillReport, CancelReport;
  }

  lemma EngineId(w: Width, s: State)
    ensures s.reqQ != [] ==> ServeStep(w, s).om == s.om
    ensures FlushStep(w, s).om == s.om
  {
    hide Takes, AddMatch, Add, TakerOf, InBook, Cancel, BookQty, Quote, Answers, TradeResps, SnapshotOk;
  }
}
