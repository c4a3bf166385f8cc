/**
 What the exchange promises in every reachable state. Each theorem speaks about the state after an
 arbitrary sequence of events, from arbitrary non-negative balances, with amounts of either width:
 what it says of a configuration of 32 bits, it says of the code.
 */
module PipelineTheorems {
  import opened Common
  import opened BookSpec
  import opened BookCost
  import opened Messages
  import opened BalanceLedger
  import opened OrderManagement
  import opened AveragePrice
  import opened Pipeline
  import opened PipelineInv
  import opened PipelineMeasures
  import opened PipelineSettle
  import opened PipelineEngine
  import opened PipelineMoney
  import opened PipelineRuns

  // ---------------------------------------------------------------- balances

  /** All shares of a symbol: in balances or open in asks whose cancel has not been settled. */
  lemma SharesAreConserved(cfg: Config, ledger: Ledger, es: seq<Event>, symbol: string)
    requires ConfigOk(cfg) && NonNegative(ledger) && symbol != USD_SYMBOL
    ensures var s := After(cfg, ledger, es);
            Total(s.om.ledger, symbol) + SumMap(SharesOf(s, symbol)) == Total(ledger, symbol)
  {
    RunKeeps(cfg, ledger, es);
  }

  /** No balance is negative while the order manager is up; with exact amounts, not after it stops either. */
  lemma BalancesStayNonNegative(cfg: Config, ledger: Ledger, es: seq<Event>, broker: string, ticker: string)
    requires ConfigOk(cfg) && NonNegative(ledger)
    ensures var s := After(cfg, ledger, es);
            s.omUp || cfg.width.Exact? ==> Balance(s.om.ledger, broker, ticker) >= 0
  {
    RunKeeps(cfg, ledger, es);
    assert LedgerInv(cfg, After(cfg, ledger, es));
  }

  // ---------------------------------------------------------------- processes that stop

  /**
   The event stops the order manager: a cancel resolves to an id it never registered, or what a
   settlement credits, as far as the width keeps it, is negative and more than the account holds.
   */
  ghost predicate ManagerFails(cfg: Config, s: State, e: Event)
    requires Enabled(s, e)
  {
    match e
    case RequestCancel(c) => ResolveCancel(cfg, s.om, c).Some? && ResolveCancel(cfg, s.om, c).value !in s.om.infos
    case Deliver =>
      (match s.respQ[0]
       case TradeResp(t) => !Covered(cfg.width, s.om, t)
       case CancelResp(id, _, success) => !CancelCovered(cfg.width, s.om, id, success))
    case _ => false
  }

  /** No other assertion, contract or lookup of the order manager ever fails. */
  lemma OrderManagerStopsIff(cfg: Config, ledger: Ledger, es: seq<Event>, e: Event)
    requires ConfigOk(cfg) && NonNegative(ledger)
    requires Enabled(After(cfg, ledger, es), e) && After(cfg, ledger, es).omUp
    ensures var s := After(cfg, ledger, es); !Next(cfg, s, e).omUp <==> ManagerFails(cfg, s, e)
  {
    hide Inv, ConfigOk, NonNegative, Run, Init, SubmitStep, ResumeStep, DeliverStep, Covered, CancelCovered;
    hide ServeStep, FlushStep;
    var s := After(cfg, ledger, es);
    RunKeeps(cfg, ledger, es);
    match e
    case Submit(n) => SubmitStaysUp(cfg, s, n);
    case Resume => ResumeStaysUp(cfg, s);
    case Deliver => DeliverStopsIff(cfg, s);
    case RequestCancel(_) =>
    case Engine => EngineSparesManager(cfg.width, s);
    case Flush => EngineSparesManager(cfg.width, s);
  }

  /** Over exact amounts settlement never stops it. */
  lemma ExactSettlementNeverStops(cfg: Config, ledger: Ledger, es: seq<Event>)
    requires ConfigOk(cfg) && NonNegative(ledger) && cfg.width.Exact? && Enabled(After(cfg, ledger, es), Deliver)
    ensures !ManagerFails(cfg, After(cfg, ledger, es), Deliver)
  {
    hide Inv, ConfigOk, NonNegative, Run, Init, Covered, CancelCovered;
    var s := After(cfg, ledger, es);
    RunKeeps(cfg, ledger, es);
    match s.respQ[0]
    case TradeResp(t) =>
      TradeAt(cfg, s, t);
      ExactIsCovered(cfg, s.om, s.hist.accepted, t, s.hist.frontier);
    case CancelResp(id, clOrdId, success) => CancelSettlesIff(cfg, s, id, clOrdId, success);
  }

  lemma SubmitStaysUp(cfg: Config, s: State, n: NewOrder)
    requires Inv(cfg, s) && s.omUp
    ensures SubmitStep(cfg, s, n).omUp
  {
    hide Inv, ValidateAsserts, Validate;
    BalanceIsReadable(cfg, s, n, None);
  }

  lemma ResumeStaysUp(cfg: Config, s: State)
    requires Inv(cfg, s) && s.omUp && s.blocked.Some? && s.costQ != []
    ensures ResumeStep(cfg, s).omUp
  {
    hide Inv, ValidateAsserts, Validate;
    BalanceIsReadable(cfg, s, s.blocked.value.order, s.costQ[0]);
  }

  lemma DeliverStopsIff(cfg: Config, s: State)
    requires ConfigOk(cfg) && Inv(cfg, s) && Enabled(s, Deliver)
    ensures !DeliverStep(cfg, s).omUp <==> ManagerFails(cfg, s, Deliver)
  {
    hide Inv, ConfigOk, DeliverTrade, DeliverCancel, Covered, CancelCovered;
    match s.respQ[0]
    case TradeResp(t) => DeliverTradeKeepsInv(cfg, s, t);
    case CancelResp(id, clOrdId, success) => DeliverCancelKeepsInv(cfg, s, id, clOrdId, success);
  }

  lemma EngineSparesManager(w: Width, s: State)
    ensures s.reqQ != [] ==> ServeStep(w, s).omUp == s.omUp
    ensures FlushStep(w, s).omUp == s.omUp
  {
    hide Takes, AddMatch, Add, TakerOf, InBook, Cancel, BookQty, Quote, Answers, TradeResps, SnapshotOk;
  }

  /**
   The request stops the engine. A new order does when it hits a maker with names too long for the
   trade; a cancel for an unknown symbol; a query when it cannot be answered.
   */
  ghost predicate Fatal(w: Width, s: State, r: Request) {
    match r
    case NewReq(id, n) =>
      n.symbol in s.books &&
      var far := SideOf(s.books[n.symbol], Opposite(n.side));
      exists i :: Hit(far, TakerOf(id, n), n.qty, i) && Overlong(far, TakerOf(id, n), i)
    case CancelReq(_, _, symbol) => symbol !in s.books
    case CostQuery(symbol, qty, side) => !Answers(w, s, symbol, qty, side)
  }

  /** The engine stops exactly on a fatal request, or on a snapshot that cannot be built. */
  lemma EngineStopsIff(cfg: Config, ledger: Ledger, es: seq<Event>, e: Event)
    requires ConfigOk(cfg) && NonNegative(ledger)
    requires Enabled(After(cfg, ledger, es), e) && After(cfg, ledger, es).meUp
    ensures var s := After(cfg, ledger, es);
            !Next(cfg, s, e).meUp <==>
            || (e.Engine? && Fatal(cfg.width, s, s.reqQ[0]))
            || (e.Flush? && exists symbol :: symbol in s.books && !SnapshotOk(cfg.width, s.books[symbol], symbol))
  {
    hide Inv, ConfigOk, NonNegative, Run, Init, Fatal, SubmitStep, ResumeStep, CancelStep, DeliverStep, ServeStep;
    hide SnapshotOk;
    var s := After(cfg, ledger, es);
    RunKeeps(cfg, ledger, es);
    match e
    case Engine => RequestStopsIff(cfg, s);
    case Flush =>
    case Submit(n) => SubmitSparesEngine(cfg, s, n);
    case Resume => ResumeSparesEngine(cfg, s);
    case RequestCancel(c) => CancelSparesEngine(cfg, s, c);
    case Deliver => DeliverSparesEngine(cfg, s);
  }

  lemma SubmitSparesEngine(cfg: Config, s: State, n: NewOrder)
    ensures SubmitStep(cfg, s, n).meUp == s.meUp
  {
    hide Validate, ValidateAsserts, Preprocess, PreprocessVerdict;
  }

  lemma ResumeSparesEngine(cfg: Config, s: State)
    requires s.blocked.Some? && s.costQ != []
    ensures ResumeStep(cfg, s).meUp == s.meUp
  {
    hide Validate, ValidateAsserts;
  }

  lemma CancelSparesEngine(cfg: Config, s: State, c: CancelRequest)
    ensures CancelStep(cfg, s, c).meUp == s.meUp
  {
    hide CancelRejection, PendingCancelReport, TransformId;
    if ResolveCancel(cfg, s.om, c).Some? {}
  }

  lemma DeliverSparesEngine(cfg: Config, s: State)
    requires s.respQ != []
    ensures DeliverStep(cfg, s).meUp == s.meUp
  {
    hide SettleGuards, PersistGuards, SettleTrade, CancelGuards, CancelPersists, SettleCancel, FillReport, CancelReport;
  }

  lemma RequestStopsIff(cfg: Config, s: State)
    requires ConfigOk(cfg) && Inv(cfg, s) && Enabled(s, Engine)
    ensures !ServeStep(cfg.width, s).meUp <==> Fatal(cfg.width, s, s.reqQ[0])
  {
    hide Inv, ConfigOk, AddOk, Takes, Add, AddMatch, TakerOf, Cancel, BookQty, InBook, Quote, Rests, TradeResps, Hit;
    hide Answers;
    if s.reqQ[0].NewReq? {
      var id, n := s.reqQ[0].id, s.reqQ[0].order;
      AddNeverFails(cfg, s, id, n);
      BookInPlace(cfg, s, n.symbol);
      TakerSide(id, n);
      TakesIff(s.books[n.symbol], TakerOf(id, n), n.qty);
    }
  }

  /**
   In the code a query of a known symbol for some quantity is fatal exactly when a level counts for
   nothing or the cost, kept to 32 bits, is not positive; with exact amounts it never is.
   */
  lemma QueryFatalIff(cfg: Config, ledger: Ledger, es: seq<Event>, symbol: string, qty: Int32, side: Side)
    requires ConfigOk(cfg) && NonNegative(ledger) && symbol in cfg.symbols && qty > 0
    ensures var s := After(cfg, ledger, es);
            && symbol in s.books
            && var q := SideOf(s.books[symbol], side);
            var fatal := Fatal(cfg.width, s, CostQuery(symbol, qty, side));
            && (q == [] || cfg.width.Exact? ==> !fatal)
            && (q != [] && cfg.width.Bits32? ==>
                  && (fatal <==> !Counts(q, qty) || Wrap32(Counted(q, qty)) <= 0)
                  && (!Understated(q, qty) ==> (fatal <==> !Served(q, qty) || Wrap32(CostOf(q, qty)) <= 0)))
  {
    hide Inv, ConfigOk, NonNegative, Run, Init, Answer32, CostOf, Understated, Served, Counts, Counted;
    RunKeeps(cfg, ledger, es);
    var s := After(cfg, ledger, es);
    BooksAreSymbols(cfg, s);
    BookInPlace(cfg, s, symbol);
    var q := SideOf(s.books[symbol], side);
    if q != [] {
      ExactQuoteIsRight(q, side, qty);
      AnswerFailsIff(q, side, qty);
    }
  }

  lemma TakerSide(id: int, n: NewOrder)
    ensures TakerOf(id, n).side == n.side
  {
  }

  /** Tickers of up to four letters and user names of up to fifteen. */
  ghost predicate ShortNames(cfg: Config) {
    && (forall symbol :: symbol in cfg.symbols ==> |symbol| <= 4)
    && (forall user :: user in cfg.users ==> |user| <= 15)
  }

  /** No sum of a level that a snapshot shows is lost to the width. */
  predicate SumsShow(w: Width, s: State) {
    w.Exact? || forall symbol :: symbol in s.books ==>
                  && TopSumsOk(s.books[symbol].bids, ORDER_BOOK_AGGREGATE_LEVELS)
                  && TopSumsOk(s.books[symbol].asks, ORDER_BOOK_AGGREGATE_LEVELS)
  }

  /** Where every name fits, no new order stops the engine, and a snapshot does exactly when a level sum is lost. */
  lemma ShortNamesAreSafe(cfg: Config, ledger: Ledger, es: seq<Event>, e: Event)
    requires ConfigOk(cfg) && NonNegative(ledger) && ShortNames(cfg)
    requires Enabled(After(cfg, ledger, es), e) && After(cfg, ledger, es).meUp
    ensures var s := After(cfg, ledger, es);
            && (e.Engine? && s.reqQ[0].NewReq? ==> Next(cfg, s, e).meUp)
            && (e.Flush? ==> (Next(cfg, s, e).meUp <==> SumsShow(cfg.width, s)))
  {
    hide Inv, ConfigOk, NonNegative, Run, Init, Next, TopSumsOk;
    var s := After(cfg, ledger, es);
    RunKeeps(cfg, ledger, es);
    EngineStopsIff(cfg, ledger, es, e);
    BooksAreSymbols(cfg, s);
    if e.Engine? && s.reqQ[0].NewReq? { ShortNamesFit(cfg, s, s.reqQ[0].id, s.reqQ[0].order); }
  }

  lemma ShortNamesFit(cfg: Config, s: State, id: int, n: NewOrder)
    requires ConfigOk(cfg) && Inv(cfg, s) && ShortNames(cfg) && s.reqQ != [] && s.reqQ[0] == NewReq(id, n)
    ensures !Fatal(cfg.width, s, s.reqQ[0])
  {
    hide Inv, ConfigOk, AddOk, Hit;
    AddNeverFails(cfg, s, id, n);
    BookInPlace(cfg, s, n.symbol);
    SenderIsUser(cfg, s, id);
    var far := SideOf(s.books[n.symbol], Opposite(n.side));
    forall i | 0 <= i < |far| ensures !Overlong(far, TakerOf(id, n), i) {
      assert RestOk(far[i], n.symbol, s.hist.accepted, s.hist);
      SenderIsUser(cfg, s, far[i].id);
    }
  }

  lemma SenderIsUser(cfg: Config, s: State, id: int)
    requires Inv(cfg, s) && id in s.hist.accepted
    ensures s.hist.accepted[id].order.sender in cfg.users && s.hist.accepted[id].order.symbol in cfg.symbols
  {
    assert AccOk(cfg, s.om, id, s.hist.accepted[id]);
  }

  lemma BooksAreSymbols(cfg: Config, s: State)
    requires Inv(cfg, s)
    ensures s.books.Keys == cfg.symbols
  {
  }

  /** Every book is ordered, uncrossed, positive and free of duplicate ids. */
  lemma BooksStayOrdered(cfg: Config, ledger: Ledger, es: seq<Event>, symbol: string)
    requires ConfigOk(cfg) && NonNegative(ledger) && symbol in cfg.symbols
    ensures symbol in After(cfg, ledger, es).books && BookInv(After(cfg, ledger, es).books[symbol])
  {
    RunKeeps(cfg, ledger, es);
    var s := After(cfg, ledger, es);
    assert BookRests(s.books[symbol], symbol, s.hist);
  }

  // ---------------------------------------------------------------- agreement of the processes

  /** The cancelled quantity whose response is still under way. */
  ghost function AwaitedCancel(s: State, id: int): int {
    if Awaits(s.respQ, id) then Get(s.hist.cancelled, id) else 0
  }

  /**
   For an accepted order that was not refunded, the order manager's open quantity is what is on its
   way, resting, traded but unsettled, cancelled but unsettled, or dropped by the engine. The engine
   drops quantity of market orders and of limit orders at the largest price only.
   */
  lemma ProcessesAgree(cfg: Config, ledger: Ledger, es: seq<Event>, id: int)
    requires ConfigOk(cfg) && NonNegative(ledger)
    requires var s := After(cfg, ledger, es); id in s.hist.accepted && id !in s.hist.refunded
    ensures var s := After(cfg, ledger, es);
            var n := s.hist.accepted[id].order;
            && id in s.om.infos && n.symbol in s.books
            && s.om.infos[id].leaves ==
               Ahead(s.reqQ, id) + BookQty(s.books[n.symbol], id) + InTrades(s.respQ, id)
               + AwaitedCancel(s, id) + Get(s.hist.dropped, id)
            && (n.ordType.Limit? && n.ordType.price < MAX_INT ==> id !in s.hist.dropped)
  {
    var s := After(cfg, ledger, es);
    RunKeeps(cfg, ledger, es);
    AgreementOf(cfg, s, id);
  }

  lemma AgreementOf(cfg: Config, s: State, id: int)
    requires Inv(cfg, s) && id in s.hist.accepted && id !in s.hist.refunded
    ensures QtyOk(s, id) && Get(s.hist.cancelled, id) == AwaitedCancel(s, id)
    ensures var n := s.hist.accepted[id].order;
            n.ordType.Limit? && n.ordType.price < MAX_INT ==> id !in s.hist.dropped
  {
    hide IdsInv, NonNegative, ReqInv, BooksInv, MarketInv, BlockedInv, FiguresInv, LifeInv;
    assert QtyOk(s, id);
    assert AccOk(cfg, s.om, id, s.hist.accepted[id]);
  }

  /**
   When a successful cancel is settled, the refunded quantity is exactly what the book gave up, the
   order was not refunded before, and no later message trades or refunds it.
   */
  lemma RefundIsExact(cfg: Config, ledger: Ledger, es: seq<Event>)
    requires ConfigOk(cfg) && NonNegative(ledger)
    requires var s := After(cfg, ledger, es); s.respQ != [] && s.respQ[0].CancelResp? && s.respQ[0].success
    ensures var s := After(cfg, ledger, es);
            var id := s.respQ[0].id;
            && id in s.om.infos && id in s.hist.cancelled && id !in s.hist.refunded
            && s.om.infos[id].leaves == s.hist.cancelled[id] > 0
            && (forall i :: 0 < i < |s.respQ| ==> !Mentions(s.respQ[i], id))
  {
    var s := After(cfg, ledger, es);
    RunKeeps(cfg, ledger, es);
    ExactRefundOf(cfg, s);
  }

  lemma ExactRefundOf(cfg: Config, s: State)
    requires Inv(cfg, s) && s.respQ != [] && s.respQ[0].CancelResp? && s.respQ[0].success
    ensures var id := s.respQ[0].id;
            && id in s.om.infos && id in s.hist.cancelled && id !in s.hist.refunded
            && s.om.infos[id].leaves == s.hist.cancelled[id] > 0
            && (forall i :: 0 < i < |s.respQ| ==> !Mentions(s.respQ[i], id))
  {
    hide IdsInv, NonNegative, AccInv, MarketInv, BlockedInv, FiguresInv, LifeInv, ReqInv, BooksInv;
    var id := s.respQ[0].id;
    RefundIsDue(cfg, s, id, s.respQ[0].clOrdId);
    forall i | 0 < i < |s.respQ| ensures !Mentions(s.respQ[i], id) {}
    var tail := s.respQ[1..];
    forall i | 0 <= i < |tail| ensures !Mentions(tail[i], id) { assert tail[i] == s.respQ[i + 1]; }
    InTradesZero(tail, id);
    assert QtyOk(s, id);
    PastIsNotAhead(s, id);
    CancelledIsNotResting(cfg, s, id);
  }

  lemma PastIsNotAhead(s: State, id: int)
    requires ReqInv(s) && id < s.hist.frontier
    ensures Ahead(s.reqQ, id) == 0
  {
    forall i | 0 <= i < |s.reqQ| && s.reqQ[i].NewReq? ensures s.reqQ[i].id != id {
      assert ReqOk(s.reqQ[i], s.hist.accepted, s.hist.frontier, s.om.infos.Keys, s.om.lastId, s.omUp);
    }
    AheadZero(s.reqQ, id);
  }

  lemma CancelledIsNotResting(cfg: Config, s: State, id: int)
    requires BooksInv(cfg, s.books, s.hist) && id in s.hist.cancelled && id in s.hist.accepted
    requires s.hist.accepted[id].order.symbol in s.books
    ensures BookQty(s.books[s.hist.accepted[id].order.symbol], id) == 0
  {
    var symbol := s.hist.accepted[id].order.symbol;
    assert BookRests(s.books[symbol], symbol, s.hist);
    NotInBook(s.books[symbol], symbol, s.hist, id);
    BookQtyBounds(s.books[symbol], id);
  }

  /** A refunded order never trades and is never refunded again. */
  lemma RefundedIsSilent(cfg: Config, ledger: Ledger, es: seq<Event>, id: int, i: int)
    requires ConfigOk(cfg) && NonNegative(ledger)
    requires var s := After(cfg, ledger, es); id in s.hist.refunded && 0 <= i < |s.respQ|
    ensures !Mentions(After(cfg, ledger, es).respQ[i], id)
  {
    RunKeeps(cfg, ledger, es);
  }

  // ---------------------------------------------------------------- market bids

  /**
   A market bid on its way is first in line, and what was deducted for it is the answer on the
   current book. That is exactly the notional of the trades it will make, whatever the liquidity,
   exactly when what the levels count for costs as much.
   */
  lemma MarketBidIsExact(cfg: Config, ledger: Ledger, es: seq<Event>, i: int)
    requires ConfigOk(cfg) && NonNegative(ledger)
    requires var s := After(cfg, ledger, es); 0 <= i < |s.reqQ| && s.reqQ[i].NewReq? && IsMarketBid(s.reqQ[i].order)
    ensures var s := After(cfg, ledger, es);
            var id, n := s.reqQ[i].id, s.reqQ[i].order;
            && i == 0 && id in s.hist.accepted && n.symbol in s.books
            && var b, paid := s.books[n.symbol], s.hist.accepted[id].paid;
            var exact := paid == TotalNotional(AddMatch(b, TakerOf(id, n), n.qty).trades);
            && Some(paid) == Quote(cfg.width, b, n.qty, Ask)
            && (exact <==> QuoteFits(cfg.width, b.asks, n.qty))
            && (cfg.width.Exact? ==> exact)
            && (cfg.width.Bits32? && !Understated(b.asks, n.qty) ==>
                  (exact <==> Served(b.asks, n.qty) && CostOf(b.asks, n.qty) <= MAX_INT))
  {
    hide Inv, ConfigOk, NonNegative, Run, Init, AddMatch, TakerOf, CostOf, Answer32, Served, Understated;
    hide Counts, Counted;
    var s := After(cfg, ledger, es);
    RunKeeps(cfg, ledger, es);
    MarketFirst(cfg, s, i);
    var id, n := s.reqQ[0].id, s.reqQ[0].order;
    MarketBidCost(cfg, s, id, n);
    BookInPlace(cfg, s, n.symbol);
    AddNeverFails(cfg, s, id, n);
    var asks := s.books[n.symbol].asks;
    AnswerExactIff(cfg.width, asks, Ask, n.qty);
  }

  lemma MarketFirst(cfg: Config, s: State, i: int)
    requires Inv(cfg, s) && 0 <= i < |s.reqQ| && IsMarketReq(s.reqQ[i])
    ensures i == 0
  {
    hide IdsInv, NonNegative, AccInv, ReqInv, BooksInv, RespInv, CancelInv, QtyInv, BlockedInv, FiguresInv, LifeInv;
  }

  // ---------------------------------------------------------------- report lifecycle

  /**
   The reports of an accepted order tell a legal life: New, rising partial fills whose quantities
   add up, and at the end Filled exactly when nothing is left, or Canceled exactly when refunded.
   */
  lemma LifecycleIsLegal(cfg: Config, ledger: Ledger, es: seq<Event>, id: int)
    requires ConfigOk(cfg) && NonNegative(ledger) && id in After(cfg, ledger, es).hist.accepted
    ensures var s := After(cfg, ledger, es);
            var qty := s.hist.accepted[id].order.qty;
            && id in s.om.infos && s.om.infos[id].cum + s.om.infos[id].leaves == qty
            && LifeOf(s.sent, id, qty) ==
               if s.om.infos[id].leaves == 0 || id in s.hist.refunded then Done else Open(s.om.infos[id].cum)
  {
    var s := After(cfg, ledger, es);
    RunKeeps(cfg, ledger, es);
    assert LifeOk(s, id) && AccOk(cfg, s.om, id, s.hist.accepted[id]);
  }

  /** An order that was never accepted has no New, fill or Canceled report. */
  lemma UnacceptedHasNoLife(cfg: Config, ledger: Ledger, es: seq<Event>, id: int, i: int)
    requires ConfigOk(cfg) && NonNegative(ledger)
    requires id !in After(cfg, ledger, es).hist.accepted && 0 <= i < |After(cfg, ledger, es).sent|
    ensures !TellsLife(After(cfg, ledger, es).sent[i], id)
  {
    var s := After(cfg, ledger, es);
    RunKeeps(cfg, ledger, es);
    assert Belongs(s.sent[i], s.hist.accepted);
  }

  // ---------------------------------------------------------------- average price

  /**
   The kept average against exact fills: right volume, never above the volume-weighted average and
   below it by at most n - 1 units per share but one, exact for one fill, within the fill prices.
   */
  ghost predicate AverageOk(cum: int, avg: int, fills: seq<Exec>) {
    && cum == Volume(fills)
    && 0 <= Value(fills) - avg * Volume(fills) <= (|fills| - 1) * (Volume(fills) - 1)
    && (|fills| == 1 ==> avg == fills[0].price)
    && (forall lo, hi :: BoundPrices(fills, lo, hi) ==> lo <= avg <= hi)
  }

  lemma RunningIsOk(fills: seq<Exec>)
    requires Positive(fills) && fills != []
    ensures AverageOk(Running(Exact, fills).cum, Running(Exact, fills).avg, fills)
  {
    hide Running, Volume, Value;
    AverageError(fills);
    forall lo, hi | BoundPrices(fills, lo, hi) ensures lo <= Running(Exact, fills).avg <= hi {
      AverageBetween(fills, lo, hi);
    }
  }

  predicate BoundPrices(fills: seq<Exec>, lo: int, hi: int) {
    forall i :: 0 <= i < |fills| ==> lo <= fills[i].price <= hi
  }

  /**
   The figures of an order are those of its settled fills. They are within their error of the exact
   ones with exact amounts, and in 32 bits whenever every numerator fits: exactly then they were the
   exact running figures all along. That the order's own traded value fits is enough.
   */
  lemma AveragePriceError(cfg: Config, ledger: Ledger, es: seq<Event>, id: int)
    requires ConfigOk(cfg) && NonNegative(ledger) && id in After(cfg, ledger, es).hist.accepted
    ensures var s := After(cfg, ledger, es);
            var fills := ExecsOf(s.hist.settled, id);
            && id in s.om.infos && Positive(fills) && FiguresIn(s.om.infos[id]) == Running(cfg.width, fills)
            && (FiguresRight(fills) <==> NumeratorsFit(fills))
            && (Value(fills) <= MAX_INT ==> NumeratorsFit(fills))
            && (fills != [] && (cfg.width.Exact? || NumeratorsFit(fills)) ==>
                  AverageOk(s.om.infos[id].cum, s.om.infos[id].avg, fills))
  {
    hide Inv, ConfigOk, NonNegative, Run, Init, AverageOk, FiguresOf, Running, ExecsOf, Positive, Volume, Value;
    hide NumeratorsFit, FiguresRight;
    RunKeeps(cfg, ledger, es);
    var s := After(cfg, ledger, es);
    FiguresAt(cfg, s, id);
    var fills := ExecsOf(s.hist.settled, id);
    FiguresAreRunning(cfg.width, s.hist.settled, id);
    VolumeIsCum(cfg, s, id);
    FiguresRightIff(fills);
    if Value(fills) <= MAX_INT { ValueSuffices(fills); }
    if NumeratorsFit(fills) {
      FittingRunsAgree(fills, |fills|);
      assert fills[..|fills|] == fills;
      assert Running(Bits32, fills) == Running(Exact, fills);
    }
    if fills != [] && (cfg.width.Exact? || NumeratorsFit(fills)) {
      RunningIsOk(fills);
      assert cfg.width == Exact || cfg.width == Bits32;
      assert FiguresIn(s.om.infos[id]) == Running(Exact, fills);
    }
  }

  lemma FiguresAt(cfg: Config, s: State, id: int)
    requires Inv(cfg, s) && id in s.hist.accepted
    ensures id in s.om.infos && FiguresIn(s.om.infos[id]) == FiguresOf(cfg.width, s.hist.settled, id)
    ensures Positive(ExecsOf(s.hist.settled, id))
  {
    var ts := s.hist.settled;
    forall i | 0 <= i < |ts| ensures ts[i].price > 0 && ts[i].qty > 0 {
      assert TradeFits(ts[i], s.hist.accepted, s.hist.frontier);
    }
    ExecsPositive(ts, id);
  }

  lemma VolumeIsCum(cfg: Config, s: State, id: int)
    requires Inv(cfg, s) && id in s.hist.accepted
    ensures Volume(ExecsOf(s.hist.settled, id)) <= MAX_INT
  {
    hide Inv;
    FiguresAt(cfg, s, id);
    FiguresAreRunning(cfg.width, s.hist.settled, id);
    CumIsVolume(cfg.width, ExecsOf(s.hist.settled, id));
    CumIsWithin(cfg, s, id);
  }

  lemma {:induction false} CumIsVolume(w: Width, es: seq<Exec>)
    ensures Running(w, es).cum == Volume(es)
  {
    if es != [] { CumIsVolume(w, es[..|es| - 1]); }
  }

  lemma CumIsWithin(cfg: Config, s: State, id: int)
    requires Inv(cfg, s) && id in s.hist.accepted
    ensures id in s.om.infos && 0 <= s.om.infos[id].cum <= s.hist.accepted[id].order.qty <= MAX_INT
  {
    hide Inv;
    LeavesCoverTrades(cfg, s, id);
    FillsAddUp(cfg, s, id);
  }

  lemma FillsAddUp(cfg: Config, s: State, id: int)
    requires Inv(cfg, s) && id in s.hist.accepted
    ensures id in s.om.infos && s.om.infos[id].cum >= 0
    ensures s.om.infos[id].leaves + s.om.infos[id].cum == s.hist.accepted[id].order.qty
  {
    assert AccOk(cfg, s.om, id, s.hist.accepted[id]);
  }
}
