/** Every step moves USD and shares between places; the amounts it makes or loses are named. */
module PipelineMoney {
  import opened Common
  import opened BookSpec
  import opened BookCost
  import opened Messages
  import opened BalanceLedger
  import opened OrderManagement
  import opened Pipeline
  import opened PipelineInv
  import opened PipelineMeasures
  import opened PipelineIntake
  import opened PipelineAccept
  import opened PipelineSettle
  import opened PipelineEngine

  ghost predicate SharesKept(s: State, s': State) {
    forall symbol :: symbol != USD_SYMBOL ==> TotalShares(s', symbol) == TotalShares(s, symbol)
  }

  /** Both conserved quantities, for USD and for every share. */
  ghost predicate Conserved(s: State, s': State) {
    TotalUsd(s') == TotalUsd(s) && SharesKept(s, s')
  }

  // ---------------------------------------------------------------- USD made and lost

  /** A settlement loses what its width does not keep of the amounts it credits. */
  function DeliverChange(w: Width, s: State): int
    requires s.respQ != []
  {
    match s.respQ[0]
    case TradeResp(t) =>
      if SettleGuards(w, s.om, t) then -Lost(w, Returned(s.om.infos, t)) - Lost(w, Notional(t)) else 0
    case CancelResp(id, _, success) =>
      if success && CancelGuards(w, s.om, id, success) && s.om.infos[id].side == Bid
      then -Lost(w, ReservedFor(s.om.infos[id])) else 0
  }

  /** A market bid that was charged less than its trades cost makes the difference. */
  function ServeChange(s: State): int
    requires s.reqQ != []
  {
    if s.reqQ[0].NewReq? && IsMarketBid(s.reqQ[0].order) && s.reqQ[0].id in s.hist.accepted
       && s.reqQ[0].order.symbol in s.books
       && Takes(s.books[s.reqQ[0].order.symbol], TakerOf(s.reqQ[0].id, s.reqQ[0].order), s.reqQ[0].order.qty)
    then CostOf(s.books[s.reqQ[0].order.symbol].asks, s.reqQ[0].order.qty) - s.hist.accepted[s.reqQ[0].id].paid
    else 0
  }

  /** The USD that one event makes out of nothing or, when negative, loses. */
  function UsdChange(cfg: Config, s: State, e: Event): int {
    if e.Deliver? && Enabled(s, e) then DeliverChange(cfg.width, s)
    else if e.Engine? && Enabled(s, e) then ServeChange(s)
    else 0
  }

  // ---------------------------------------------------------------- frames

  /** What is held for orders does not change when their records and refunds do not. */
  lemma HeldSame(s: State, s': State)
    requires s'.hist.accepted == s.hist.accepted && s'.hist.refunded == s.hist.refunded
    requires forall id :: id in s.hist.accepted ==>
               id in s.om.infos && id in s'.om.infos && s'.om.infos[id].leaves == s.om.infos[id].leaves
    ensures UsdOf(s') == UsdOf(s) && forall symbol :: SharesOf(s', symbol) == SharesOf(s, symbol)
  {
    assert UsdOf(s') == UsdOf(s);
    forall symbol ensures SharesOf(s', symbol) == SharesOf(s, symbol) {
      assert forall id :: id in s.hist.accepted ==> HeldShares(s', id, symbol) == HeldShares(s, id, symbol);
    }
  }

  /** Steps that change neither a balance nor the place of any reservation. */
  lemma QuietConserves(s: State, s': State)
    requires Grown(s.om.infos, s'.om.infos) && s'.om.ledger == s.om.ledger
    requires forall id :: id in s.hist.accepted ==> id in s.om.infos
    requires s'.hist.accepted == s.hist.accepted && s'.hist.refunded == s.hist.refunded
    requires ReqReserve(s'.reqQ, s.hist.accepted) == ReqReserve(s.reqQ, s.hist.accepted)
    requires RespMarket(s'.respQ, s.hist.accepted) == RespMarket(s.respQ, s.hist.accepted)
    ensures Conserved(s, s')
  {
    HeldSame(s, s');
  }

  // ---------------------------------------------------------------- acceptance

  /** The reservation moves from the balance to the order, or to the queue for a market bid. */
  lemma AcceptConserves(cfg: Config, s: State, id: int, n: NewOrder, cost: Option<int>)
    requires ConfigOk(cfg) && Decidable(cfg, s, id, n, cost)
    requires Validate(cfg.symbols, s.om.ledger, n, cost).verdict.Ok?
    ensures Conserved(s, Decided(cfg, s, id, n, cost))
  {
    hide Inv;
    var s' := Decided(cfg, s, id, n, cost);
    ValidateOk(cfg.symbols, s.om.ledger, n, cost);
    FreshIsNotRefunded(cfg, s, id);
    AcceptChannels(cfg, s, id, n, cost);
    AcceptUsd(cfg, s, s', id, n, cost);
    forall symbol | symbol != USD_SYMBOL ensures TotalShares(s', symbol) == TotalShares(s, symbol) {
      AcceptShares(cfg, s, s', id, n, cost, symbol);
    }
  }

  lemma AcceptChannels(cfg: Config, s: State, id: int, n: NewOrder, cost: Option<int>)
    requires Inv(cfg, s) && id !in s.hist.accepted
    ensures var a := Accepted(n, Reserved(n, cost));
            var acc' := s.hist.accepted[id := a];
            && ReqReserve(s.reqQ + [NewReq(id, n)], acc') ==
               ReqReserve(s.reqQ, s.hist.accepted) + (if IsMarketBid(n) then Reserved(n, cost) else 0)
            && RespMarket(s.respQ, acc') == RespMarket(s.respQ, s.hist.accepted)
  {
    var a := Accepted(n, Reserved(n, cost));
    var acc' := s.hist.accepted[id := a];
    forall i | 0 <= i < |s.reqQ| && s.reqQ[i].NewReq? ensures s.reqQ[i].id in s.hist.accepted {
      assert ReqOk(s.reqQ[i], s.hist.accepted, s.hist.frontier, s.om.infos.Keys, s.om.lastId, s.omUp);
    }
    ReqReserveAppend(s.reqQ, NewReq(id, n), acc');
    ReqReserveStable(s.reqQ, s.hist.accepted, id, a);
    forall i | 0 <= i < |s.respQ| && s.respQ[i].TradeResp?
        ensures TradeFits(s.respQ[i].trade, s.hist.accepted, s.hist.frontier) {
      assert RespOk(s.respQ[i], s.hist, s.om.infos.Keys, s.omUp);
    }
    RespMarketStable(s.respQ, s.hist.accepted, s.hist.frontier, id, a);
  }

  lemma AcceptUsd(cfg: Config, s: State, s': State, id: int, n: NewOrder, cost: Option<int>)
    requires id in s.om.infos && id !in s.hist.accepted && id !in s.hist.refunded && s.om.infos[id].leaves == n.qty
    requires s'.om.infos == s.om.infos && s'.hist.refunded == s.hist.refunded
    requires s'.hist.accepted == s.hist.accepted[id := Accepted(n, Reserved(n, cost))]
    requires s'.reqQ == s.reqQ + [NewReq(id, n)] && s'.respQ == s.respQ
    requires ReqReserve(s'.reqQ, s'.hist.accepted) ==
             ReqReserve(s.reqQ, s.hist.accepted) + (if IsMarketBid(n) then Reserved(n, cost) else 0)
    requires RespMarket(s.respQ, s'.hist.accepted) == RespMarket(s.respQ, s.hist.accepted)
    requires n.side == Ask ==> n.symbol != USD_SYMBOL
    requires s'.om.ledger == Update(s.om.ledger, n.sender, DebitTicker(n), -DebitAmount(n, cost))
    ensures TotalUsd(s') == TotalUsd(s)
  {
    assert UsdOf(s') == UsdOf(s)[id := HeldUsd(s', id)];
    SumMapUpdate(UsdOf(s), id, HeldUsd(s', id));
    UpdateTotal(s.om.ledger, n.sender, DebitTicker(n), -DebitAmount(n, cost), USD_SYMBOL);
  }

  lemma AcceptShares(cfg: Config, s: State, s': State, id: int, n: NewOrder, cost: Option<int>, symbol: string)
    requires id in s.om.infos && id !in s.hist.accepted && id !in s.hist.refunded && s.om.infos[id].leaves == n.qty
    requires s'.om.infos == s.om.infos && s'.hist.refunded == s.hist.refunded
    requires s'.hist.accepted == s.hist.accepted[id := Accepted(n, Reserved(n, cost))]
    requires s'.om.ledger == Update(s.om.ledger, n.sender, DebitTicker(n), -DebitAmount(n, cost))
    ensures symbol != USD_SYMBOL ==> TotalShares(s', symbol) == TotalShares(s, symbol)
  {
    assert SharesOf(s', symbol) == SharesOf(s, symbol)[id := HeldShares(s', id, symbol)];
    SumMapUpdate(SharesOf(s, symbol), id, HeldShares(s', id, symbol));
    UpdateTotal(s.om.ledger, n.sender, DebitTicker(n), -DebitAmount(n, cost), symbol);
  }

  // ---------------------------------------------------------------- settlement of a trade

  /** The three credits of a trade in the totals. */
  lemma PayOutTotals(l: Ledger, t: Trade, imp: int, returned: int, proceeds: int, ticker: string)
    requires t.ticker != USD_SYMBOL
    ensures Total(PayOut(l, t, imp, returned, proceeds), ticker) ==
            Total(l, ticker)
            + (if ticker == t.ticker then t.qty else 0)
            + (if ticker == USD_SYMBOL then (if imp > 0 then returned else 0) + proceeds else 0)
  {
    hide Total, Update;
    var l1 := CreditStock(l, t);
    UpdateTotal(l, Buyer(t), t.ticker, t.qty, ticker);
    UpdateTotal(l1, Buyer(t), USD_SYMBOL, returned, ticker);
    UpdateTotal(CreditImprovement(l1, t, imp, returned), Seller(t), USD_SYMBOL, proceeds, ticker);
  }

  /** The buyer's reservation, held or under way, shrinks by what the trade pays out. */
  lemma BuyerGivesUp(cfg: Config, s: State, s': State, t: Trade)
    requires AccInv(cfg, s.om, s.hist.accepted) && TradeFits(t, s.hist.accepted, s.hist.frontier)
    requires BuyerOrder(t) in s.om.infos && BuyerOrder(t) in s'.om.infos && BuyerOrder(t) !in s.hist.refunded
    requires s'.om.infos[BuyerOrder(t)].leaves == s.om.infos[BuyerOrder(t)].leaves - t.qty
    requires s'.hist.accepted == s.hist.accepted && s'.hist.refunded == s.hist.refunded
    ensures HeldUsd(s, BuyerOrder(t)) + MarketNotional(t, s.hist.accepted) ==
            HeldUsd(s', BuyerOrder(t)) + Returned(s.om.infos, t) + Notional(t)
  {
    var b := BuyerOrder(t);
    OnlyImprovement(cfg, s.om, s.hist.accepted, t, s.hist.frontier);
    if IsLimitBid(s.hist.accepted[b].order) {
      var p: int := s.hist.accepted[b].order.ordType.price;
      assert p * (s.om.infos[b].leaves - t.qty) == p * s.om.infos[b].leaves - p * t.qty;
    }
  }

  lemma SettleUsd(cfg: Config, s: State, s': State, t: Trade)
    requires AccInv(cfg, s.om, s.hist.accepted) && TradeFits(t, s.hist.accepted, s.hist.frontier)
    requires t.takerOrder in s.om.infos && t.makerOrder in s.om.infos && t.ticker != USD_SYMBOL
    requires t.takerOrder != t.makerOrder
    requires BuyerOrder(t) !in s.hist.refunded && BuyerOrder(t) in s.hist.accepted
    requires s'.om == SettleTrade(cfg.width, s.om, t)
    requires s.respQ != [] && s.respQ[0] == TradeResp(t) && s'.respQ == s.respQ[1..]
    requires s'.reqQ == s.reqQ && s'.hist.accepted == s.hist.accepted && s'.hist.refunded == s.hist.refunded
    ensures TotalUsd(s') == TotalUsd(s) - Lost(cfg.width, Returned(s.om.infos, t)) - Lost(cfg.width, Notional(t))
  {
    hide AccInv, TradeFits, PayOut, HeldUsd, MarketNotional, Improvement, Keep, Returned, Notional, Fill;
    var imp, b := Improvement(s.om.infos, t), BuyerOrder(t);
    var returned, proceeds := Keep(cfg.width, Returned(s.om.infos, t)), Keep(cfg.width, Notional(t));
    NothingReturned(cfg.width, s.om.infos, t);
    OnlyImprovement(cfg, s.om, s.hist.accepted, t, s.hist.frontier);
    PayOutTotals(s.om.ledger, t, imp, returned, proceeds, USD_SYMBOL);
    FillBothEntries(cfg.width, s.om.infos, t);
    FilledLeaves(cfg.width, s.om.infos[b], t);
    BuyerGivesUp(cfg, s, s', t);
    SettleHeldUsd(cfg.width, s, s', t);
    SumMapUpdate(UsdOf(s), b, HeldUsd(s', b));
    assert UsdOf(s)[b] == HeldUsd(s, b);
  }

  lemma NothingReturned(w: Width, infos: map<int, OrderInfo>, t: Trade)
    ensures Improvement(infos, t) == 0 ==> Keep(w, Returned(infos, t)) == 0
  {
  }

  lemma FilledLeaves(w: Width, info: OrderInfo, t: Trade)
    ensures Fill(w, info, t.price, t.qty).leaves == info.leaves - t.qty
    ensures SameTerms(info, Fill(w, info, t.price, t.qty))
  {
  }

  predicate SameTerms(info: OrderInfo, next: OrderInfo) {
    next.sender == info.sender && next.symbol == info.symbol && next.side == info.side && next.price == info.price
  }

  lemma SettleHeldUsd(w: Width, s: State, s': State, t: Trade)
    requires TradeFits(t, s.hist.accepted, s.hist.frontier)
    requires t.takerOrder in s.om.infos && t.makerOrder in s.om.infos
    requires s'.om.infos == FillBoth(w, s.om.infos, t)
    requires s'.hist.accepted == s.hist.accepted && s'.hist.refunded == s.hist.refunded
    ensures UsdOf(s') == UsdOf(s)[BuyerOrder(t) := HeldUsd(s', BuyerOrder(t))]
  {
    hide Keep, Average;
    FillBothEntries(w, s.om.infos, t);
  }

  lemma SettleHeldShares(w: Width, s: State, s': State, t: Trade, symbol: string)
    requires TradeFits(t, s.hist.accepted, s.hist.frontier)
    requires t.takerOrder in s.om.infos && t.makerOrder in s.om.infos && SellerOrder(t) !in s.hist.refunded
    requires s'.om.infos == FillBoth(w, s.om.infos, t)
    requires s'.hist.accepted == s.hist.accepted && s'.hist.refunded == s.hist.refunded
    ensures SharesOf(s', symbol) == SharesOf(s, symbol)[SellerOrder(t) := HeldShares(s', SellerOrder(t), symbol)]
    ensures HeldShares(s, SellerOrder(t), symbol) ==
            HeldShares(s', SellerOrder(t), symbol) + (if symbol == t.ticker then t.qty else 0)
  {
    hide Keep, Average;
    FillBothEntries(w, s.om.infos, t);
  }

  lemma SettleShares(cfg: Config, s: State, s': State, t: Trade, symbol: string)
    requires AccInv(cfg, s.om, s.hist.accepted) && TradeFits(t, s.hist.accepted, s.hist.frontier)
    requires t.takerOrder in s.om.infos && t.makerOrder in s.om.infos && t.ticker != USD_SYMBOL
    requires SellerOrder(t) !in s.hist.refunded && SellerOrder(t) in s.hist.accepted && symbol != USD_SYMBOL
    requires s'.om == SettleTrade(cfg.width, s.om, t)
    requires s'.hist.accepted == s.hist.accepted && s'.hist.refunded == s.hist.refunded
    ensures TotalShares(s', symbol) == TotalShares(s, symbol)
  {
    hide AccInv, TradeFits, PayOut, HeldShares, Improvement, Keep, Returned, Notional, Fill;
    var b := SellerOrder(t);
    PayOutTotals(s.om.ledger, t, Improvement(s.om.infos, t), Keep(cfg.width, Returned(s.om.infos, t)),
                 Keep(cfg.width, Notional(t)), symbol);
    SettleHeldShares(cfg.width, s, s', t, symbol);
    SumMapUpdate(SharesOf(s, symbol), b, HeldShares(s', b, symbol));
    assert SharesOf(s, symbol)[b] == HeldShares(s, b, symbol);
  }

  lemma DeliverTradeMoney(cfg: Config, s: State, t: Trade)
    requires ConfigOk(cfg) && Inv(cfg, s) && s.omUp && s.respQ != [] && s.respQ[0] == TradeResp(t)
    ensures var s' := DeliverTrade(cfg, s, t);
            TotalUsd(s') == TotalUsd(s) + DeliverChange(cfg.width, s) && SharesKept(s, s')
  {
    hide Inv, ConfigOk, SettleGuards, PersistGuards, SettleTrade, TotalUsd, TotalShares, Lost, Returned, Notional;
    hide FillReport;
    var s' := DeliverTrade(cfg, s, t);
    if SettleGuards(cfg.width, s.om, t) {
      TradeInPlace(cfg, s, t);
      PendingFillIsOpen(cfg, s, BuyerOrder(t));
      PendingFillIsOpen(cfg, s, SellerOrder(t));
      TradeIsBetweenTwo(t, s.hist.accepted, s.hist.frontier);
      SettleUsd(cfg, s, s', t);
      forall symbol | symbol != USD_SYMBOL ensures TotalShares(s', symbol) == TotalShares(s, symbol) {
        SettleShares(cfg, s, s', t, symbol);
      }
    } else {
      StoppedIsSame(s);
    }
  }

  /** Stopping moves nothing. */
  lemma StoppedIsSame(s: State)
    ensures TotalUsd(s.(omUp := false)) == TotalUsd(s) && SharesKept(s, s.(omUp := false))
  {
    assert UsdOf(s.(omUp := false)) == UsdOf(s);
    forall symbol ensures SharesOf(s.(omUp := false), symbol) == SharesOf(s, symbol) {}
  }

  lemma TradeInPlace(cfg: Config, s: State, t: Trade)
    requires ConfigOk(cfg) && Inv(cfg, s) && s.respQ != [] && s.respQ[0] == TradeResp(t)
    ensures AccInv(cfg, s.om, s.hist.accepted) && TradeFits(t, s.hist.accepted, s.hist.frontier)
    ensures t.ticker != USD_SYMBOL && t.takerOrder in s.om.infos && t.makerOrder in s.om.infos
  {
    assert RespOk(s.respQ[0], s.hist, s.om.infos.Keys, s.omUp);
    assert AccOk(cfg, s.om, t.takerOrder, s.hist.accepted[t.takerOrder]);
    assert AccOk(cfg, s.om, t.makerOrder, s.hist.accepted[t.makerOrder]);
  }

  // ---------------------------------------------------------------- refunds

  /** `s'` is `s` after the refund of order `id`. */
  ghost predicate Refunds(w: Width, s: State, s': State, id: int) {
    && id in s.hist.accepted && id in s.om.infos && id !in s.hist.refunded
    && SameOrder(s.om.infos[id], s.hist.accepted[id].order) && s.om.infos[id].price.Some?
    && s.hist.accepted[id].order.symbol != USD_SYMBOL
    && s'.om == SettleCancel(w, s.om, id) && s'.reqQ == s.reqQ
    && s.respQ != [] && s.respQ[0].CancelResp? && s'.respQ == s.respQ[1..]
    && s'.hist == s.hist.(refunded := s.hist.refunded + {id})
  }

  lemma RefundUsd(w: Width, s: State, s': State, id: int)
    requires Refunds(w, s, s', id)
    ensures TotalUsd(s') ==
            TotalUsd(s) - (if s.om.infos[id].side == Bid then Lost(w, ReservedFor(s.om.infos[id])) else 0)
  {
    hide Keep, Total;
    var info := s.om.infos[id];
    assert UsdOf(s') == UsdOf(s)[id := 0];
    SumMapUpdate(UsdOf(s), id, 0);
    UpdateTotal(s.om.ledger, info.sender, RefundTicker(info), RefundAmount(w, info), USD_SYMBOL);
  }

  lemma RefundShares(w: Width, s: State, s': State, id: int, symbol: string)
    requires Refunds(w, s, s', id) && symbol != USD_SYMBOL
    ensures TotalShares(s', symbol) == TotalShares(s, symbol)
  {
    hide Keep, Total;
    var info := s.om.infos[id];
    assert SharesOf(s', symbol) == SharesOf(s, symbol)[id := 0];
    SumMapUpdate(SharesOf(s, symbol), id, 0);
    UpdateTotal(s.om.ledger, info.sender, RefundTicker(info), RefundAmount(w, info), symbol);
  }

  lemma DeliverCancelMoney(cfg: Config, s: State, id: int, clOrdId: int, success: bool)
    requires ConfigOk(cfg) && Inv(cfg, s) && s.omUp && s.blocked.None?
    requires s.respQ != [] && s.respQ[0] == CancelResp(id, clOrdId, success)
    ensures var s' := DeliverCancel(cfg, s, id, clOrdId, success);
            TotalUsd(s') == TotalUsd(s) + DeliverChange(cfg.width, s) && SharesKept(s, s')
  {
    hide Inv, ConfigOk, CancelGuards, CancelPersists, SettleCancel, CancelReport, Grown, TotalUsd, TotalShares;
    hide Lost, ReservedFor;
    var s' := DeliverCancel(cfg, s, id, clOrdId, success);
    if !CancelGuards(cfg.width, s.om, id, success) {
      StoppedIsSame(s);
    } else if success {
      RefundIsDue(cfg, s, id, clOrdId);
      LimitOrderOf(cfg, s, id);
      RefundUsd(cfg.width, s, s', id);
      forall symbol | symbol != USD_SYMBOL ensures TotalShares(s', symbol) == TotalShares(s, symbol) {
        RefundShares(cfg.width, s, s', id, symbol);
      }
    } else {
      AcceptedAreKnown(cfg, s);
      GrownSame(s.om.infos);
      QuietConserves(s, s');
    }
  }

  lemma LimitOrderOf(cfg: Config, s: State, id: int)
    requires ConfigOk(cfg) && Inv(cfg, s) && id in s.hist.accepted
    ensures id in s.om.infos && SameOrder(s.om.infos[id], s.hist.accepted[id].order)
    ensures s.hist.accepted[id].order.symbol != USD_SYMBOL
  {
    hide IdsInv, NonNegative, ReqInv, BooksInv, RespInv, CancelInv, QtyInv, MarketInv, BlockedInv, BlockedId;
    hide FiguresInv, LifeInv;
    assert AccOk(cfg, s.om, id, s.hist.accepted[id]);
  }

  lemma AcceptedAreKnown(cfg: Config, s: State)
    requires Inv(cfg, s)
    ensures forall id :: id in s.hist.accepted ==> id in s.om.infos
  {
    forall id | id in s.hist.accepted ensures id in s.om.infos { assert AccOk(cfg, s.om, id, s.hist.accepted[id]); }
  }

  // ---------------------------------------------------------------- the engine

  /** A market bid was charged the answer on the current book; its trades cost what the book asks. */
  lemma MarketBidCost(cfg: Config, s: State, id: int, n: NewOrder)
    requires ConfigOk(cfg) && Inv(cfg, s) && s.reqQ != [] && s.reqQ[0] == NewReq(id, n) && IsMarketBid(n)
    ensures n.symbol in s.books && id in s.hist.accepted
    ensures Some(s.hist.accepted[id].paid) == Quote(cfg.width, s.books[n.symbol], n.qty, Ask)
    ensures CostOf(s.books[n.symbol].asks, n.qty) ==
            TotalNotional(AddMatch(s.books[n.symbol], TakerOf(id, n), n.qty).trades)
  {
    hide Inv, ConfigOk, AddOk, CostOf, Match, Quote;
    AddNeverFails(cfg, s, id, n);
    MarketHead(cfg, s, id, n);
    AsksBelowLargest(cfg, s, n.symbol);
    CostIsMatchNotional(s.books[n.symbol].asks, TakerOf(id, n), n.qty);
  }

  lemma MarketHead(cfg: Config, s: State, id: int, n: NewOrder)
    requires Inv(cfg, s) && s.reqQ != [] && s.reqQ[0] == NewReq(id, n) && IsMarketBid(n)
    ensures n.symbol in s.books && id in s.hist.accepted
    ensures Some(s.hist.accepted[id].paid) == Quote(cfg.width, s.books[n.symbol], n.qty, Ask)
  {
    hide IdsInv, NonNegative, AccInv, ReqInv, BooksInv, RespInv, CancelInv, QtyInv, BlockedInv, BlockedId;
    hide FiguresInv, LifeInv, Quote;
    assert IsMarketReq(s.reqQ[0]);
  }

  lemma AsksBelowLargest(cfg: Config, s: State, symbol: string)
    requires Inv(cfg, s) && symbol in s.books
    ensures forall i :: 0 <= i < |s.books[symbol].asks| ==> s.books[symbol].asks[i].price <= MAX_INT
  {
    hide IdsInv, NonNegative, AccInv, ReqInv, MarketInv, RespInv, CancelInv, QtyInv, BlockedInv, BlockedId;
    hide FiguresInv, LifeInv;
    assert BookRests(s.books[symbol], symbol, s.hist);
  }

  /** What a match adds to the trades that market bids owe. */
  lemma MatchMarketTerm(b: Book, h: History, id: int, n: NewOrder)
    requires BookRests(b, n.symbol, h) && AddOk(b, TakerOf(id, n), n.qty)
    requires id in h.accepted && h.accepted[id].order == n && id >= h.frontier
    ensures var ts := AddMatch(b, TakerOf(id, n), n.qty).trades;
            RespMarket(TradeResps(ts), h.accepted) == if IsMarketBid(n) then TotalNotional(ts) else 0
  {
    var ts := AddMatch(b, TakerOf(id, n), n.qty).trades;
    MatchFits(b, h, id, n);
    forall i | 0 <= i < |ts|
      ensures BuyerOrder(ts[i]) in h.accepted && IsMarketBid(h.accepted[BuyerOrder(ts[i])].order) == IsMarketBid(n)
    {
      assert TradeFits(ts[i], h.accepted, id + 1);
    }
    if IsMarketBid(n) { MatchOfMarketBid(ts, h.accepted); } else { MatchOfOther(ts, h.accepted); }
  }

  lemma BookInPlace(cfg: Config, s: State, symbol: string)
    requires Inv(cfg, s) && symbol in s.books
    ensures BookRests(s.books[symbol], symbol, s.hist)
  {
  }

  lemma EngineNewMoney(cfg: Config, s: State, id: int, n: NewOrder)
    requires ConfigOk(cfg) && Inv(cfg, s) && s.reqQ != [] && s.reqQ[0] == NewReq(id, n)
    ensures var s' := EngineNew(s, id, n); TotalUsd(s') == TotalUsd(s) + ServeChange(s) && SharesKept(s, s')
  {
    hide Inv, ConfigOk, BookRests, AddOk, Takes, AddMatch, Add, TakerOf, Grown, CostOf, Quote;
    AddNeverFails(cfg, s, id, n);
    AcceptedAreKnown(cfg, s);
    var s' := EngineNew(s, id, n);
    if Takes(s.books[n.symbol], TakerOf(id, n), n.qty) {
      var ts := AddMatch(s.books[n.symbol], TakerOf(id, n), n.qty).trades;
      BookInPlace(cfg, s, n.symbol);
      MatchMarketTerm(s.books[n.symbol], s.hist, id, n);
      if IsMarketBid(n) { MarketBidCost(cfg, s, id, n); }
      RespMarketConcat(s.respQ, TradeResps(ts), s.hist.accepted);
      HeldSame(s, s');
    } else {
      GrownSame(s.om.infos);
      QuietConserves(s, s');
    }
  }

  lemma EngineCancelConserves(cfg: Config, s: State, id: int, clOrdId: int, symbol: string)
    requires Inv(cfg, s) && s.reqQ != [] && s.reqQ[0] == CancelReq(id, clOrdId, symbol)
    ensures Conserved(s, EngineCancel(s, id, clOrdId, symbol))
  {
    hide Inv;
    AcceptedAreKnown(cfg, s);
    var s' := EngineCancel(s, id, clOrdId, symbol);
    if symbol in s.books {
      RespMarketConcat(s.respQ, [CancelResp(id, clOrdId, InBook(s.books[symbol], id))], s.hist.accepted);
    }
    QuietConserves(s, s');
  }
}
