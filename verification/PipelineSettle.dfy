/** Settling trades and cancels: no assertion fails and the pipeline invariant is kept. */
module PipelineSettle {
  import opened Arithmetic
  import opened Common
  import opened BookSpec
  import opened Messages
  import opened BalanceLedger
  import opened OrderManagement
  import opened Pipeline
  import opened PipelineInv
  import opened PipelineMeasures
  import opened PipelineIntake
  import opened PipelineAccept

  // ---------------------------------------------------------------- when a trade can be settled

  /** A trade never costs a limit buyer more than it reserved per unit. */
  lemma OnlyImprovement(cfg: Config, om: OmState, acc: Orders, t: Trade, frontier: int)
    requires AccInv(cfg, om, acc) && TradeFits(t, acc, frontier)
    ensures Improvement(om.infos, t) >= 0
    ensures IsLimitBid(acc[BuyerOrder(t)].order) ==>
              Improvement(om.infos, t) == acc[BuyerOrder(t)].order.ordType.price - t.price
    ensures IsMarketBid(acc[BuyerOrder(t)].order) ==> Improvement(om.infos, t) == 0
  {
    assert AccOk(cfg, om, BuyerOrder(t), acc[BuyerOrder(t)]);
  }

  /** Both USD credits of a trade, as far as the width keeps them, leave their accounts non-negative. */
  predicate Covered(w: Width, om: OmState, t: Trade) {
    var imp, returned, proceeds := Improvement(om.infos, t), Keep(w, Returned(om.infos, t)), Keep(w, Notional(t));
    && (imp > 0 ==> Balance(om.ledger, Buyer(t), USD_SYMBOL) + returned >= 0)
    && Balance(om.ledger, Seller(t), USD_SYMBOL)
       + (if imp > 0 && Buyer(t) == Seller(t) then returned else 0) + proceeds >= 0
  }

  /** The USD of an account once the buyer has its improvement, and once the seller is paid. */
  lemma UsdAfter(l: Ledger, t: Trade, imp: int, returned: int, proceeds: int, broker: string)
    requires t.ticker != USD_SYMBOL
    ensures var l2 := CreditImprovement(CreditStock(l, t), t, imp, returned);
            && Balance(CreditStock(l, t), broker, USD_SYMBOL) == Balance(l, broker, USD_SYMBOL)
            && Balance(l2, broker, USD_SYMBOL) ==
               Balance(l, broker, USD_SYMBOL) + (if imp > 0 && broker == Buyer(t) then returned else 0)
            && Balance(CreditSeller(l2, t, proceeds), broker, USD_SYMBOL) ==
               Balance(l2, broker, USD_SYMBOL) + (if broker == Seller(t) then proceeds else 0)
            && (forall b, k :: Owns(l, b, k) ==> Owns(CreditStock(l, t), b, k) && Owns(l2, b, k))
            && (forall b, k :: Owns(l2, b, k) ==> Owns(CreditSeller(l2, t, proceeds), b, k))
            && Owns(CreditSeller(l2, t, proceeds), Seller(t), USD_SYMBOL) && Owns(l2, Buyer(t), t.ticker)
  {
    var l1 := CreditStock(l, t);
    UpdateCells(l, Buyer(t), t.ticker, t.qty);
    UpdateCells(l1, Buyer(t), USD_SYMBOL, returned);
    UpdateCells(CreditImprovement(l1, t, imp, returned), Seller(t), USD_SYMBOL, proceeds);
  }

  /** The shares of the buyer grow, all others stay. */
  lemma SharesAfter(l: Ledger, t: Trade, imp: int, returned: int, proceeds: int, broker: string)
    requires t.ticker != USD_SYMBOL
    ensures Balance(PayOut(l, t, imp, returned, proceeds), broker, t.ticker) ==
            Balance(l, broker, t.ticker) + (if broker == Buyer(t) then t.qty else 0)
  {
    var l1 := CreditStock(l, t);
    UpdateCells(l, Buyer(t), t.ticker, t.qty);
    UpdateCells(l1, Buyer(t), USD_SYMBOL, returned);
    UpdateCells(CreditImprovement(l1, t, imp, returned), Seller(t), USD_SYMBOL, proceeds);
  }

  /** What the books of the order manager say about a trade between accepted orders. */
  lemma TradeRecords(cfg: Config, om: OmState, acc: Orders, t: Trade, frontier: int)
    requires ConfigOk(cfg) && AccInv(cfg, om, acc) && TradeFits(t, acc, frontier)
    ensures t.takerOrder in om.infos && t.makerOrder in om.infos
    ensures t.takerOrder in om.idLeft && t.makerOrder in om.idLeft
    ensures t.qty + om.infos[t.takerOrder].cum > 0 && t.qty + om.infos[t.makerOrder].cum > 0
    ensures Buyer(t) in cfg.users && Seller(t) in cfg.users && t.ticker != USD_SYMBOL && t.ticker != ""
    ensures Owns(om.ledger, Buyer(t), USD_SYMBOL) && Owns(om.ledger, Seller(t), t.ticker)
  {
    assert AccOk(cfg, om, t.takerOrder, acc[t.takerOrder]);
    assert AccOk(cfg, om, t.makerOrder, acc[t.makerOrder]);
  }

  /** Every guard of settling and persisting a trade holds exactly when both credits are covered. */
  lemma TradeSettlesIff(cfg: Config, om: OmState, acc: Orders, t: Trade, frontier: int)
    requires ConfigOk(cfg) && NonNegative(om.ledger) && AccInv(cfg, om, acc) && TradeFits(t, acc, frontier)
    ensures TradeAsserts(cfg, om, t) <==> Covered(cfg.width, om, t)
  {
    hide ConfigOk, AccInv, TradeFits, Update, Returned, Notional, Keep, FillBoth;
    TradeRecords(cfg, om, acc, t, frontier);
    OnlyImprovement(cfg, om, acc, t, frontier);
    hide Improvement;
    TradeIsForward(t, acc, frontier);
    var imp := Improvement(om.infos, t);
    var returned, proceeds := Keep(cfg.width, Returned(om.infos, t)), Keep(cfg.width, Notional(t));
    UsdAfter(om.ledger, t, imp, returned, proceeds, Buyer(t));
    UsdAfter(om.ledger, t, imp, returned, proceeds, Seller(t));
    SharesAfter(om.ledger, t, imp, returned, proceeds, Buyer(t));
    SharesAfter(om.ledger, t, imp, returned, proceeds, Seller(t));
    hide CreditStock, CreditImprovement, CreditSeller;
    assert Balance(om.ledger, Buyer(t), t.ticker) >= 0 && Balance(om.ledger, Seller(t), t.ticker) >= 0;
    assert Balance(om.ledger, Buyer(t), USD_SYMBOL) >= 0 && Balance(om.ledger, Seller(t), USD_SYMBOL) >= 0;
  }

  lemma TradeIsForward(t: Trade, acc: Orders, frontier: int)
    requires TradeFits(t, acc, frontier)
    ensures t.qty > 0 && t.price > 0 && Notional(t) > 0
  {
    ScaleMonotone(1, t.price, t.qty);
  }

  /** Exact credits are always covered. */
  lemma ExactIsCovered(cfg: Config, om: OmState, acc: Orders, t: Trade, frontier: int)
    requires cfg.width.Exact? && NonNegative(om.ledger) && AccInv(cfg, om, acc) && TradeFits(t, acc, frontier)
    ensures Covered(cfg.width, om, t)
  {
    OnlyImprovement(cfg, om, acc, t, frontier);
    TradeIsForward(t, acc, frontier);
    ScaleMonotone(0, Improvement(om.infos, t), t.qty);
    assert Balance(om.ledger, Buyer(t), USD_SYMBOL) >= 0 && Balance(om.ledger, Seller(t), USD_SYMBOL) >= 0;
  }

  /** Over exact amounts no guard of settling and persisting a trade ever fails. */
  lemma TradeNeverFails(cfg: Config, om: OmState, acc: Orders, t: Trade, frontier: int)
    requires ConfigOk(cfg) && cfg.width.Exact? && NonNegative(om.ledger) && AccInv(cfg, om, acc)
    requires TradeFits(t, acc, frontier)
    ensures TradeAsserts(cfg, om, t)
  {
    hide TradeAsserts, Covered, ConfigOk, AccInv, TradeFits;
    ExactIsCovered(cfg, om, acc, t, frontier);
    TradeSettlesIff(cfg, om, acc, t, frontier);
  }

  /** A trade whose credits are covered leaves every balance non-negative. */
  lemma CoveredKeepsNonNegative(w: Width, om: OmState, t: Trade)
    requires t.takerOrder in om.infos && t.makerOrder in om.infos && NonNegative(om.ledger)
    requires t.ticker != USD_SYMBOL && t.qty > 0 && Covered(w, om, t)
    ensures NonNegative(SettleTrade(w, om, t).ledger)
  {
    hide Update, Returned, Notional, Keep, FillBoth, Improvement, NonNegative;
    var imp, returned := Improvement(om.infos, t), Keep(w, Returned(om.infos, t));
    var proceeds := Keep(w, Notional(t));
    var l1 := CreditStock(om.ledger, t);
    var l2 := CreditImprovement(l1, t, imp, returned);
    BalanceNonNegative(om.ledger, Buyer(t), t.ticker);
    UpdateNonNegativeIff(om.ledger, Buyer(t), t.ticker, t.qty);
    UsdAfter(om.ledger, t, imp, returned, proceeds, Buyer(t));
    UsdAfter(om.ledger, t, imp, returned, proceeds, Seller(t));
    if imp > 0 { UpdateNonNegativeIff(l1, Buyer(t), USD_SYMBOL, returned); }
    UpdateNonNegativeIff(l2, Seller(t), USD_SYMBOL, proceeds);
  }

  lemma BalanceNonNegative(l: Ledger, broker: string, ticker: string)
    requires NonNegative(l)
    ensures Balance(l, broker, ticker) >= 0
  {
  }

  // ---------------------------------------------------------------- a trade, conjunct by conjunct

  lemma FillBothEntries(w: Width, infos: map<int, OrderInfo>, t: Trade)
    requires t.takerOrder in infos && t.makerOrder in infos && t.takerOrder != t.makerOrder
    ensures var m := FillBoth(w, infos, t);
            && m.Keys == infos.Keys
            && (forall id :: id in infos ==>
                  m[id] == if id == t.takerOrder || id == t.makerOrder then Fill(w, infos[id], t.price, t.qty)
                           else infos[id])
  {
    hide NextFigures;
  }

  lemma FillKeepsOm(cfg: Config, om: OmState, acc: Orders, t: Trade, frontier: int)
    requires IdsInv(cfg, om) && AccInv(cfg, om, acc) && TradeFits(t, acc, frontier)
    requires t.takerOrder in om.infos && t.makerOrder in om.infos
    ensures var om' := om.(infos := FillBoth(cfg.width, om.infos, t)); IdsInv(cfg, om') && AccInv(cfg, om', acc)
  {
    hide Keep, Average;
    var om' := om.(infos := FillBoth(cfg.width, om.infos, t));
    FillBothEntries(cfg.width, om.infos, t);
    forall j | j in om'.infos ensures OwnerOk(cfg, om', j) { assert OwnerOk(cfg, om, j); }
    forall j | j in acc ensures AccOk(cfg, om', j, acc[j]) { assert AccOk(cfg, om, j, acc[j]); }
  }

  lemma SettleKeepsOm(cfg: Config, om: OmState, acc: Orders, t: Trade, frontier: int)
    requires IdsInv(cfg, om) && AccInv(cfg, om, acc) && TradeFits(t, acc, frontier)
    requires t.takerOrder in om.infos && t.makerOrder in om.infos
    ensures var om' := SettleTrade(cfg.width, om, t); IdsInv(cfg, om') && AccInv(cfg, om', acc)
  {
    hide IdsInv, AccInv, Keep, FillBoth, Returned, Notional, Update;
    var imp, returned := Improvement(om.infos, t), Keep(cfg.width, Returned(om.infos, t));
    FillKeepsOm(cfg, om, acc, t, frontier);
    var o0 := om.(infos := FillBoth(cfg.width, om.infos, t));
    UpdateKeepsOm(cfg, o0, acc, Buyer(t), t.ticker, t.qty);
    var o1 := o0.(ledger := CreditStock(om.ledger, t));
    UpdateKeepsOm(cfg, o1, acc, Buyer(t), USD_SYMBOL, returned);
    var o2 := o1.(ledger := CreditImprovement(o1.ledger, t, imp, returned));
    UpdateKeepsOm(cfg, o2, acc, Seller(t), USD_SYMBOL, Keep(cfg.width, Notional(t)));
  }

  /** What a dequeue leaves true of the response queue. */
  lemma DequeueKeepsResp(s: State, s': State)
    requires RespInv(s) && s.respQ != [] && s'.respQ == s.respQ[1..]
    requires s'.om.infos.Keys == s.om.infos.Keys && (s'.omUp ==> s.omUp)
    requires s'.hist == s.hist.(settled := s'.hist.settled, refunded := s'.hist.refunded)
    requires forall id :: id in s'.hist.refunded && id !in s.hist.refunded ==> IsCancelled(s.respQ[0], id)
    ensures RespInv(s')
  {
    var q, q' := s.respQ, s'.respQ;
    assert forall i :: 0 <= i < |q'| ==> q'[i] == q[i + 1];
    forall i | 0 <= i < |q'| ensures RespOk(q'[i], s'.hist, s'.om.infos.Keys, s'.omUp) {
      assert RespOk(q[i + 1], s.hist, s.om.infos.Keys, s.omUp);
    }
    forall i, id | 0 <= i < |q'| && id in s'.hist.refunded ensures !Mentions(q'[i], id) {
      if id in s.hist.refunded { assert !Mentions(q[i + 1], id); } else { assert !Mentions(q[i + 1], q[0].id); }
    }
    forall i, j | 0 <= i < j < |q'| && q'[i].CancelResp? && q'[i].success ensures !Mentions(q'[j], q'[i].id) {
      assert !Mentions(q[j + 1], q[i + 1].id);
    }
  }

  lemma SettleKeepsCancel(s: State, s': State)
    requires CancelInv(s) && s.respQ != [] && s.respQ[0].TradeResp? && s'.respQ == s.respQ[1..]
    requires s'.hist == s.hist.(settled := s'.hist.settled)
    ensures CancelInv(s')
  {
    forall id | id in s.hist.cancelled && id !in s.hist.refunded ensures Awaits(s'.respQ, id) {
      assert Awaits(s.respQ, id);
      var i :| 0 <= i < |s.respQ| && IsCancelled(s.respQ[i], id);
      assert IsCancelled(s'.respQ[i - 1], id);
    }
  }

  lemma SettleKeepsQty(w: Width, s: State, s': State, t: Trade)
    requires QtyInv(s) && s.respQ != [] && s.respQ[0] == TradeResp(t) && s'.respQ == s.respQ[1..]
    requires t.takerOrder in s.om.infos && t.makerOrder in s.om.infos && t.takerOrder != t.makerOrder
    requires s'.om.infos == FillBoth(w, s.om.infos, t) && s'.reqQ == s.reqQ && s'.books == s.books
    requires s'.hist == s.hist.(settled := s'.hist.settled)
    ensures QtyInv(s')
  {
    FillBothEntries(w, s.om.infos, t);
    forall id | id in s.hist.accepted ensures QtyOk(s', id) { assert QtyOk(s, id); }
  }

  /** A fill in the queue belongs to an order that is open and not refunded. */
  lemma PendingFillIsOpen(cfg: Config, s: State, id: int)
    requires Inv(cfg, s) && s.respQ != [] && s.respQ[0].TradeResp?
    requires id == s.respQ[0].trade.takerOrder || id == s.respQ[0].trade.makerOrder
    ensures id in s.hist.accepted && id in s.om.infos && id !in s.hist.refunded
    ensures s.om.infos[id].leaves >= s.respQ[0].trade.qty > 0
  {
    var t := s.respQ[0].trade;
    assert RespOk(s.respQ[0], s.hist, s.om.infos.Keys, s.omUp);
    assert Mentions(s.respQ[0], id);
    LeavesCoverTrades(cfg, s, id);
    assert FilledBy(t, id) == t.qty;
  }

  lemma AheadCounts(cfg: Config, s: State, id: int)
    requires ReqInv(s) && AccInv(cfg, s.om, s.hist.accepted)
    ensures Ahead(s.reqQ, id) >= 0
  {
    forall i | 0 <= i < |s.reqQ| && s.reqQ[i].NewReq? ensures s.reqQ[i].order.qty > 0 {
      assert ReqOk(s.reqQ[i], s.hist.accepted, s.hist.frontier, s.om.infos.Keys, s.om.lastId, s.omUp);
      assert AccOk(cfg, s.om, s.reqQ[i].id, s.hist.accepted[s.reqQ[i].id]);
    }
    AheadNonNegative(s.reqQ, id);
  }

  lemma TradesCount(s: State)
    requires RespInv(s)
    ensures PositiveTrades(s.respQ)
  {
    forall i | 0 <= i < |s.respQ| && s.respQ[i].TradeResp? ensures s.respQ[i].trade.qty > 0 {
      assert RespOk(s.respQ[i], s.hist, s.om.infos.Keys, s.omUp);
    }
  }

  lemma BookCounts(cfg: Config, s: State, symbol: string, id: int)
    requires BooksInv(cfg, s.books, s.hist) && symbol in s.books
    ensures BookQty(s.books[symbol], id) >= 0 && (BookQty(s.books[symbol], id) > 0 <==> InBook(s.books[symbol], id))
  {
    assert BookRests(s.books[symbol], symbol, s.hist);
    BookQtyBounds(s.books[symbol], id);
  }

  /** Every term of the open quantity is non-negative. */
  lemma LeavesCoverTrades(cfg: Config, s: State, id: int)
    requires Inv(cfg, s) && id in s.hist.accepted
    ensures QtyOk(s, id) && s.om.infos[id].leaves >= InTrades(s.respQ, id) >= 0
    ensures s.om.infos[id].leaves >= Get(s.hist.cancelled, id) >= 0 && Get(s.hist.dropped, id) >= 0
    ensures Ahead(s.reqQ, id) >= 0 && BookQty(s.books[s.hist.accepted[id].order.symbol], id) >= 0
    ensures forall i :: 0 <= i < |s.respQ| && s.respQ[i].TradeResp? ==>
        InTrades(s.respQ, id) >= FilledBy(s.respQ[i].trade, id)
  {
    hide IdsInv, NonNegative, AccInv, ReqInv, BooksInv, RespInv, MarketInv, BlockedInv, FiguresInv, LifeInv;
    assert QtyOk(s, id);
    AheadCounts(cfg, s, id);
    BookCounts(cfg, s, s.hist.accepted[id].order.symbol, id);
    TradesCount(s);
    InTradesBounds(s.respQ, id);
  }

  lemma SettleKeepsFigures(w: Width, s: State, s': State, t: Trade)
    requires FiguresInv(w, s) && TradeFits(t, s.hist.accepted, s.hist.frontier)
    requires t.takerOrder in s.om.infos && t.makerOrder in s.om.infos
    requires s'.om.infos == FillBoth(w, s.om.infos, t) && s'.hist == s.hist.(settled := s.hist.settled + [t])
    ensures FiguresInv(w, s')
  {
    hide Keep, Average;
    FillBothEntries(w, s.om.infos, t);
    forall id | id in s.hist.accepted
      ensures id in s'.om.infos && FiguresIn(s'.om.infos[id]) == FiguresOf(w, s'.hist.settled, id)
    {
      FiguresAppend(w, s.hist.settled, t, id);
    }
  }

  /** One fill report moves an open order along its life. */
  lemma FillMovesLife(w: Width, om: OmState, t: Trade, isTaker: bool, info: OrderInfo, qty: int)
    requires var id := if isTaker then t.takerOrder else t.makerOrder;
             id in om.infos && id in om.idLeft && om.infos[id] == Fill(w, info, t.price, t.qty)
    requires info.leaves >= t.qty > 0 && info.leaves + info.cum == qty
    ensures var r := FillReport(om, t, isTaker);
            Live(Open(info.cum), r, qty) == if r.leaves == 0 then Done else Open(r.cum)
  {
  }

  lemma SettleKeepsLife(cfg: Config, s: State, t: Trade)
    requires Inv(cfg, s) && s.respQ != [] && s.respQ[0] == TradeResp(t) && SettleGuards(cfg.width, s.om, t)
    ensures LifeInv(DeliverTrade(cfg, s, t))
  {
    hide Keep, PayOut, PersistGuards, Fill;
    var s' := DeliverTrade(cfg, s, t);
    assert RespOk(s.respQ[0], s.hist, s.om.infos.Keys, s.omUp);
    FillBothEntries(cfg.width, s.om.infos, t);
    PendingFillIsOpen(cfg, s, t.takerOrder);
    PendingFillIsOpen(cfg, s, t.makerOrder);
    SettleLife(cfg, s, s', t);
  }

  lemma ReportsBelong(s: State, more: seq<Report>)
    requires LifeInv(s) && forall i :: 0 <= i < |more| ==> Belongs(more[i], s.hist.accepted)
    ensures forall i :: 0 <= i < |s.sent + more| ==> Belongs((s.sent + more)[i], s.hist.accepted)
  {
    hide Belongs, LifeOk;
    forall i | 0 <= i < |s.sent + more| ensures Belongs((s.sent + more)[i], s.hist.accepted) {
      if i < |s.sent| { assert Belongs(s.sent[i], s.hist.accepted); }
    }
  }

  lemma SettleLife(cfg: Config, s: State, s': State, t: Trade)
    requires LifeInv(s) && AccInv(cfg, s.om, s.hist.accepted) && t.takerOrder != t.makerOrder && t.qty > 0
    requires forall id :: id in {t.takerOrder, t.makerOrder} ==>
               id in s.hist.accepted && id in s.om.infos && id in s.om.idLeft && id !in s.hist.refunded
               && s.om.infos[id].leaves >= t.qty
    requires s'.om.infos == FillBoth(cfg.width, s.om.infos, t) && s'.om.idLeft == s.om.idLeft
    requires s'.sent == s.sent + [FillReport(s'.om, t, true), FillReport(s'.om, t, false)]
    requires s'.hist == s.hist.(settled := s'.hist.settled)
    ensures LifeInv(s')
  {
    hide Keep, Average;
    FillBothEntries(cfg.width, s.om.infos, t);
    var r1, r2 := FillReport(s'.om, t, true), FillReport(s'.om, t, false);
    assert s'.sent == s.sent + [r1] + [r2];
    forall id | id in s.hist.accepted ensures LifeOk(s', id) {
      var qty := s.hist.accepted[id].order.qty;
      assert LifeOk(s, id) && AccOk(cfg, s.om, id, s.hist.accepted[id]);
      LifeAppend(s.sent, r1, id, qty);
      LifeAppend(s.sent + [r1], r2, id, qty);
      if id == t.takerOrder { FillMovesLife(cfg.width, s'.om, t, true, s.om.infos[id], qty); }
      if id == t.makerOrder { FillMovesLife(cfg.width, s'.om, t, false, s.om.infos[id], qty); }
    }
    ReportsBelong(s, [r1, r2]);
  }

  /** Settling the next trade, or stopping on it, keeps the invariant. It stops exactly when a credit is not covered. */
  lemma DeliverTradeKeepsInv(cfg: Config, s: State, t: Trade)
    requires ConfigOk(cfg) && Inv(cfg, s) && s.omUp && s.blocked.None? && s.respQ != [] && s.respQ[0] == TradeResp(t)
    ensures Inv(cfg, DeliverTrade(cfg, s, t)) && (DeliverTrade(cfg, s, t).omUp <==> Covered(cfg.width, s.om, t))
  {
    hide SettleGuards, PersistGuards, Covered, SettleTrade;
    TradeAt(cfg, s, t);
    hide Inv, ConfigOk;
    TradeSettlesIff(cfg, s.om, s.hist.accepted, t, s.hist.frontier);
    if SettleGuards(cfg.width, s.om, t) {
      SettleKeepsLife(cfg, s, t);
      SettledLedger(cfg, s, t);
      DeliverTradeFrame(cfg, s, t);
    } else {
      StopKeepsInv(cfg, s);
    }
  }

  lemma TradeAt(cfg: Config, s: State, t: Trade)
    requires Inv(cfg, s) && s.omUp && s.respQ != [] && s.respQ[0] == TradeResp(t)
    ensures NonNegative(s.om.ledger) && AccInv(cfg, s.om, s.hist.accepted)
    ensures TradeFits(t, s.hist.accepted, s.hist.frontier)
  {
    assert RespOk(s.respQ[0], s.hist, s.om.infos.Keys, s.omUp);
  }

  lemma SettledLedger(cfg: Config, s: State, t: Trade)
    requires ConfigOk(cfg) && NonNegative(s.om.ledger) && AccInv(cfg, s.om, s.hist.accepted)
    requires TradeFits(t, s.hist.accepted, s.hist.frontier) && SettleGuards(cfg.width, s.om, t)
    ensures LedgerInv(cfg, DeliverTrade(cfg, s, t))
  {
    hide ConfigOk, AccInv, TradeFits, PayOut, FillBoth, NonNegative, Covered, PersistGuards, Keep, FillReport;
    TradeSettlesIff(cfg, s.om, s.hist.accepted, t, s.hist.frontier);
    TradeRecords(cfg, s.om, s.hist.accepted, t, s.hist.frontier);
    TradeIsForward(t, s.hist.accepted, s.hist.frontier);
    if cfg.width.Exact? { ExactIsCovered(cfg, s.om, s.hist.accepted, t, s.hist.frontier); }
    if Covered(cfg.width, s.om, t) { CoveredKeepsNonNegative(cfg.width, s.om, t); }
  }

  lemma DeliverTradeFrame(cfg: Config, s: State, t: Trade)
    requires Inv(cfg, s) && s.blocked.None? && s.respQ != [] && s.respQ[0] == TradeResp(t)
    requires SettleGuards(cfg.width, s.om, t) && TradeFits(t, s.hist.accepted, s.hist.frontier)
    requires LifeInv(DeliverTrade(cfg, s, t)) && LedgerInv(cfg, DeliverTrade(cfg, s, t))
    ensures Inv(cfg, DeliverTrade(cfg, s, t))
  {
    hide IdsInv, NonNegative, AccInv, BooksInv, RespInv, CancelInv, QtyInv, FiguresInv, LifeInv, TradeFits, LedgerInv;
    hide PersistGuards, PayOut, FillBoth, Keep, FillReport;
    var s' := DeliverTrade(cfg, s, t);
    SettleKeepsOm(cfg, s.om, s.hist.accepted, t, s.hist.frontier);
    TradeIsBetweenTwo(t, s.hist.accepted, s.hist.frontier);
    FillBothEntries(cfg.width, s.om.infos, t);
    BooksFrame(cfg, s.books, s.hist, s'.hist);
    DequeueKeepsResp(s, s');
    SettleKeepsCancel(s, s');
    SettleKeepsQty(cfg.width, s, s', t);
    SettleKeepsFigures(cfg.width, s, s', t);
  }

  lemma TradeIsBetweenTwo(t: Trade, acc: Orders, frontier: int)
    requires TradeFits(t, acc, frontier)
    ensures t.takerOrder != t.makerOrder
  {
  }

  lemma BooksFrame(cfg: Config, books: map<string, Book>, h: History, h': History)
    requires BooksInv(cfg, books, h)
    requires h' == h.(settled := h'.settled, refunded := h'.refunded)
    ensures BooksInv(cfg, books, h')
  {
    forall symbol | symbol in books ensures BookRests(books[symbol], symbol, h') {
      assert BookRests(books[symbol], symbol, h);
    }
  }

  // ---------------------------------------------------------------- a cancel response

  /** The next cancel response is a refund of an open, never refunded limit order. */
  lemma RefundIsDue(cfg: Config, s: State, id: int, clOrdId: int)
    requires Inv(cfg, s) && s.respQ != [] && s.respQ[0] == CancelResp(id, clOrdId, true)
    ensures id in s.hist.accepted && id in s.om.infos && id in s.hist.cancelled && id !in s.hist.refunded
    ensures s.hist.accepted[id].order.ordType.Limit? && s.om.infos[id].leaves > 0
  {
    assert RespOk(s.respQ[0], s.hist, s.om.infos.Keys, s.omUp);
    assert AccOk(cfg, s.om, id, s.hist.accepted[id]);
    assert Mentions(s.respQ[0], id);
    LeavesCoverTrades(cfg, s, id);
  }

  /** What a successful cancel credits, as far as the width keeps it, leaves the account non-negative. */
  predicate RefundCovered(w: Width, om: OmState, id: int)
    requires id in om.infos
  {
    var info := om.infos[id];
    Balance(om.ledger, info.sender, RefundTicker(info)) + RefundAmount(w, info) >= 0
  }

  /** Every guard of settling and persisting a refund holds exactly when it is covered. */
  lemma RefundSettlesIff(cfg: Config, om: OmState, id: int, a: Accepted)
    requires ConfigOk(cfg) && NonNegative(om.ledger) && AccOk(cfg, om, id, a) && a.order.ordType.Limit?
    ensures CancelAsserts(cfg, om, id, true) <==> RefundCovered(cfg.width, om, id)
    ensures RefundCovered(cfg.width, om, id) <==> NonNegative(SettleCancel(cfg.width, om, id).ledger)
    ensures CancelGuards(cfg.width, om, id, true) ==> CancelAsserts(cfg, om, id, true)
  {
    hide Keep, ReservedFor;
    var info := om.infos[id];
    BalanceNonNegative(om.ledger, info.sender, RefundTicker(info));
    UpdateNonNegativeIff(om.ledger, info.sender, RefundTicker(info), RefundAmount(cfg.width, info));
    UpdateCells(om.ledger, info.sender, RefundTicker(info), RefundAmount(cfg.width, info));
  }

  lemma RefundOfExact(cfg: Config, om: OmState, id: int, a: Accepted)
    requires cfg.width.Exact? && NonNegative(om.ledger) && AccOk(cfg, om, id, a)
    requires a.order.ordType.Limit? && om.infos[id].leaves >= 0
    ensures RefundCovered(cfg.width, om, id)
  {
    var info := om.infos[id];
    ScaleMonotone(0, info.price.value, info.leaves);
    BalanceNonNegative(om.ledger, info.sender, RefundTicker(info));
  }

  /** The order manager can settle the next cancel response. */
  predicate CancelCovered(w: Width, om: OmState, id: int, success: bool) {
    success && id in om.infos ==> RefundCovered(w, om, id)
  }

  /** Every guard on the way of a cancel response holds exactly when its refund is covered; an exact one is. */
  lemma CancelSettlesIff(cfg: Config, s: State, id: int, clOrdId: int, success: bool)
    requires ConfigOk(cfg) && Inv(cfg, s) && s.omUp && s.respQ != [] && s.respQ[0] == CancelResp(id, clOrdId, success)
    ensures CancelAsserts(cfg, s.om, id, success) <==> CancelCovered(cfg.width, s.om, id, success)
    ensures CancelGuards(cfg.width, s.om, id, success) ==> CancelAsserts(cfg, s.om, id, success)
    ensures cfg.width.Exact? ==> CancelCovered(cfg.width, s.om, id, success)
    ensures success && CancelCovered(cfg.width, s.om, id, success) ==>
              id in s.om.infos && NonNegative(SettleCancel(cfg.width, s.om, id).ledger)
  {
    hide CancelAsserts, CancelGuards, NonNegative, QtyInv, LifeInv, FiguresInv, MarketInv, BlockedInv, BooksInv, ReqInv;
    hide RefundCovered, SettleCancel, ConfigOk;
    assert RespOk(s.respQ[0], s.hist, s.om.infos.Keys, s.omUp);
    if success {
      RefundIsDue(cfg, s, id, clOrdId);
      assert AccOk(cfg, s.om, id, s.hist.accepted[id]);
      RefundSettlesIff(cfg, s.om, id, s.hist.accepted[id]);
      if cfg.width.Exact? { RefundOfExact(cfg, s.om, id, s.hist.accepted[id]); }
    } else {
      RefusalAsserts(cfg, s.om, id);
    }
  }

  /** Over exact amounts no guard on the way of a cancel response ever fails. */
  lemma CancelNeverFails(cfg: Config, s: State, id: int, clOrdId: int, success: bool)
    requires ConfigOk(cfg) && Inv(cfg, s) && s.omUp && s.respQ != [] && s.respQ[0] == CancelResp(id, clOrdId, success)
    requires cfg.width.Exact?
    ensures CancelAsserts(cfg, s.om, id, success)
  {
    hide Inv, ConfigOk, CancelAsserts, CancelCovered;
    CancelSettlesIff(cfg, s, id, clOrdId, success);
  }

  lemma RefusalAsserts(cfg: Config, om: OmState, id: int)
    requires IdsInv(cfg, om) && id in om.infos
    ensures CancelAsserts(cfg, om, id, false)
  {
  }

  lemma RefundKeepsCancel(s: State, s': State, id: int, success: bool)
    requires CancelInv(s) && s.respQ != [] && s.respQ[0].CancelResp? && s.respQ[0].id == id
        && s.respQ[0].success == success
    requires s'.respQ == s.respQ[1..] && (success ==> id in s.hist.cancelled)
    requires s'.hist == if success then s.hist.(refunded := s.hist.refunded + {id}) else s.hist
    ensures CancelInv(s')
  {
    forall j | j in s.hist.cancelled && j !in s'.hist.refunded ensures Awaits(s'.respQ, j) {
      assert Awaits(s.respQ, j);
      var i :| 0 <= i < |s.respQ| && IsCancelled(s.respQ[i], j);
      assert IsCancelled(s'.respQ[i - 1], j);
    }
  }

  lemma RefundKeepsQty(s: State, s': State)
    requires QtyInv(s) && s.respQ != [] && s.respQ[0].CancelResp? && s'.respQ == s.respQ[1..]
    requires s'.om.infos == s.om.infos && s'.reqQ == s.reqQ && s'.books == s.books
    requires s'.hist == s.hist.(refunded := s'.hist.refunded)
    ensures QtyInv(s')
  {
    forall id | id in s.hist.accepted ensures QtyOk(s', id) { assert QtyOk(s, id); }
  }

  lemma RefundKeepsLogs(w: Width, s: State, s': State, id: int, clOrdId: int, success: bool)
    requires FiguresInv(w, s) && LifeInv(s) && id in s.om.infos && id in s.om.idLeft
    requires success ==> id in s.hist.accepted && s.om.infos[id].leaves > 0 && id !in s.hist.refunded
    requires s'.om.infos == s.om.infos && s'.om.idLeft == s.om.idLeft
    requires s'.sent == s.sent + [CancelReport(s'.om, id, clOrdId, success)]
    requires s'.hist == if success then s.hist.(refunded := s.hist.refunded + {id}) else s.hist
    ensures FiguresInv(w, s') && LifeInv(s')
  {
    var r := CancelReport(s'.om, id, clOrdId, success);
    forall j | j in s.hist.accepted ensures LifeOk(s', j) {
      assert LifeOk(s, j);
      LifeAppend(s.sent, r, j, s.hist.accepted[j].order.qty);
    }
    ReportsBelong(s, [r]);
  }

  /** Settling the next cancel response, or stopping on it, keeps the invariant. */
  lemma DeliverCancelKeepsInv(cfg: Config, s: State, id: int, clOrdId: int, success: bool)
    requires ConfigOk(cfg) && Inv(cfg, s) && s.omUp && s.blocked.None?
    requires s.respQ != [] && s.respQ[0] == CancelResp(id, clOrdId, success)
    ensures Inv(cfg, DeliverCancel(cfg, s, id, clOrdId, success))
    ensures DeliverCancel(cfg, s, id, clOrdId, success).omUp <==> CancelCovered(cfg.width, s.om, id, success)
  {
    hide Inv, ConfigOk, CancelGuards, CancelPersists, CancelCovered, SettleCancel;
    CancelSettlesIff(cfg, s, id, clOrdId, success);
    if CancelGuards(cfg.width, s.om, id, success) {
      if success { RefundIsDue(cfg, s, id, clOrdId); }
      DeliverCancelFrame(cfg, s, id, clOrdId, success);
    } else {
      StopKeepsInv(cfg, s);
    }
  }

  lemma DeliverCancelFrame(cfg: Config, s: State, id: int, clOrdId: int, success: bool)
    requires Inv(cfg, s) && s.omUp && s.blocked.None? && s.respQ != [] && s.respQ[0] == CancelResp(id, clOrdId, success)
    requires CancelAsserts(cfg, s.om, id, success)
    requires success ==> NonNegative(SettleCancel(cfg.width, s.om, id).ledger)
    requires success ==>
               && id in s.hist.accepted && id in s.hist.cancelled && id !in s.hist.refunded
               && s.om.infos[id].leaves > 0
    ensures Inv(cfg, DeliverCancel(cfg, s, id, clOrdId, success))
  {
    hide IdsInv, NonNegative, AccInv, BooksInv, RespInv, CancelInv, QtyInv, FiguresInv, LifeInv, CancelReport;
    hide RefundAmount;
    var s' := DeliverCancel(cfg, s, id, clOrdId, success);
    if success {
      var info := s.om.infos[id];
      UpdateKeepsOm(cfg, s.om, s.hist.accepted, info.sender, RefundTicker(info), RefundAmount(cfg.width, info));
    }
    BooksFrame(cfg, s.books, s.hist, s'.hist);
    DequeueKeepsResp(s, s');
    RefundKeepsCancel(s, s', id, success);
    RefundKeepsQty(s, s');
    RefundKeepsLogs(cfg.width, s, s', id, clOrdId, success);
  }
}
