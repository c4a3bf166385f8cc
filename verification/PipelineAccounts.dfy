/** What each event does to each account, told from the orders it concerns. */
module PipelineAccounts {
  import opened Common
  import opened Messages
  import opened BalanceLedger
  import opened OrderManagement
  import opened Pipeline
  import opened PipelineInv
  import opened PipelineSettle
  import opened PipelineRuns
  import opened PipelineTheorems
  import opened Circulation

  // ---------------------------------------------------------------- trades

  /** The orders of a trade by their sides. */
  function BidOf(t: Trade, acc: Orders): int {
    if t.takerOrder in acc && acc[t.takerOrder].order.side == Bid then t.takerOrder else t.makerOrder
  }

  function AskOf(t: Trade, acc: Orders): int {
    if t.takerOrder in acc && acc[t.takerOrder].order.side == Ask then t.takerOrder else t.makerOrder
  }

  /** What a limit bid had set aside for these units beyond their price. */
  function Saved(bid: NewOrder, t: Trade): int {
    if bid.ordType.Limit? then (bid.ordType.price - t.price) * t.qty else 0
  }

  /** What settling a trade adds to one balance of one user. */
  function Paid(w: Width, bid: NewOrder, ask: NewOrder, t: Trade, user: string, ticker: string): int {
    (if user == bid.sender && ticker == bid.symbol then t.qty else 0)
    + (if user == bid.sender && ticker == USD_SYMBOL then Keep(w, Saved(bid, t)) else 0)
    + (if user == ask.sender && ticker == USD_SYMBOL then Keep(w, t.price * t.qty) else 0)
  }

  ghost predicate Settles(w: Width, l: Ledger, l': Ledger, t: Trade, bid: NewOrder, ask: NewOrder) {
    forall user, ticker :: Balance(l', user, ticker) == Balance(l, user, ticker) + Paid(w, bid, ask, t, user, ticker)
  }

  /**
   Over every run: settling a trade gives the sender of its bid the shares and what the bid had set
   aside beyond the price, and the sender of its ask the proceeds; no other balance moves. If it
   stops the order manager before its reports, it moves none at all.
   */
  lemma TradeIsPaid(cfg: Config, ledger: Ledger, es: seq<Event>)
    requires ConfigOk(cfg) && NonNegative(ledger)
    requires var s := After(cfg, ledger, es); Enabled(s, Deliver) && s.respQ[0].TradeResp?
    ensures var s := After(cfg, ledger, es);
            var s', t, acc := Next(cfg, s, Deliver), s.respQ[0].trade, s.hist.accepted;
            var i, j := BidOf(t, acc), AskOf(t, acc);
            && i in acc && acc[i].order.side == Bid && j in acc && acc[j].order.side == Ask
            && acc[i].order.symbol == acc[j].order.symbol == t.ticker
            && (if s'.sent == s.sent then s'.om == s.om && !s'.omUp
                else Settles(cfg.width, s.om.ledger, s'.om.ledger, t, acc[i].order, acc[j].order))
  {
    hide Inv, ConfigOk, NonNegative, Run, Init, Settles, BidOf, AskOf, DeliverTrade;
    RunKeeps(cfg, ledger, es);
    PaidOf(cfg, After(cfg, ledger, es));
  }

  lemma PaidOf(cfg: Config, s: State)
    requires ConfigOk(cfg) && Inv(cfg, s) && s.omUp && s.respQ != [] && s.respQ[0].TradeResp?
    ensures var t, acc := s.respQ[0].trade, s.hist.accepted;
            var s', i, j := DeliverTrade(cfg, s, t), BidOf(t, acc), AskOf(t, acc);
            && i in acc && acc[i].order.side == Bid && j in acc && acc[j].order.side == Ask
            && acc[i].order.symbol == acc[j].order.symbol == t.ticker
            && (if s'.sent == s.sent then s'.om == s.om && !s'.omUp
                else Settles(cfg.width, s.om.ledger, s'.om.ledger, t, acc[i].order, acc[j].order))
  {
    hide Inv, ConfigOk, SettleGuards, PersistGuards, PayOut, Paid, FillBoth, FillReport, BidOf, AskOf, AccInv;
    hide TradeFits, Improvement, Returned, Keep;
    var t, acc, w := s.respQ[0].trade, s.hist.accepted, cfg.width;
    TradeAt(cfg, s, t);
    SidesOf(cfg, s.om, acc, t, s.hist.frontier);
    if SettleGuards(w, s.om, t) {
      assert |DeliverTrade(cfg, s, t).sent| == |s.sent| + 2;
      var bid, ask := acc[BidOf(t, acc)].order, acc[AskOf(t, acc)].order;
      var imp := Improvement(s.om.infos, t);
      var returned, proceeds := Keep(w, Returned(s.om.infos, t)), Keep(w, Notional(t));
      forall user, ticker
        ensures Balance(PayOut(s.om.ledger, t, imp, returned, proceeds), user, ticker) ==
                Balance(s.om.ledger, user, ticker) + Paid(w, bid, ask, t, user, ticker)
      {
        PayOutCells(s.om.ledger, t, imp, returned, proceeds, user, ticker);
        PaidIs(w, bid, ask, t, imp, user, ticker);
      }
    }
  }

  /** Whose orders they are, and what the bid saved. */
  lemma SidesOf(cfg: Config, om: OmState, acc: Orders, t: Trade, frontier: int)
    requires AccInv(cfg, om, acc) && TradeFits(t, acc, frontier)
    ensures var i, j := BidOf(t, acc), AskOf(t, acc);
            && i in acc && acc[i].order.side == Bid && j in acc && acc[j].order.side == Ask
            && acc[i].order.symbol == acc[j].order.symbol == t.ticker
            && acc[i].order.sender == Buyer(t) && acc[j].order.sender == Seller(t)
            && Returned(om.infos, t) == Saved(acc[i].order, t) == Improvement(om.infos, t) * t.qty
            && 0 <= Improvement(om.infos, t) && t.takerOrder in om.infos && t.makerOrder in om.infos
  {
    assert AccOk(cfg, om, t.takerOrder, acc[t.takerOrder]) && AccOk(cfg, om, t.makerOrder, acc[t.makerOrder]);
  }

  lemma PayOutCells(l: Ledger, t: Trade, imp: int, returned: int, proceeds: int, user: string, ticker: string)
    ensures Balance(PayOut(l, t, imp, returned, proceeds), user, ticker) == Balance(l, user, ticker)
            + (if user == Buyer(t) && ticker == t.ticker then t.qty else 0)
            + (if imp > 0 && user == Buyer(t) && ticker == USD_SYMBOL then returned else 0)
            + (if user == Seller(t) && ticker == USD_SYMBOL then proceeds else 0)
  {
    hide Update, Buyer, Seller, Balance;
    var l1 := CreditStock(l, t);
    UpdateCells(l, Buyer(t), t.ticker, t.qty);
    UpdateCells(l1, Buyer(t), USD_SYMBOL, returned);
    UpdateCells(CreditImprovement(l1, t, imp, returned), Seller(t), USD_SYMBOL, proceeds);
  }

  lemma PaidIs(w: Width, bid: NewOrder, ask: NewOrder, t: Trade, imp: int, user: string, ticker: string)
    requires bid.sender == Buyer(t) && bid.symbol == t.ticker && ask.sender == Seller(t) && Saved(bid, t) == imp * t.qty
    requires imp >= 0
    ensures Paid(w, bid, ask, t, user, ticker) ==
            (if user == Buyer(t) && ticker == t.ticker then t.qty else 0)
            + (if imp > 0 && user == Buyer(t) && ticker == USD_SYMBOL then Keep(w, imp * t.qty) else 0)
            + (if user == Seller(t) && ticker == USD_SYMBOL then Keep(w, Notional(t)) else 0)
  {
    hide Buyer, Seller, Saved;
    KeepNothing(w);
    hide Keep;
  }

  lemma KeepNothing(w: Width)
    ensures Keep(w, 0) == 0
  {
  }

  // ---------------------------------------------------------------- cancels

  /** What a successful cancel of `qty` units adds to one balance of one user. */
  function GivenBack(w: Width, n: NewOrder, qty: int, user: string, ticker: string): int {
    if user != n.sender then 0
    else if n.side == Ask then if ticker == n.symbol then qty else 0
    else if ticker == USD_SYMBOL && n.ordType.Limit? then Keep(w, n.ordType.price * qty) else 0
  }

  /**
   Over every run: a successful cancel gives its order's sender what was set aside for the units the
   book gave up, and moves no other balance; a refused one moves none.
   */
  lemma RefundIsPaid(cfg: Config, ledger: Ledger, es: seq<Event>)
    requires ConfigOk(cfg) && NonNegative(ledger)
    requires var s := After(cfg, ledger, es); Enabled(s, Deliver) && s.respQ[0].CancelResp?
    ensures var s := After(cfg, ledger, es);
            var s', id := Next(cfg, s, Deliver), s.respQ[0].id;
            if !s.respQ[0].success || s'.sent == s.sent then s'.om == s.om
            else
              && id in s.hist.accepted && id in s.hist.cancelled
              && forall user, ticker ::
                   Balance(s'.om.ledger, user, ticker) == Balance(s.om.ledger, user, ticker)
                   + GivenBack(cfg.width, s.hist.accepted[id].order, s.hist.cancelled[id], user, ticker)
  {
    hide Inv, ConfigOk, NonNegative, Run, Init, DeliverCancel, GivenBack;
    RunKeeps(cfg, ledger, es);
    var s := After(cfg, ledger, es);
    if s.respQ[0].success { ExactRefundOf(cfg, s); }
    GivenBackOf(cfg, s);
  }

  lemma GivenBackOf(cfg: Config, s: State)
    requires ConfigOk(cfg) && Inv(cfg, s) && s.omUp && s.respQ != [] && s.respQ[0].CancelResp?
    requires s.respQ[0].success ==> s.respQ[0].id in s.om.infos && s.respQ[0].id in s.hist.cancelled
                                    && s.om.infos[s.respQ[0].id].leaves == s.hist.cancelled[s.respQ[0].id]
    ensures var id, success := s.respQ[0].id, s.respQ[0].success;
            var s' := DeliverCancel(cfg, s, id, s.respQ[0].clOrdId, success);
            if !success || s'.sent == s.sent then s'.om == s.om
            else
              && id in s.hist.accepted && id in s.hist.cancelled
              && forall user, ticker ::
                   Balance(s'.om.ledger, user, ticker) == Balance(s.om.ledger, user, ticker)
                   + GivenBack(cfg.width, s.hist.accepted[id].order, s.hist.cancelled[id], user, ticker)
  {
    hide IdsInv, LedgerInv, BooksInv, ReqInv, QtyInv, MarketInv, BlockedInv, FiguresInv, LifeInv;
    hide Keep, CancelReport, CancelGuards, CancelPersists, Update;
    var id, success := s.respQ[0].id, s.respQ[0].success;
    if success {
      assert RespOk(s.respQ[0], s.hist, s.om.infos.Keys, s.omUp);
      assert AccOk(cfg, s.om, id, s.hist.accepted[id]);
      var info := s.om.infos[id];
      UpdateCells(s.om.ledger, info.sender, RefundTicker(info), RefundAmount(cfg.width, info));
    }
  }

  // ---------------------------------------------------------------- everything else

  /** Cancel requests and the engine move no balance. */
  lemma OthersMoveNothing(cfg: Config, s: State, e: Event)
    requires e.RequestCancel? || e.Engine? || e.Flush?
    ensures Next(cfg, s, e).om == s.om
  {
    hide CancelStep, ServeStep, FlushStep;
    if e.RequestCancel? { CancelId(cfg, s, e.request); } else { EngineId(cfg.width, s); }
  }
}
