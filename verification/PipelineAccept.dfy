/** Accepting a validated order: the reservation is made and the order is forwarded. */
module PipelineAccept {
  import opened Common
  import opened BookSpec
  import opened BookCost
  import opened Messages
  import opened BalanceLedger
  import opened OrderManagement
  import opened Pipeline
  import opened PipelineInv
  import opened PipelineMeasures
  import opened PipelineIntake

  /** The state in which a registered order is decided; a market bid brings a current cost answer. */
  ghost predicate Decidable(cfg: Config, s: State, id: int, n: NewOrder, cost: Option<int>) {
    && Inv(cfg, s) && s.omUp && s.blocked.None?
    && id == s.om.lastId && id in s.om.infos && id !in s.hist.accepted
    && s.om.infos[id] == OrderInfo(n.sender, n.symbol, n.side, PriceOf(n), n.qty, 0, 0)
    && n.sender in cfg.users && id in s.om.idLeft && s.om.idLeft[id] == TransformId(n.clOrdId, cfg.users[n.sender])
    && (IsMarketBid(n) ==>
          && s.reqQ == [] && n.symbol in s.books
          && cost == Quote(cfg.width, s.books[n.symbol], n.qty, Ask))
  }

  /** What an accepted order takes from its sender's balance. */
  function DebitAmount(n: NewOrder, cost: Option<int>): int {
    if n.side == Bid then Reserved(n, cost) else n.qty
  }

  /** What validation demanded and deducted when it said yes. */
  lemma ValidateOk(symbols: set<string>, l: Ledger, n: NewOrder, cost: Option<int>)
    requires Validate(symbols, l, n, cost).verdict.Ok?
    ensures n.symbol in symbols && n.qty > 0 && (n.ordType.Limit? ==> n.ordType.price > 0)
    ensures IsMarketBid(n) ==> cost.Some?
    ensures Owns(l, n.sender, DebitTicker(n)) && Balance(l, n.sender, DebitTicker(n)) >= DebitAmount(n, cost)
    ensures Validate(symbols, l, n, cost).ledger == Update(l, n.sender, DebitTicker(n), -DebitAmount(n, cost))
  {
  }

  ghost predicate Extends(acc: Orders, acc': Orders) {
    forall id :: id in acc ==> id in acc' && acc'[id] == acc[id]
  }

  /** Moving a balance adds records and removes none. */
  lemma UpdateKeepsOm(cfg: Config, om: OmState, acc: Orders, broker: string, ticker: string, delta: int)
    requires IdsInv(cfg, om) && AccInv(cfg, om, acc)
    ensures var om' := om.(ledger := Update(om.ledger, broker, ticker, delta));
            IdsInv(cfg, om') && AccInv(cfg, om', acc)
  {
    var om' := om.(ledger := Update(om.ledger, broker, ticker, delta));
    UpdateCells(om.ledger, broker, ticker, delta);
    forall j | j in om'.infos ensures OwnerOk(cfg, om', j) { assert OwnerOk(cfg, om, j); }
    forall j | j in acc ensures AccOk(cfg, om', j, acc[j]) { assert AccOk(cfg, om, j, acc[j]); }
  }

  lemma AcceptAcc(cfg: Config, s: State, id: int, n: NewOrder, cost: Option<int>)
    requires IdsInv(cfg, s.om) && NonNegative(s.om.ledger) && AccInv(cfg, s.om, s.hist.accepted)
    requires id in s.om.infos && n.sender in cfg.users
    requires id in s.om.idLeft && s.om.idLeft[id] == TransformId(n.clOrdId, cfg.users[n.sender])
    requires s.om.infos[id] == OrderInfo(n.sender, n.symbol, n.side, PriceOf(n), n.qty, 0, 0)
    requires Validate(cfg.symbols, s.om.ledger, n, cost).verdict.Ok?
    ensures var s' := Decided(cfg, s, id, n, cost);
            IdsInv(cfg, s'.om) && NonNegative(s'.om.ledger) && AccInv(cfg, s'.om, s'.hist.accepted)
  {
    var s' := Decided(cfg, s, id, n, cost);
    hide IdsInv, NonNegative, Validate;
    ValidateOk(cfg.symbols, s.om.ledger, n, cost);
    UpdateKeepsOm(cfg, s.om, s.hist.accepted, n.sender, DebitTicker(n), -DebitAmount(n, cost));
    UpdateNonNegativeIff(s.om.ledger, n.sender, DebitTicker(n), -DebitAmount(n, cost));
    UpdateCells(s.om.ledger, n.sender, DebitTicker(n), -DebitAmount(n, cost));
    forall j | j in s'.hist.accepted ensures AccOk(cfg, s'.om, j, s'.hist.accepted[j]) {
      if j != id { assert AccOk(cfg, s'.om, j, s.hist.accepted[j]); }
    }
  }

  lemma AcceptReq(s: State, s': State, id: int, a: Accepted)
    requires ReqInv(s) && 0 <= id == s.om.lastId && id !in s.hist.accepted
    requires s'.reqQ == s.reqQ + [NewReq(id, a.order)] && s'.hist == s.hist.(accepted := s.hist.accepted[id := a])
    requires s'.om.infos == s.om.infos && s'.om.lastId == s.om.lastId && s'.omUp == s.omUp
    ensures ReqInv(s')
  {
    var q, acc := s.reqQ, s.hist.accepted;
    assert s.hist.frontier <= id;
    forall i | 0 <= i < |s'.reqQ|
      ensures ReqOk(s'.reqQ[i], s'.hist.accepted, s.hist.frontier, s.om.infos.Keys, s.om.lastId, s.omUp)
      ensures i < |q| && s'.reqQ[i].NewReq? ==> s'.reqQ[i].id < id
    {
      if i < |q| {
        assert s'.reqQ[i] == q[i];
        assert ReqOk(q[i], acc, s.hist.frontier, s.om.infos.Keys, s.om.lastId, s.omUp);
      } else {
        assert s'.reqQ[i] == NewReq(id, a.order);
      }
    }
    forall i, j | 0 <= i < j < |s'.reqQ| && s'.reqQ[i].NewReq? && s'.reqQ[j].NewReq?
      ensures s'.reqQ[i].id < s'.reqQ[j].id
    {
      if j < |q| { assert q[i].id < q[j].id; }
    }
  }

  lemma AcceptBooks(cfg: Config, books: map<string, Book>, h: History, h': History)
    requires BooksInv(cfg, books, h) && Extends(h.accepted, h'.accepted)
    requires h' == h.(accepted := h'.accepted)
    ensures BooksInv(cfg, books, h')
  {
    forall symbol | symbol in books ensures BookRests(books[symbol], symbol, h') {
      assert BookRests(books[symbol], symbol, h);
    }
  }

  lemma AcceptResp(s: State, s': State)
    requires RespInv(s) && CancelInv(s) && Extends(s.hist.accepted, s'.hist.accepted)
    requires s'.respQ == s.respQ && s'.om.infos == s.om.infos && s'.omUp == s.omUp
    requires s'.hist == s.hist.(accepted := s'.hist.accepted)
    ensures RespInv(s') && CancelInv(s')
  {
    forall i | 0 <= i < |s.respQ| ensures RespOk(s.respQ[i], s'.hist, s.om.infos.Keys, s.omUp) {
      assert RespOk(s.respQ[i], s.hist, s.om.infos.Keys, s.omUp);
    }
  }

  /** An order the pipeline has not accepted is nowhere behind the order manager. */
  lemma NewcomerIsNowhere(cfg: Config, s: State, id: int, symbol: string)
    requires Inv(cfg, s) && id !in s.hist.accepted && symbol in s.books
    ensures Ahead(s.reqQ, id) == 0 && BookQty(s.books[symbol], id) == 0 && InTrades(s.respQ, id) == 0
    ensures Get(s.hist.cancelled, id) == 0 && Get(s.hist.dropped, id) == 0
  {
    hide IdsInv, NonNegative, AccInv, ReqInv, BooksInv, RespInv, QtyInv, MarketInv, BlockedInv, FiguresInv, LifeInv;
    NewcomerNotAhead(s, id);
    NewcomerNotResting(cfg, s, id, symbol);
    NewcomerNotTraded(s, id);
  }

  lemma NewcomerNotAhead(s: State, id: int)
    requires ReqInv(s) && id !in s.hist.accepted
    ensures Ahead(s.reqQ, id) == 0
  {
    forall i | 0 <= i < |s.reqQ| && s.reqQ[i].NewReq? ensures s.reqQ[i].id != id {
      assert ReqOk(s.reqQ[i], s.hist.accepted, s.hist.frontier, s.om.infos.Keys, s.om.lastId, s.omUp);
    }
    AheadZero(s.reqQ, id);
  }

  lemma NewcomerNotResting(cfg: Config, s: State, id: int, symbol: string)
    requires BooksInv(cfg, s.books, s.hist) && id !in s.hist.accepted && symbol in s.books
    ensures BookQty(s.books[symbol], id) == 0
  {
    var b := s.books[symbol];
    assert BookRests(b, symbol, s.hist);
    forall i | 0 <= i < |b.bids|
        ensures b.bids[i].id != id { assert RestOk(b.bids[i], symbol, s.hist.accepted, s.hist); }
    forall i | 0 <= i < |b.asks|
        ensures b.asks[i].id != id { assert RestOk(b.asks[i], symbol, s.hist.accepted, s.hist); }
    BookQtyBounds(b, id);
  }

  lemma NewcomerNotTraded(s: State, id: int)
    requires RespInv(s) && id !in s.hist.accepted
    ensures InTrades(s.respQ, id) == 0
  {
    forall i | 0 <= i < |s.respQ| ensures !Mentions(s.respQ[i], id) {
      assert RespOk(s.respQ[i], s.hist, s.om.infos.Keys, s.omUp);
    }
    InTradesZero(s.respQ, id);
  }

  lemma AcceptQty(cfg: Config, s: State, id: int, n: NewOrder, cost: Option<int>)
    requires Decidable(cfg, s, id, n, cost) && Validate(cfg.symbols, s.om.ledger, n, cost).verdict.Ok?
    ensures QtyInv(Decided(cfg, s, id, n, cost))
  {
    var s' := Decided(cfg, s, id, n, cost);
    ValidateOk(cfg.symbols, s.om.ledger, n, cost);
    forall j | j in s'.hist.accepted ensures QtyOk(s', j) {
      AheadAppend(s.reqQ, NewReq(id, n), j);
      if j == id { NewcomerIsNowhere(cfg, s, id, n.symbol); } else { assert QtyOk(s, j); }
    }
  }

  lemma AcceptMarket(cfg: Config, s: State, id: int, n: NewOrder, cost: Option<int>)
    requires Decidable(cfg, s, id, n, cost) && Validate(cfg.symbols, s.om.ledger, n, cost).verdict.Ok?
    ensures var s' := Decided(cfg, s, id, n, cost); MarketInv(cfg.width, s') && BlockedInv(cfg.width, s')
  {
    var s' := Decided(cfg, s, id, n, cost);
    ValidateOk(cfg.symbols, s.om.ledger, n, cost);
    forall i | 0 < i < |s'.reqQ| ensures !IsMarketReq(s'.reqQ[i]) {
      if i < |s.reqQ| { assert !IsMarketReq(s.reqQ[i]); }
    }
    if s.reqQ != [] { assert s'.reqQ[0] == s.reqQ[0]; }
  }

  lemma {:induction false} FiguresNone(w: Width, ts: seq<Trade>, id: int)
    requires forall i :: 0 <= i < |ts| ==> ts[i].takerOrder != id && ts[i].makerOrder != id
    ensures FiguresOf(w, ts, id) == Figures(0, 0)
  {
    if ts != [] { FiguresNone(w, ts[..|ts| - 1], id); }
  }

  lemma AcceptFigures(cfg: Config, s: State, id: int, n: NewOrder, cost: Option<int>)
    requires Decidable(cfg, s, id, n, cost) && Validate(cfg.symbols, s.om.ledger, n, cost).verdict.Ok?
    ensures FiguresInv(cfg.width, Decided(cfg, s, id, n, cost))
  {
    hide IdsInv, NonNegative, AccInv, ReqInv, BooksInv, RespInv, CancelInv, QtyInv, MarketInv, BlockedInv;
    hide BlockedId, LifeInv, Validate, TransformId;
    var s' := Decided(cfg, s, id, n, cost);
    forall i | 0 <= i < |s.hist.settled|
      ensures s.hist.settled[i].takerOrder != id && s.hist.settled[i].makerOrder != id
      ensures TradeFits(s.hist.settled[i], s'.hist.accepted, s.hist.frontier)
    {
      assert TradeFits(s.hist.settled[i], s.hist.accepted, s.hist.frontier);
    }
    FiguresNone(cfg.width, s.hist.settled, id);
  }

  lemma AcceptLife(cfg: Config, s: State, id: int, n: NewOrder, cost: Option<int>)
    requires Decidable(cfg, s, id, n, cost) && Validate(cfg.symbols, s.om.ledger, n, cost).verdict.Ok?
    ensures LifeInv(Decided(cfg, s, id, n, cost))
  {
    ValidateOk(cfg.symbols, s.om.ledger, n, cost);
    hide IdsInv, NonNegative, AccInv, ReqInv, BooksInv, RespInv, CancelInv, QtyInv, MarketInv, BlockedInv;
    hide BlockedId, FiguresInv, Validate, TransformId;
    var s' := Decided(cfg, s, id, n, cost);
    forall j | j in s'.hist.accepted ensures LifeOk(s', j) {
      LifeAppend(s.sent, NewReport(n, id), j, s'.hist.accepted[j].order.qty);
      if j == id {
        forall i | 0 <= i < |s.sent| ensures !TellsLife(s.sent[i], id) { assert Belongs(s.sent[i], s.hist.accepted); }
        LifeUnborn(s.sent, id, n.qty);
        FreshIsNotRefunded(cfg, s, id);
      } else {
        assert LifeOk(s, j);
      }
    }
    forall i | 0 <= i < |s'.sent| ensures Belongs(s'.sent[i], s'.hist.accepted) {
      if i < |s.sent| { assert Belongs(s.sent[i], s.hist.accepted); }
    }
  }

  lemma FreshIsNotRefunded(cfg: Config, s: State, id: int)
    requires Inv(cfg, s) && id !in s.hist.accepted
    ensures id !in s.hist.refunded
  {
    hide IdsInv, NonNegative, AccInv, ReqInv, BooksInv, MarketInv, BlockedInv, BlockedId, FiguresInv, LifeInv;
  }

  /** Deciding an order, either way, keeps the invariant. */
  lemma DecideKeepsInv(cfg: Config, s: State, id: int, n: NewOrder, cost: Option<int>)
    requires Decidable(cfg, s, id, n, cost)
    ensures Inv(cfg, Decided(cfg, s, id, n, cost))
  {
    hide NonNegative, AccInv, ReqInv, BooksInv, RespInv, CancelInv, QtyInv, MarketInv, BlockedInv, FiguresInv;
    hide LifeInv, Validate;
    var s' := Decided(cfg, s, id, n, cost);
    var v := Validate(cfg.symbols, s.om.ledger, n, cost);
    if v.verdict.Ok? {
      AcceptAcc(cfg, s, id, n, cost);
      AcceptReq(s, s', id, s'.hist.accepted[id]);
      assert Extends(s.hist.accepted, s'.hist.accepted);
      AcceptBooks(cfg, s.books, s.hist, s'.hist);
      AcceptResp(s, s');
      AcceptQty(cfg, s, id, n, cost);
      AcceptMarket(cfg, s, id, n, cost);
      AcceptFigures(cfg, s, id, n, cost);
      AcceptLife(cfg, s, id, n, cost);
    } else {
      ReportKeepsInv(cfg, s, RejectionReport(n, id, v.verdict.reason));
    }
  }
}
