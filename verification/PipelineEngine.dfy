/** The matching engine's steps: no contract of the book fails and the pipeline invariant is kept. */
module PipelineEngine {
  import opened Common
  import opened BookSpec
  import opened BookCost
  import opened Messages
  import opened BalanceLedger
  import opened OrderManagement
  import opened Pipeline
  import opened PipelineInv
  import opened PipelineMeasures
  import opened PipelineIntake

  // ---------------------------------------------------------------- facts about the next request

  /** An order that is not resting in a book, by its record. */
  lemma NotInBook(b: Book, symbol: string, h: History, id: int)
    requires BookRests(b, symbol, h)
    requires id !in h.accepted || id >= h.frontier || id in h.cancelled || id in h.dropped
             || h.accepted[id].order.symbol != symbol
    ensures !InBook(b, id)
  {
    forall i | 0 <= i < |b.bids| ensures b.bids[i].id != id { assert RestOk(b.bids[i], symbol, h.accepted, h); }
    forall i | 0 <= i < |b.asks| ensures b.asks[i].id != id { assert RestOk(b.asks[i], symbol, h.accepted, h); }
  }

  /** The contract of `add_order` holds for every new order that reaches the engine. */
  lemma AddNeverFails(cfg: Config, s: State, id: int, n: NewOrder)
    requires ConfigOk(cfg) && Inv(cfg, s) && s.reqQ != [] && s.reqQ[0] == NewReq(id, n)
    ensures n.symbol in s.books && AddOk(s.books[n.symbol], TakerOf(id, n), n.qty)
    ensures id in s.hist.accepted && s.hist.accepted[id].order == n && id >= s.hist.frontier
  {
    assert ReqOk(s.reqQ[0], s.hist.accepted, s.hist.frontier, s.om.infos.Keys, s.om.lastId, s.omUp);
    assert AccOk(cfg, s.om, id, s.hist.accepted[id]);
    assert BookRests(s.books[n.symbol], n.symbol, s.hist);
    NotInBook(s.books[n.symbol], n.symbol, s.hist, id);
  }

  // ---------------------------------------------------------------- a new order, conjunct by conjunct

  /** The trades of one match are between accepted orders. */
  lemma MatchFits(b: Book, h: History, id: int, n: NewOrder)
    requires BookRests(b, n.symbol, h) && AddOk(b, TakerOf(id, n), n.qty)
    requires id in h.accepted && h.accepted[id].order == n && id >= h.frontier
    ensures forall i :: 0 <= i < |AddMatch(b, TakerOf(id, n), n.qty).trades| ==>
              var t := AddMatch(b, TakerOf(id, n), n.qty).trades[i];
              && TradeFits(t, h.accepted, id + 1) && t.takerOrder == id
              && t.makerOrder !in h.cancelled
  {
    var t := TakerOf(id, n);
    var far := SideOf(b, Opposite(n.side));
    var r := AddMatch(b, t, n.qty);
    MatchConsumesPrefix(far, t, n.qty);
    forall i | 0 <= i < |r.trades|
      ensures TradeFits(r.trades[i], h.accepted, id + 1) && r.trades[i].takerOrder == id
      ensures r.trades[i].makerOrder !in h.cancelled
    {
      assert r.trades[i] == MakeTrade(t, far[i], r.trades[i].qty);
      assert RestOk(far[i], n.symbol, h.accepted, h);
      assert OrderOk(far[i], Opposite(n.side));
    }
  }

  /** Resting orders keep their records when the frontier moves past a newcomer. */
  lemma SideAdvances(s: seq<Order>, symbol: string, h: History, h': History, id: int)
    requires SideRests(s, symbol, h) && h.frontier <= id
    requires h'.accepted == h.accepted && h'.cancelled == h.cancelled && h'.frontier == id + 1
    requires forall j :: j in h'.dropped ==> j in h.dropped || j == id
    ensures SideRests(s, symbol, h')
  {
    forall i | 0 <= i < |s| ensures RestOk(s[i], symbol, h'.accepted, h') {
      assert RestOk(s[i], symbol, h.accepted, h);
    }
  }

  lemma RemainderRests(far: seq<Order>, r: seq<Order>, side: Side, symbol: string, h: History)
    requires SideRests(far, symbol, h) && SideInv(far, side) && Remainder(far, r, side)
    ensures SideRests(r, symbol, h)
  {
    forall i | 0 <= i < |r| ensures RestOk(r[i], symbol, h.accepted, h) {
      assert From(r[i], far);
      var j :| 0 <= j < |far| && far[j].id == r[i].id && far[j].price == r[i].price && far[j].trader == r[i].trader;
      assert RestOk(far[j], symbol, h.accepted, h) && OrderOk(far[j], side) && OrderOk(r[i], side);
    }
  }

  lemma BookAdvances(b: Book, h: History, h': History, id: int, n: NewOrder)
    requires BookRests(b, n.symbol, h) && AddOk(b, TakerOf(id, n), n.qty)
    requires id in h.accepted && h.accepted[id].order == n && h.frontier <= id
    requires h'.accepted == h.accepted && h'.cancelled == h.cancelled && h'.frontier == id + 1
    requires forall j :: j in h'.dropped ==> j in h.dropped || j == id
    requires id !in h.cancelled
    requires Rests(AddMatch(b, TakerOf(id, n), n.qty).left, EngineLimit(n)) ==> id !in h'.dropped
    ensures BookRests(Add(b, TakerOf(id, n), n.qty), n.symbol, h')
  {
    var t := TakerOf(id, n);
    var r := AddMatch(b, t, n.qty);
    var near, far := SideOf(b, n.side), SideOf(b, Opposite(n.side));
    AddKeepsInv(b, t, n.qty);
    MatchKeepsFar(far, t, n.qty);
    SideAdvances(near, n.symbol, h, h', id);
    SideAdvances(far, n.symbol, h, h', id);
    RemainderRests(far, r.far, Opposite(n.side), n.symbol, h');
    if Rests(r.left, EngineLimit(n)) {
      var o := Order(id, EngineLimit(n), r.left, n.side, n.sender);
      RestKeepsNear(near, o);
      var q := Rest(near, o);
      forall i | 0 <= i < |q| ensures RestOk(q[i], n.symbol, h'.accepted, h') {
        assert q[i] in q;
        if q[i] != o { var k :| 0 <= k < |near| && near[k] == q[i]; }
      }
    }
  }

  lemma NewKeepsBooks(cfg: Config, s: State, id: int, n: NewOrder)
    requires BooksInv(cfg, s.books, s.hist) && CancelInv(s) && s.reqQ != []
    requires n.symbol in s.books && Takes(s.books[n.symbol], TakerOf(id, n), n.qty)
    requires id in s.hist.accepted && s.hist.accepted[id].order == n && id >= s.hist.frontier
    ensures BooksInv(cfg, EngineNew(s, id, n).books, EngineNew(s, id, n).hist)
  {
    var s' := EngineNew(s, id, n);
    forall symbol | symbol in s'.books ensures BookRests(s'.books[symbol], symbol, s'.hist) {
      assert BookRests(s.books[symbol], symbol, s.hist);
      if symbol == n.symbol {
        BookAdvances(s.books[symbol], s.hist, s'.hist, id, n);
      } else {
        SideAdvances(s.books[symbol].bids, symbol, s.hist, s'.hist, id);
        SideAdvances(s.books[symbol].asks, symbol, s.hist, s'.hist, id);
      }
    }
  }

  lemma NewKeepsReq(s: State, id: int, n: NewOrder, s': State)
    requires ReqInv(s) && s.reqQ != [] && s.reqQ[0] == NewReq(id, n) && s'.reqQ == s.reqQ[1..]
    requires s'.om == s.om && s'.omUp == s.omUp && s'.hist.accepted == s.hist.accepted && s'.hist.frontier == id + 1
    ensures ReqInv(s')
  {
    var q, q' := s.reqQ, s'.reqQ;
    assert forall i :: 0 <= i < |q'| ==> q'[i] == q[i + 1];
    assert ReqOk(q[0], s.hist.accepted, s.hist.frontier, s.om.infos.Keys, s.om.lastId, s.omUp);
    forall i | 0 <= i < |q'|
      ensures ReqOk(q'[i], s'.hist.accepted, id + 1, s.om.infos.Keys, s.om.lastId, s.omUp)
    {
      assert ReqOk(q[i + 1], s.hist.accepted, s.hist.frontier, s.om.infos.Keys, s.om.lastId, s.omUp);
    }
  }

  /** Appending fitting messages that name no cancelled order keeps the response queue in order. */
  lemma AppendKeepsResp(s: State, ms: seq<Response>, s': State)
    requires RespInv(s) && CancelInv(s)
    requires s'.respQ == s.respQ + ms && s'.om.infos == s.om.infos && s'.omUp == s.omUp
    requires s'.hist.accepted == s.hist.accepted && s'.hist.refunded == s.hist.refunded
    requires s'.hist.frontier >= s.hist.frontier
    requires forall id :: id in s.hist.cancelled ==> id in s'.hist.cancelled
    requires forall i :: 0 <= i < |ms| ==> RespOk(ms[i], s'.hist, s.om.infos.Keys, s.omUp)
    requires forall i, id :: 0 <= i < |ms| && id in s.hist.cancelled ==> !Mentions(ms[i], id)
    requires |ms| > 1 ==> forall i :: 0 <= i < |ms| ==> ms[i].TradeResp?
    ensures RespInv(s')
  {
    var q := s.respQ;
    forall i | 0 <= i < |s'.respQ| ensures RespOk(s'.respQ[i], s'.hist, s.om.infos.Keys, s.omUp) {
      if i < |q| {
        assert s'.respQ[i] == q[i];
        assert RespOk(q[i], s.hist, s.om.infos.Keys, s.omUp);
      } else {
        assert s'.respQ[i] == ms[i - |q|];
      }
    }
    forall i, j | 0 <= i < j < |s'.respQ| && s'.respQ[i].CancelResp? && s'.respQ[i].success
      ensures !Mentions(s'.respQ[j], s'.respQ[i].id)
    {
      if i < |q| {
        assert RespOk(q[i], s.hist, s.om.infos.Keys, s.omUp);
        if j < |q| { assert !Mentions(q[j], q[i].id); } else { assert !Mentions(ms[j - |q|], q[i].id); }
      }
    }
    forall i, id | 0 <= i < |s'.respQ| && id in s'.hist.refunded ensures !Mentions(s'.respQ[i], id) {
      if i < |q| { assert !Mentions(q[i], id); } else { assert !Mentions(ms[i - |q|], id); }
    }
  }

  lemma AppendKeepsAwaits(q: seq<Response>, ms: seq<Response>, id: int)
    requires Awaits(q, id)
    ensures Awaits(q + ms, id)
  {
    var i :| 0 <= i < |q| && IsCancelled(q[i], id);
    assert IsCancelled((q + ms)[i], id);
  }

  lemma NewKeepsResp(s: State, id: int, n: NewOrder)
    requires RespInv(s) && CancelInv(s) && s.reqQ != []
    requires n.symbol in s.books && Takes(s.books[n.symbol], TakerOf(id, n), n.qty)
    requires BookRests(s.books[n.symbol], n.symbol, s.hist)
    requires id in s.hist.accepted && s.hist.accepted[id].order == n && id >= s.hist.frontier
    ensures RespInv(EngineNew(s, id, n)) && CancelInv(EngineNew(s, id, n))
  {
    var s' := EngineNew(s, id, n);
    var ts := AddMatch(s.books[n.symbol], TakerOf(id, n), n.qty).trades;
    MatchFits(s.books[n.symbol], s.hist, id, n);
    forall i | 0 <= i < |ts|
      ensures RespOk(TradeResps(ts)[i], s'.hist, s.om.infos.Keys, s.omUp)
      ensures forall j :: j in s.hist.cancelled ==> !Mentions(TradeResps(ts)[i], j)
    {
      assert TradeFits(ts[i], s.hist.accepted, id + 1);
    }
    AppendKeepsResp(s, TradeResps(ts), s');
    forall j | j in s.hist.cancelled && j !in s.hist.refunded ensures Awaits(s'.respQ, j) {
      AppendKeepsAwaits(s.respQ, TradeResps(ts), j);
    }
  }

  lemma {:induction false} MadeNonNegative(ts: seq<Trade>, id: int)
    requires forall i :: 0 <= i < |ts| ==> ts[i].qty > 0
    ensures MadeQty(ts, id) >= 0
  {
    if ts != [] { MadeNonNegative(ts[1..], id); }
  }

  /** What one match does to the book quantity and the fills of order `j`. */
  lemma MatchMovesQty(b: Book, h: History, id: int, n: NewOrder, j: int)
    requires BookRests(b, n.symbol, h) && AddOk(b, TakerOf(id, n), n.qty)
    requires id in h.accepted && h.accepted[id].order == n && id >= h.frontier && j in h.accepted
    ensures var r := AddMatch(b, TakerOf(id, n), n.qty);
            var b' := Add(b, TakerOf(id, n), n.qty);
            && r.left >= 0
            && BookQty(b', j) + InTrades(TradeResps(r.trades), j) ==
               BookQty(b, j) + (if j == id then n.qty - (if Rests(r.left, EngineLimit(n)) then 0 else r.left) else 0)
            && (h.accepted[j].order.symbol != n.symbol ==> InTrades(TradeResps(r.trades), j) == 0)
  {
    hide BookRests, AddOk, TradeFits;
    var t := TakerOf(id, n);
    var r := AddMatch(b, t, n.qty);
    MatchFits(b, h, id, n);
    MatchAllTraded(SideOf(b, Opposite(n.side)), t, n.qty);
    AddConservesQty(b, t, n.qty, j);
    MatchFills(r.trades, id, j);
    LeftNonNegative(b, h, t, n);
    if h.accepted[j].order.symbol != n.symbol { MatchSparesOthers(b, h, id, n, j); }
  }

  lemma LeftNonNegative(b: Book, h: History, t: Taker, n: NewOrder)
    requires BookRests(b, n.symbol, h) && AddOk(b, t, n.qty)
    ensures AddMatch(b, t, n.qty).left >= 0
  {
    MatchConsumesPrefix(SideOf(b, Opposite(t.side)), t, n.qty);
  }

  lemma MatchSparesOthers(b: Book, h: History, id: int, n: NewOrder, j: int)
    requires BookRests(b, n.symbol, h) && AddOk(b, TakerOf(id, n), n.qty)
    requires id in h.accepted && h.accepted[id].order == n && id >= h.frontier
    requires j in h.accepted && h.accepted[j].order.symbol != n.symbol
    ensures MadeQty(AddMatch(b, TakerOf(id, n), n.qty).trades, j) == 0
  {
    var t := TakerOf(id, n);
    var r := AddMatch(b, t, n.qty);
    MatchFits(b, h, id, n);
    AddConservesQty(b, t, n.qty, j);
    NotInBook(b, n.symbol, h, j);
    BookQtyBounds(b, j);
    AddKeepsInv(b, t, n.qty);
    BookQtyBounds(Add(b, t, n.qty), j);
    MadeNonNegative(r.trades, j);
  }

  /** Where the quantity of each order goes when the engine takes a new one. */
  lemma NewMovesQty(s: State, id: int, n: NewOrder, j: int)
    requires s.reqQ != [] && s.reqQ[0] == NewReq(id, n) && n.symbol in s.books
    requires BookRests(s.books[n.symbol], n.symbol, s.hist) && Takes(s.books[n.symbol], TakerOf(id, n), n.qty)
    requires id !in s.hist.dropped
    requires id in s.hist.accepted && s.hist.accepted[id].order == n && id >= s.hist.frontier
    requires QtyOk(s, j)
    ensures QtyOk(EngineNew(s, id, n), j)
  {
    hide BookRests, BookQty, Add, AddMatch, TakerOf;
    MatchMovesQty(s.books[n.symbol], s.hist, id, n, j);
    InTradesConcat(s.respQ, TradeResps(AddMatch(s.books[n.symbol], TakerOf(id, n), n.qty).trades), j);
  }

  lemma NewKeepsRest(w: Width, s: State, id: int, n: NewOrder)
    requires MarketInv(w, s) && BlockedInv(w, s) && FiguresInv(w, s) && LifeInv(s)
    requires s.reqQ != [] && s.reqQ[0] == NewReq(id, n) && id >= s.hist.frontier
    requires n.symbol in s.books && Takes(s.books[n.symbol], TakerOf(id, n), n.qty)
    ensures var s' := EngineNew(s, id, n);
            MarketInv(w, s') && BlockedInv(w, s') && FiguresInv(w, s') && LifeInv(s')
  {
    var s' := EngineNew(s, id, n);
    DequeueKeepsMarket(w, s, s');
    assert FiguresInv(w, s') by {
      forall i | 0 <= i < |s.hist.settled| ensures TradeFits(s.hist.settled[i], s.hist.accepted, id + 1) {
        assert TradeFits(s.hist.settled[i], s.hist.accepted, s.hist.frontier);
      }
    }
    LifeSame(s, s');
  }

  lemma LifeSame(s: State, s': State)
    requires LifeInv(s) && s'.om == s.om && s'.sent == s.sent
    requires s'.hist.accepted == s.hist.accepted && s'.hist.refunded == s.hist.refunded
    ensures LifeInv(s')
  {
    forall j | j in s.hist.accepted ensures LifeOk(s', j) { assert LifeOk(s, j); }
  }

  /** Behind the first request there is no market bid and, unless blocked, no query. */
  lemma DequeueKeepsMarket(w: Width, s: State, s': State)
    requires MarketInv(w, s) && BlockedInv(w, s) && s.reqQ != [] && !s.reqQ[0].CostQuery?
    requires s'.reqQ == s.reqQ[1..] && s'.om == s.om && s'.blocked == s.blocked && s'.costQ == s.costQ
    requires s'.hist.accepted == s.hist.accepted
    ensures MarketInv(w, s') && BlockedInv(w, s')
  {
    var q, q' := s.reqQ, s'.reqQ;
    assert forall i :: 0 <= i < |q'| ==> q'[i] == q[i + 1];
    forall i | 0 <= i < |q'| ensures !IsMarketReq(q'[i]) { assert !IsMarketReq(q[i + 1]); }
  }

  /** Taking a new order, or stopping on it, keeps the invariant. */
  lemma EngineNewKeepsInv(cfg: Config, s: State, id: int, n: NewOrder)
    requires ConfigOk(cfg) && Inv(cfg, s) && s.reqQ != [] && s.reqQ[0] == NewReq(id, n)
    ensures Inv(cfg, EngineNew(s, id, n))
  {
    AddNeverFails(cfg, s, id, n);
    if Takes(s.books[n.symbol], TakerOf(id, n), n.qty) {
      TakenKeepsInv(cfg, s, id, n);
    } else {
      StopEngineKeepsInv(cfg, s);
    }
  }

  lemma TakenKeepsInv(cfg: Config, s: State, id: int, n: NewOrder)
    requires Inv(cfg, s) && s.reqQ != [] && s.reqQ[0] == NewReq(id, n)
    requires n.symbol in s.books && Takes(s.books[n.symbol], TakerOf(id, n), n.qty)
    requires id in s.hist.accepted && s.hist.accepted[id].order == n && id >= s.hist.frontier
    ensures Inv(cfg, EngineNew(s, id, n))
  {
    var s' := EngineNew(s, id, n);
    assert BookRests(s.books[n.symbol], n.symbol, s.hist);
    NewKeepsBooks(cfg, s, id, n);
    NewKeepsReq(s, id, n, s');
    NewKeepsResp(s, id, n);
    NewKeepsRest(cfg.width, s, id, n);
    assert QtyInv(s') by {
      forall j | j in s.hist.accepted ensures QtyOk(s', j) {
        assert QtyOk(s, j);
        NewMovesQty(s, id, n, j);
      }
    }
  }

  // ---------------------------------------------------------------- a cancel

  lemma DequeueKeepsReq(s: State, s': State)
    requires ReqInv(s) && s.reqQ != [] && !s.reqQ[0].NewReq? && s'.reqQ == s.reqQ[1..]
    requires s'.om == s.om && s'.omUp == s.omUp
    requires s'.hist.accepted == s.hist.accepted && s'.hist.frontier == s.hist.frontier
    ensures ReqInv(s')
  {
    var q, q' := s.reqQ, s'.reqQ;
    assert forall i :: 0 <= i < |q'| ==> q'[i] == q[i + 1];
    forall i | 0 <= i < |q'|
      ensures ReqOk(q'[i], s.hist.accepted, s.hist.frontier, s.om.infos.Keys, s.om.lastId, s.omUp)
    {
      assert ReqOk(q[i + 1], s.hist.accepted, s.hist.frontier, s.om.infos.Keys, s.om.lastId, s.omUp);
    }
  }

  lemma HasIdRests(s: seq<Order>, side: Side, symbol: string, h: History, id: int)
    requires SideRests(s, symbol, h) && HasId(s, id) && SideInv(s, side)
    ensures id in h.accepted && id < h.frontier && id !in h.cancelled && id !in h.dropped
    ensures h.accepted[id].order.symbol == symbol && h.accepted[id].order.ordType.Limit?
  {
    var i :| 0 <= i < |s| && s[i].id == id;
    assert RestOk(s[i], symbol, h.accepted, h);
  }

  lemma RemoveRests(s: seq<Order>, symbol: string, h: History, h': History, id: int)
    requires SideRests(s, symbol, h)
    requires h'.accepted == h.accepted && h'.frontier == h.frontier && h'.dropped == h.dropped
    requires forall j :: j in h'.cancelled ==> j in h.cancelled || j == id
    ensures SideRests(Remove(s, id), symbol, h')
  {
    RemoveKeeps(s, id);
    var r := Remove(s, id);
    forall i | 0 <= i < |r| ensures RestOk(r[i], symbol, h'.accepted, h') {
      assert r[i] in r;
      var k :| 0 <= k < |s| && s[k] == r[i];
      assert RestOk(s[k], symbol, h.accepted, h);
    }
  }

  /** The other books do not hold the cancelled order. */
  lemma OtherSideKeeps(s: seq<Order>, symbol: string, h: History, h': History, id: int)
    requires SideRests(s, symbol, h) && id in h.accepted && h.accepted[id].order.symbol != symbol
    requires h'.accepted == h.accepted && h'.frontier == h.frontier && h'.dropped == h.dropped
    requires forall j :: j in h'.cancelled ==> j in h.cancelled || j == id
    ensures SideRests(s, symbol, h')
  {
    forall i | 0 <= i < |s| ensures RestOk(s[i], symbol, h'.accepted, h') {
      assert RestOk(s[i], symbol, h.accepted, h);
    }
  }

  lemma CancelKeepsBooks(cfg: Config, s: State, id: int, clOrdId: int, symbol: string)
    requires BooksInv(cfg, s.books, s.hist) && s.reqQ != [] && symbol in s.books && InBook(s.books[symbol], id)
    requires id in s.hist.accepted && s.hist.accepted[id].order.symbol == symbol
    ensures var s' := EngineCancel(s, id, clOrdId, symbol); BooksInv(cfg, s'.books, s'.hist)
  {
    var s' := EngineCancel(s, id, clOrdId, symbol);
    forall sym | sym in s'.books ensures BookRests(s'.books[sym], sym, s'.hist) {
      var b := s.books[sym];
      assert BookRests(b, sym, s.hist);
      if sym == symbol {
        CancelKeepsInv(b, id);
        RemoveRests(b.bids, sym, s.hist, s'.hist, id);
        RemoveRests(b.asks, sym, s.hist, s'.hist, id);
      } else {
        OtherSideKeeps(b.bids, sym, s.hist, s'.hist, id);
        OtherSideKeeps(b.asks, sym, s.hist, s'.hist, id);
      }
    }
  }

  lemma CancelKeepsResp(s: State, id: int, clOrdId: int, symbol: string, s': State)
    requires RespInv(s) && CancelInv(s) && s.reqQ != [] && symbol in s.books && BookInv(s.books[symbol])
    requires s.omUp ==> id in s.om.infos
    requires InBook(s.books[symbol], id) ==>
               && id in s.hist.accepted && id < s.hist.frontier && id !in s.hist.cancelled && id !in s.hist.dropped
               && s.hist.accepted[id].order.ordType.Limit?
    requires s' == EngineCancel(s, id, clOrdId, symbol)
    ensures RespInv(s') && CancelInv(s')
  {
    var found := InBook(s.books[symbol], id);
    var m := CancelResp(id, clOrdId, found);
    AppendKeepsResp(s, [m], s');
    BookQtyBounds(s.books[symbol], id);
    forall j | j in s'.hist.cancelled && j !in s'.hist.refunded ensures Awaits(s'.respQ, j) {
      if j in s.hist.cancelled { AppendKeepsAwaits(s.respQ, [m], j); }
      else { assert IsCancelled(s'.respQ[|s.respQ|], j); }
    }
  }

  lemma CancelMovesQty(s: State, id: int, clOrdId: int, symbol: string, j: int)
    requires s.reqQ != [] && s.reqQ[0] == CancelReq(id, clOrdId, symbol) && symbol in s.books
    requires BookInv(s.books[symbol]) && QtyOk(s, j)
    requires InBook(s.books[symbol], id) ==>
               id in s.hist.accepted && s.hist.accepted[id].order.symbol == symbol && id !in s.hist.cancelled
    ensures QtyOk(EngineCancel(s, id, clOrdId, symbol), j)
  {
    InTradesConcat(s.respQ, [CancelResp(id, clOrdId, InBook(s.books[symbol], id))], j);
    CancelKeepsInv(s.books[symbol], id);
  }

  /** Cancelling, successfully or not, keeps the invariant. */
  lemma EngineCancelKeepsInv(cfg: Config, s: State, id: int, clOrdId: int, symbol: string)
    requires ConfigOk(cfg) && Inv(cfg, s) && s.reqQ != [] && s.reqQ[0] == CancelReq(id, clOrdId, symbol)
    ensures Inv(cfg, EngineCancel(s, id, clOrdId, symbol))
  {
    if symbol in s.books {
      assert BookRests(s.books[symbol], symbol, s.hist);
      assert ReqOk(s.reqQ[0], s.hist.accepted, s.hist.frontier, s.om.infos.Keys, s.om.lastId, s.omUp);
      if HasId(s.books[symbol].bids, id) { HasIdRests(s.books[symbol].bids, Bid, symbol, s.hist, id); }
      if HasId(s.books[symbol].asks, id) { HasIdRests(s.books[symbol].asks, Ask, symbol, s.hist, id); }
      EngineCancelFrame(cfg, s, id, clOrdId, symbol);
    } else {
      StopEngineKeepsInv(cfg, s);
    }
  }

  lemma EngineCancelFrame(cfg: Config, s: State, id: int, clOrdId: int, symbol: string)
    requires Inv(cfg, s) && s.reqQ != [] && s.reqQ[0] == CancelReq(id, clOrdId, symbol)
    requires symbol in s.books && BookInv(s.books[symbol]) && (s.omUp ==> id in s.om.infos)
    requires InBook(s.books[symbol], id) ==>
               && id in s.hist.accepted && id < s.hist.frontier && id !in s.hist.cancelled && id !in s.hist.dropped
               && s.hist.accepted[id].order.ordType.Limit? && s.hist.accepted[id].order.symbol == symbol
    ensures Inv(cfg, EngineCancel(s, id, clOrdId, symbol))
  {
    hide IdsInv, NonNegative, AccInv, ReqInv, BooksInv, RespInv, CancelInv, MarketInv, BlockedInv, FiguresInv;
    hide LifeInv, BookInv;
    var s' := EngineCancel(s, id, clOrdId, symbol);
    if InBook(s.books[symbol], id) { CancelKeepsBooks(cfg, s, id, clOrdId, symbol); }
    DequeueKeepsReq(s, s');
    CancelKeepsResp(s, id, clOrdId, symbol, s');
    DequeueKeepsMarket(cfg.width, s, s');
    FiguresSame(cfg.width, s, s');
    LifeSame(s, s');
    assert QtyInv(s') by {
      forall j | j in s.hist.accepted ensures QtyOk(s', j) {
        assert QtyOk(s, j);
        CancelMovesQty(s, id, clOrdId, symbol, j);
      }
    }
  }

  lemma FiguresSame(w: Width, s: State, s': State)
    requires FiguresInv(w, s) && s'.om == s.om && s'.hist.accepted == s.hist.accepted
    requires s'.hist.settled == s.hist.settled && s'.hist.frontier == s.hist.frontier
    ensures FiguresInv(w, s')
  {
  }

  // ---------------------------------------------------------------- a cost query

  /** A query that has come to the front is alone in line, and its answer is current. */
  lemma QueryIsAlone(w: Width, s: State, symbol: string, qty: Int32, side: Side)
    requires BlockedInv(w, s) && s.reqQ != [] && s.reqQ[0] == CostQuery(symbol, qty, side)
    requires Answers(w, s, symbol, qty, side)
    ensures |s.reqQ| == 1 && BlockedInv(w, EngineQuery(w, s, symbol, qty, side))
  {
    hide Answer;
    assert s.blocked.Some?;
    assert s.reqQ[|s.reqQ| - 1].CostQuery?;
    assert EngineQuery(w, s, symbol, qty, side).reqQ == [];
  }

  /** Answering the query, or stopping on it, keeps the invariant. */
  lemma EngineQueryKeepsInv(cfg: Config, s: State, symbol: string, qty: Int32, side: Side)
    requires Inv(cfg, s) && s.reqQ != [] && s.reqQ[0] == CostQuery(symbol, qty, side)
    ensures Inv(cfg, EngineQuery(cfg.width, s, symbol, qty, side))
  {
    hide IdsInv, NonNegative, AccInv, ReqInv, BooksInv, RespInv, CancelInv, BlockedInv, FiguresInv, LifeInv, Grown;
    hide Answers, Quote;
    var s' := EngineQuery(cfg.width, s, symbol, qty, side);
    if !Answers(cfg.width, s, symbol, qty, side) {
      StopEngineKeepsInv(cfg, s);
    } else {
      QueryIsAlone(cfg.width, s, symbol, qty, side);
      DequeueKeepsReq(s, s');
      LifeSame(s, s');
      FiguresSame(cfg.width, s, s');
      GrownSame(s.om.infos);
      RespFrame(s, s');
      CancelFrame(s, s');
      assert QtyInv(s') by {
        forall j | j in s.hist.accepted ensures QtyOk(s', j) { assert QtyOk(s, j); }
      }
    }
  }
}
