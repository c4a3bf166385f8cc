/** What becomes of quantity the engine drops, and of the exchange after a query it cannot serve. */
module PipelineFates {
  import opened Common
  import opened BookSpec
  import opened BookCost
  import opened Messages
  import opened BalanceLedger
  import opened OrderManagement
  import opened Pipeline
  import opened PipelineInv
  import opened PipelineMeasures
  import opened PipelineSettle
  import opened PipelineEngine
  import opened PipelineMoney
  import opened PipelineRuns
  import opened PipelineTheorems

  // ---------------------------------------------------------------- dropped quantity

  /** Prices at which an order is willing to trade: any for a market order, its own or better for a limit. */
  predicate Accepts(n: NewOrder, price: int) {
    match n.ordType
    case Market => true
    case Limit(own) => if n.side == Bid then price <= own else price >= own
  }

  /** Everything on a side at a price the order accepts. */
  function AcceptableQty(far: seq<Order>, n: NewOrder): int {
    if far == [] then 0 else (if Accepts(n, far[0].price) then far[0].qty else 0) + AcceptableQty(far[1..], n)
  }

  /** What an order cannot trade at once. */
  function Unfilled(b: Book, n: NewOrder): int {
    n.qty - Min(n.qty, AcceptableQty(SideOf(b, Opposite(n.side)), n))
  }

  /** The remainder of the order does not rest. */
  predicate NeverRests(n: NewOrder) {
    n.ordType.Market? || n.ordType.price == MAX_INT
  }

  /** The limit handed to the book stands for the acceptable prices, on any side the book can hold. */
  lemma {:induction false} AcceptableIsCrossable(far: seq<Order>, id: int, n: NewOrder)
    requires SideInv(far, Opposite(n.side))
    ensures AcceptableQty(far, n) == Crossable(far, n.side, TakerOf(id, n).limit)
    ensures n.ordType.Market? ==> AcceptableQty(far, n) == TotalQty(far)
    ensures forall i :: 0 <= i < |far| ==>
              (Accepts(n, far[i].price) <==> Crosses(n.side, TakerOf(id, n).limit, far[i].price))
  {
    if far != [] {
      assert OrderOk(far[0], Opposite(n.side));
      AcceptableIsCrossable(far[1..], id, n);
      if !Accepts(n, far[0].price) { NoneBeyond(far, n); }
      forall i | 0 <= i < |far|
        ensures Accepts(n, far[i].price) <==> Crosses(n.side, TakerOf(id, n).limit, far[i].price)
      {
        if i > 0 { assert far[i] == far[1..][i - 1]; }
      }
    }
  }

  /** Behind a price that is not acceptable there is none that is. */
  lemma {:induction false} NoneBeyond(far: seq<Order>, n: NewOrder)
    requires SideInv(far, Opposite(n.side)) && far != [] && !Accepts(n, far[0].price)
    ensures AcceptableQty(far, n) == 0
  {
    if |far| > 1 { NoneBeyond(far[1..], n); }
  }

  /**
   The trades the engine makes for a new order over every run. They take the far side from its
   front, at the makers' own prices, all of which the order accepts. Together they are what the
   order wants, or everything at prices it accepts: for a market order, everything there is.
   */
  lemma EngineTrades(cfg: Config, ledger: Ledger, es: seq<Event>)
    requires ConfigOk(cfg) && NonNegative(ledger)
    requires var s := After(cfg, ledger, es); Enabled(s, Engine) && s.reqQ[0].NewReq? && !Fatal(cfg.width, s, s.reqQ[0])
    ensures var s := After(cfg, ledger, es);
            var id, n := s.reqQ[0].id, s.reqQ[0].order;
            var s' := Next(cfg, s, Engine);
            && n.symbol in s.books && s.respQ <= s'.respQ && s'.reqQ == s.reqQ[1..] && OthersKept(s, s', n.symbol)
            && var far, news := SideOf(s.books[n.symbol], Opposite(n.side)), s'.respQ[|s.respQ|..];
            && |news| <= |far| && s'.meUp
            && (forall i :: 0 <= i < |news| ==> Hits(n, id, far[i], news[i]))
            && InTrades(news, id) == Min(n.qty, AcceptableQty(far, n))
            && (n.ordType.Market? ==> AcceptableQty(far, n) == TotalQty(far))
  {
    hide Inv, ConfigOk, Run, Init, NonNegative, Fatal, EngineNew, OthersKept, Hits, InTrades, AcceptableQty;
    hide TotalQty, Min;
    var s := After(cfg, ledger, es);
    RunKeeps(cfg, ledger, es);
    RequestStopsIff(cfg, s);
    var id, n := s.reqQ[0].id, s.reqQ[0].order;
    EngineNewDoes(cfg, s, id, n);
    TradesOf(s.books[n.symbol], id, n);
  }

  /** What the engine changes when it takes a new order. */
  lemma EngineNewDoes(cfg: Config, s: State, id: int, n: NewOrder)
    requires ConfigOk(cfg) && Inv(cfg, s) && s.meUp && s.reqQ != [] && s.reqQ[0] == NewReq(id, n)
    requires EngineNew(s, id, n).meUp
    ensures n.symbol in s.books && BookInv(s.books[n.symbol]) && n.qty > 0 && !InBook(s.books[n.symbol], id)
    ensures var s', news := EngineNew(s, id, n), TradeResps(AddMatch(s.books[n.symbol], TakerOf(id, n), n.qty).trades);
            && s'.respQ == s.respQ + news && s'.respQ[|s.respQ|..] == news
            && s'.reqQ == s.reqQ[1..] && OthersKept(s, s', n.symbol)
  {
    hide Inv, ConfigOk, Takes, AddMatch, Add, BookInv, InBook;
    NewMeets(cfg, s, id, n);
    var news := TradeResps(AddMatch(s.books[n.symbol], TakerOf(id, n), n.qty).trades);
    assert (s.respQ + news)[|s.respQ|..] == news;
  }

  lemma NewMeets(cfg: Config, s: State, id: int, n: NewOrder)
    requires ConfigOk(cfg) && Inv(cfg, s) && s.reqQ != [] && s.reqQ[0] == NewReq(id, n)
    ensures n.symbol in s.books && BookInv(s.books[n.symbol]) && n.qty > 0 && !InBook(s.books[n.symbol], id)
  {
    hide Inv, ConfigOk, InBook, BookInv;
    AddNeverFails(cfg, s, id, n);
    BookInPlace(cfg, s, n.symbol);
  }

  /** No other book, no balance and no report is concerned. */
  ghost predicate OthersKept(s: State, s': State, symbol: string) {
    && s'.books.Keys == s.books.Keys && s'.om == s.om && s'.sent == s.sent && s'.costQ == s.costQ
    && forall other :: other in s.books && other != symbol ==> s'.books[other] == s.books[other]
  }

  /** The response is a trade of the order with this maker, at the maker's price. */
  predicate Hits(n: NewOrder, id: int, maker: Order, r: Response) {
    && r.TradeResp? && 0 < r.trade.qty <= maker.qty && Accepts(n, maker.price)
    && r.trade == Trade(n.symbol, maker.price, r.trade.qty, n.sender, maker.trader, id, maker.id, n.side == Bid)
  }

  lemma TradesOf(b: Book, id: int, n: NewOrder)
    requires BookInv(b) && n.qty > 0 && !InBook(b, id)
    ensures var far, news := SideOf(b, Opposite(n.side)), TradeResps(AddMatch(b, TakerOf(id, n), n.qty).trades);
            && |news| <= |far|
            && (forall i :: 0 <= i < |news| ==> Hits(n, id, far[i], news[i]))
            && InTrades(news, id) == Min(n.qty, AcceptableQty(far, n))
            && (n.ordType.Market? ==> AcceptableQty(far, n) == TotalQty(far))
  {
    var far, t := SideOf(b, Opposite(n.side)), TakerOf(id, n);
    MatchConsumesPrefix(far, t, n.qty);
    MatchMeetsReference(far, t, n.qty);
    AcceptableIsCrossable(far, id, n);
    var ts := Match(far, t, n.qty).trades;
    forall i | 0 <= i < |ts| ensures ts[i].takerOrder == id && ts[i].makerOrder != id {
      assert ts[i] == MakeTrade(t, far[i], ts[i].qty);
    }
    TakenIsTraded(ts, id);
  }

  lemma {:induction false} TakenIsTraded(ts: seq<Trade>, id: int)
    requires forall i :: 0 <= i < |ts| ==> ts[i].takerOrder == id && ts[i].makerOrder != id
    ensures InTrades(TradeResps(ts), id) == TradedQty(ts)
  {
    if ts != [] {
      assert TradeResps(ts)[1..] == TradeResps(ts[1..]);
      TakenIsTraded(ts[1..], id);
    }
  }

  /**
   When the engine takes an order, what it cannot trade at once rests in the book, or is dropped:
   dropped exactly for a market order, which leaves a rest exactly when the far side holds less
   than it wants, or for a limit at the largest price.
   */
  lemma DroppedIff(cfg: Config, ledger: Ledger, es: seq<Event>)
    requires ConfigOk(cfg) && NonNegative(ledger)
    requires var s := After(cfg, ledger, es); Enabled(s, Engine) && s.reqQ[0].NewReq? && !Fatal(cfg.width, s, s.reqQ[0])
    ensures var s := After(cfg, ledger, es);
            var id, n := s.reqQ[0].id, s.reqQ[0].order;
            var s' := Next(cfg, s, Engine);
            && n.symbol in s.books && n.symbol in s'.books
            && var left := Unfilled(s.books[n.symbol], n);
            && (id in s'.hist.dropped <==> left > 0 && NeverRests(n))
            && (InBook(s'.books[n.symbol], id) <==> left > 0 && !NeverRests(n))
            && (left > 0 && !NeverRests(n) ==>
                  Order(id, n.ordType.price, left, n.side, n.sender) in SideOf(s'.books[n.symbol], n.side))
            && (id in s'.hist.dropped ==> s'.hist.dropped[id] == left)
            && (n.ordType.Market? ==> (left > 0 <==> TotalQty(SideOf(s.books[n.symbol], Opposite(n.side))) < n.qty))
  {
    hide Inv, ConfigOk, Run, Init, NonNegative, Fatal, AddOk, Takes, InBook;
    var s := After(cfg, ledger, es);
    RunKeeps(cfg, ledger, es);
    RequestStopsIff(cfg, s);
    DropOf(cfg, s, s.reqQ[0].id, s.reqQ[0].order);
  }

  lemma DropOf(cfg: Config, s: State, id: int, n: NewOrder)
    requires ConfigOk(cfg) && Inv(cfg, s) && s.meUp && s.reqQ != [] && s.reqQ[0] == NewReq(id, n)
    requires EngineNew(s, id, n).meUp
    ensures var s' := EngineNew(s, id, n);
            && n.symbol in s.books && n.symbol in s'.books
            && var left := Unfilled(s.books[n.symbol], n);
            && (id in s'.hist.dropped <==> left > 0 && NeverRests(n))
            && (InBook(s'.books[n.symbol], id) <==> left > 0 && !NeverRests(n))
            && (left > 0 && !NeverRests(n) ==>
                  Order(id, n.ordType.price, left, n.side, n.sender) in SideOf(s'.books[n.symbol], n.side))
            && (id in s'.hist.dropped ==> s'.hist.dropped[id] == left)
            && (n.ordType.Market? ==> (left > 0 <==> TotalQty(SideOf(s.books[n.symbol], Opposite(n.side))) < n.qty))
  {
    hide Inv, ConfigOk, AddOk, AddMatch, Add, InBook, AcceptableQty, TotalQty;
    AddNeverFails(cfg, s, id, n);
    NewIsNotDropped(cfg, s, id);
    BookInPlace(cfg, s, n.symbol);
    LeftIsUnfilled(s.books[n.symbol], id, n);
    RestsIff(s.books[n.symbol], TakerOf(id, n), n.qty);
    LimitIsPositive(cfg, s, id, n);
  }

  lemma LimitIsPositive(cfg: Config, s: State, id: int, n: NewOrder)
    requires Inv(cfg, s) && s.reqQ != [] && s.reqQ[0] == NewReq(id, n)
    ensures n.ordType.Limit? ==> n.ordType.price > 0
  {
    hide IdsInv, LedgerInv, BooksInv, RespInv, CancelInv, QtyInv, MarketInv, BlockedInv, FiguresInv, LifeInv;
    assert ReqOk(s.reqQ[0], s.hist.accepted, s.hist.frontier, s.om.infos.Keys, s.om.lastId, s.omUp);
    assert AccOk(cfg, s.om, id, s.hist.accepted[id]);
  }

  lemma NewIsNotDropped(cfg: Config, s: State, id: int)
    requires Inv(cfg, s) && id >= s.hist.frontier
    ensures id !in s.hist.dropped
  {
    hide IdsInv, NonNegative, AccInv, ReqInv, BooksInv, RespInv, QtyInv, MarketInv, BlockedInv, FiguresInv, LifeInv;
  }

  lemma LeftIsUnfilled(b: Book, id: int, n: NewOrder)
    requires BookInv(b) && n.qty > 0
    ensures AddMatch(b, TakerOf(id, n), n.qty).left == Unfilled(b, n) >= 0
    ensures n.ordType.Market? ==> AcceptableQty(SideOf(b, Opposite(n.side)), n) == TotalQty(SideOf(b, Opposite(n.side)))
  {
    MatchMeetsReference(SideOf(b, Opposite(n.side)), TakerOf(id, n), n.qty);
    AcceptableIsCrossable(SideOf(b, Opposite(n.side)), id, n);
  }

  /** A new order is in the book afterwards exactly when its remainder rests. */
  lemma RestsIff(b: Book, t: Taker, qty: int)
    requires BookInv(b) && AddOk(b, t, qty)
    ensures var left := AddMatch(b, t, qty).left;
            && (InBook(Add(b, t, qty), t.id) <==> Rests(left, t.limit))
            && (Rests(left, t.limit) ==> Order(t.id, t.limit, left, t.side, t.trader) in SideOf(Add(b, t, qty), t.side))
  {
    var near, far := SideOf(b, t.side), SideOf(b, Opposite(t.side));
    var r := AddMatch(b, t, qty);
    MatchKeepsFar(far, t, qty);
    forall i | 0 <= i < |r.far| ensures r.far[i].id != t.id { assert From(r.far[i], far); }
    assert !HasId(r.far, t.id) && !HasId(near, t.id);
    if Rests(r.left, t.limit) {
      RestHasId(near, Order(t.id, t.limit, r.left, t.side, t.trader), t.id);
      RestIsThere(near, Order(t.id, t.limit, r.left, t.side, t.trader));
    }
  }

  lemma {:induction false} RestIsThere(near: seq<Order>, o: Order)
    ensures o in Rest(near, o)
  {
    if near != [] && AtLeastAsGood(o.side, near[0].price, o.price) { RestIsThere(near[1..], o); }
  }

  /** One step never touches what was dropped before. */
  lemma DroppedStays(cfg: Config, s: State, e: Event, id: int)
    requires Inv(cfg, s) && id in s.hist.dropped
    ensures id in Next(cfg, s, e).hist.dropped && Next(cfg, s, e).hist.dropped[id] == s.hist.dropped[id]
  {
    hide Inv;
    hide SubmitStep, ResumeStep, CancelStep, DeliverStep, ServeStep, FlushStep;
    if Enabled(s, e) {
      match e
      case Submit(n) => SubmitDrops(cfg, s, n);
      case Resume => ResumeDrops(cfg, s);
      case RequestCancel(c) => CancelDrops(cfg, s, c);
      case Deliver => DeliverDrops(cfg, s);
      case Engine => ServeDrops(cfg, s, id);
      case Flush => FlushDrops(cfg.width, s);
    }
  }

  lemma SubmitDrops(cfg: Config, s: State, n: NewOrder)
    ensures SubmitStep(cfg, s, n).hist.dropped == s.hist.dropped
  {
    hide Validate, ValidateAsserts, Preprocess, PreprocessVerdict;
  }

  lemma ResumeDrops(cfg: Config, s: State)
    requires s.blocked.Some? && s.costQ != []
    ensures ResumeStep(cfg, s).hist.dropped == s.hist.dropped
  {
    hide Validate, ValidateAsserts;
  }

  lemma CancelDrops(cfg: Config, s: State, c: CancelRequest)
    ensures CancelStep(cfg, s, c).hist.dropped == s.hist.dropped
  {
    hide ResolveCancel, CancelRejection, PendingCancelReport;
  }

  lemma DeliverDrops(cfg: Config, s: State)
    requires s.respQ != []
    ensures DeliverStep(cfg, s).hist.dropped == s.hist.dropped
  {
    hide SettleGuards, PersistGuards, SettleTrade, CancelGuards, CancelPersists, SettleCancel, FillReport, CancelReport;
  }

  lemma FlushDrops(w: Width, s: State)
    ensures FlushStep(w, s).hist == s.hist
  {
    hide SnapshotOk;
  }

  lemma ServeDrops(cfg: Config, s: State, id: int)
    requires Inv(cfg, s) && id in s.hist.dropped && s.reqQ != []
    ensures var h := ServeStep(cfg.width, s).hist; id in h.dropped && h.dropped[id] == s.hist.dropped[id]
  {
    hide IdsInv, NonNegative, AccInv, BooksInv, RespInv, QtyInv, MarketInv, BlockedInv, FiguresInv, LifeInv;
    hide Takes, AddMatch, Add, TakerOf, InBook, Cancel, BookQty, Quote, Answers, TradeResps;
    if s.reqQ[0].NewReq? {
      assert ReqOk(s.reqQ[0], s.hist.accepted, s.hist.frontier, s.om.infos.Keys, s.om.lastId, s.omUp);
    }
  }

  lemma {:induction false} DroppedKept(cfg: Config, ledger: Ledger, es: seq<Event>, more: seq<Event>, id: int)
    requires ConfigOk(cfg) && NonNegative(ledger) && id in After(cfg, ledger, es).hist.dropped
    ensures var h, h' := After(cfg, ledger, es).hist, After(cfg, ledger, es + more).hist;
            id in h'.dropped && h'.dropped[id] == h.dropped[id]
  {
    hide ConfigOk, NonNegative, Inv, Next, Init;
    if more == [] {
      assert es + more == es;
    } else {
      var rest := more[..|more| - 1];
      DroppedKept(cfg, ledger, es, rest, id);
      RunKeeps(cfg, ledger, es + rest);
      DroppedStays(cfg, After(cfg, ledger, es + rest), more[|more| - 1], id);
      assert (es + more)[..|es + more| - 1] == es + rest;
    }
  }

  /**
   Whatever happens next, dropped quantity stays in the order's open quantity: it is never
   cancelled, never refunded, and its order never ends.
   */
  lemma DroppedForGood(cfg: Config, ledger: Ledger, es: seq<Event>, more: seq<Event>, id: int)
    requires ConfigOk(cfg) && NonNegative(ledger) && id in After(cfg, ledger, es).hist.dropped
    ensures var t := After(cfg, ledger, es + more);
            && id in t.hist.accepted && id in t.om.infos
            && t.om.infos[id].leaves >= After(cfg, ledger, es).hist.dropped[id] > 0
            && id !in t.hist.cancelled && id !in t.hist.refunded
            && (forall i :: 0 <= i < |t.respQ| ==> !IsCancelled(t.respQ[i], id))
            && LifeOf(t.sent, id, t.hist.accepted[id].order.qty) == Open(t.om.infos[id].cum)
  {
    hide ConfigOk, NonNegative, Inv, Next, Init, Run;
    DroppedKept(cfg, ledger, es, more, id);
    RunKeeps(cfg, ledger, es + more);
    DroppedIsHeld(cfg, After(cfg, ledger, es + more), id);
  }

  lemma DroppedIsHeld(cfg: Config, s: State, id: int)
    requires Inv(cfg, s) && id in s.hist.dropped
    ensures id in s.hist.accepted && id in s.om.infos && s.om.infos[id].leaves >= s.hist.dropped[id] > 0
    ensures id !in s.hist.cancelled && id !in s.hist.refunded
    ensures forall i :: 0 <= i < |s.respQ| ==> !IsCancelled(s.respQ[i], id)
    ensures LifeOf(s.sent, id, s.hist.accepted[id].order.qty) == Open(s.om.infos[id].cum)
  {
    hide IdsInv, NonNegative, AccInv, ReqInv, BooksInv, QtyInv, MarketInv, BlockedInv, FiguresInv;
    LeavesCoverTrades(cfg, s, id);
    forall i | 0 <= i < |s.respQ| ensures !IsCancelled(s.respQ[i], id) {
      assert RespOk(s.respQ[i], s.hist, s.om.infos.Keys, s.omUp);
    }
    assert LifeOk(s, id);
  }

  // ---------------------------------------------------------------- cancels at the engine

  /**
   Over every run a cancel that the engine serves is answered once, with the ids it came with. It
   succeeds exactly when the order rests in the book of the symbol named; the book then loses that
   order and no other, and gives up exactly what was left of it.
   */
  lemma EngineCancels(cfg: Config, ledger: Ledger, es: seq<Event>)
    requires ConfigOk(cfg) && NonNegative(ledger)
    requires var s := After(cfg, ledger, es); Enabled(s, Engine) && s.reqQ[0].CancelReq? && s.reqQ[0].symbol in s.books
    ensures var s := After(cfg, ledger, es);
            var s', c := Next(cfg, s, Engine), s.reqQ[0];
            var b, rests := s.books[c.symbol], InBook(s.books[c.symbol], c.id);
            && s'.meUp && s'.reqQ == s.reqQ[1..] && s'.respQ == s.respQ + [CancelResp(c.id, c.clOrdId, rests)]
            && OthersKept(s, s', c.symbol) && !InBook(s'.books[c.symbol], c.id)
            && (forall id :: id != c.id ==> BookQty(s'.books[c.symbol], id) == BookQty(b, id))
            && (rests ==> c.id in s'.hist.cancelled && s'.hist.cancelled[c.id] == BookQty(b, c.id) > 0)
            && (!rests ==> s'.books == s.books && s'.hist == s.hist)
  {
    hide Inv, ConfigOk, Run, Init, NonNegative, InBook, BookQty, BookInv, Cancel;
    var s := After(cfg, ledger, es);
    RunKeeps(cfg, ledger, es);
    var c := s.reqQ[0];
    BookInPlace(cfg, s, c.symbol);
    CancelKeepsInv(s.books[c.symbol], c.id);
    BookQtyBounds(s.books[c.symbol], c.id);
  }

  // ---------------------------------------------------------------- a query that cannot be served

  /** The order manager waits for an answer the engine will not give. */
  ghost predicate Doomed(s: State, p: Pending) {
    && s.blocked == Some(p) && s.costQ == [] && s.reqQ != []
    && s.reqQ[|s.reqQ| - 1] == CostQuery(p.order.symbol, p.order.qty, Ask)
    && (forall i :: 0 <= i < |s.reqQ| - 1 ==> !s.reqQ[i].CostQuery?)
    && (p.order.symbol !in s.books || p.order.qty <= 0)
  }

  /** Only the engine can move, towards the query; there it stops. */
  lemma DoomedStep(cfg: Config, s: State, p: Pending, e: Event)
    requires Doomed(s, p)
    ensures var s' := Next(cfg, s, e);
            && Doomed(s', p) && s'.om == s.om && (s'.meUp ==> s.meUp)
            && (s'.meUp ==> |s'.reqQ| == |s.reqQ| - (if e.Engine? then 1 else 0))
  {
    hide Takes, AddMatch, Add, TakerOf, InBook, Cancel, BookQty, Quote, Answer, TradeResps, SnapshotOk;
    if e.Engine? && Enabled(s, e) {
      var s' := Next(cfg, s, e);
      if s'.meUp {
        assert s'.reqQ == s.reqQ[1..];
        assert forall i :: 0 <= i < |s'.reqQ| ==> s'.reqQ[i] == s.reqQ[i + 1];
      }
    }
  }

  function EngineTurns(es: seq<Event>): nat {
    if es == [] then 0 else EngineTurns(es[..|es| - 1]) + (if es[|es| - 1].Engine? then 1 else 0)
  }

  lemma {:induction false} DoomedRun(cfg: Config, s: State, p: Pending, more: seq<Event>)
    requires Doomed(s, p)
    ensures var t := Run(cfg, s, more);
            && Doomed(t, p) && t.om == s.om && (t.meUp ==> |t.reqQ| == |s.reqQ| - EngineTurns(more))
  {
    hide Doomed, Next;
    if more != [] {
      var rest := more[..|more| - 1];
      DoomedRun(cfg, s, p, rest);
      DoomedStep(cfg, Run(cfg, s, rest), p, more[|more| - 1]);
    }
  }

  /**
   A market bid from a known user for an unknown symbol, or for no quantity, is registered and asked
   about before it is validated. From then on the order manager waits for good, and the engine is
   down as soon as it has had a turn for every request up to the query.
   */
  lemma BadMarketBidHalts(cfg: Config, ledger: Ledger, es: seq<Event>, n: NewOrder, more: seq<Event>)
    requires ConfigOk(cfg) && NonNegative(ledger)
    requires var s := After(cfg, ledger, es); Enabled(s, Submit(n)) && PreprocessVerdict(cfg, s.om, n).Ok?
    requires IsMarketBid(n) && (n.symbol !in cfg.symbols || n.qty <= 0)
    ensures var s := After(cfg, ledger, es);
            var s' := Next(cfg, s, Submit(n));
            var t := Run(cfg, s', more);
            && t.blocked == Some(Pending(s.om.lastId + 1, n)) && t.costQ == [] && t.om == s'.om
            && (EngineTurns(more) > |s.reqQ| ==> !t.meUp)
  {
    hide ConfigOk, NonNegative, Inv, Run, Init, TransformId;
    var s := After(cfg, ledger, es);
    RunKeeps(cfg, ledger, es);
    WaitingIsClear(cfg, s);
    var s' := Next(cfg, s, Submit(n));
    var p := Pending(s.om.lastId + 1, n);
    assert s'.reqQ == s.reqQ + [CostQuery(n.symbol, n.qty, Ask)];
    assert Doomed(s', p);
    DoomedRun(cfg, s', p, more);
  }

  lemma WaitingIsClear(cfg: Config, s: State)
    requires Inv(cfg, s) && s.blocked.None?
    ensures s.costQ == [] && s.books.Keys == cfg.symbols
    ensures forall i :: 0 <= i < |s.reqQ| ==> !s.reqQ[i].CostQuery?
  {
    hide IdsInv, NonNegative, AccInv, ReqInv, RespInv, CancelInv, QtyInv, MarketInv, FiguresInv, LifeInv;
  }
}
