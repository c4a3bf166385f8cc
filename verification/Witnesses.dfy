/** Short runs in which the code does what one would not expect of it. */
module Witnesses {
  import opened Common
  import opened BookSpec
  import opened BookCost
  import opened Messages
  import opened BalanceLedger
  import opened OrderManagement
  import opened Pipeline

  /** Two users: Ann sells, Bob buys. */
  function Venue(symbol: string): Config {
    Config(map["ann" := 1, "bob" := 2], {symbol}, Bits32)
  }

  function Purses(symbol: string, shares: int, usd: int): Ledger {
    map["ann" := map[symbol := shares], "bob" := map[USD_SYMBOL := usd]]
  }

  function Ask1(symbol: string, qty: Int32, ordType: OrdType): NewOrder {
    NewOrder("ann", 0, symbol, Ask, qty, ordType)
  }

  function Bid1(symbol: string, qty: Int32, ordType: OrdType): NewOrder {
    NewOrder("bob", 0, symbol, Bid, qty, ordType)
  }

  // ---------------------------------------------------------------- runs, one event at a time

  lemma RunStep(cfg: Config, s: State, es: seq<Event>, e: Event)
    ensures Run(cfg, s, es + [e]) == Next(cfg, Run(cfg, s, es), e)
  {
    hide Next;
    assert (es + [e])[..|es + [e]| - 1] == es;
  }

  /** The first order of a run, accepted: where everything is before the engine has seen it. */
  lemma FirstAccepted(cfg: Config, ledger: Ledger, n: NewOrder)
    requires n.sender in cfg.users && !IsMarketBid(n)
    requires ValidateAsserts(cfg.symbols, ledger, n, None) && Validate(cfg.symbols, ledger, n, None).verdict.Ok?
    ensures var s := Next(cfg, Init(cfg, ledger), Submit(n));
            && s.omUp && s.meUp && s.blocked.None? && s.reqQ == [NewReq(0, n)] && s.costQ == [] && s.respQ == []
            && s.om.ledger == Validate(cfg.symbols, ledger, n, None).ledger && s.om.lastId == 0
            && s.om.infos == map[0 := OrderInfo(n.sender, n.symbol, n.side, PriceOf(n), n.qty, 0, 0)]
            && s.om.idRight == map[TransformId(n.clOrdId, cfg.users[n.sender]) := 0]
            && s.om.idLeft == map[0 := TransformId(n.clOrdId, cfg.users[n.sender])] && s.hist.refunded == {}
            && s.books == (map symbol | symbol in cfg.symbols :: EMPTY_BOOK)
            && s.hist.accepted == map[0 := Accepted(n, Reserved(n, None))] && s.hist.dropped == map[]
  {
    hide Validate, ValidateAsserts, TransformId;
  }

  /** The engine takes an order into an empty book: it rests, or is dropped. */
  lemma FirstTaken(cfg: Config, s: State, n: NewOrder)
    requires s.meUp && s.reqQ == [NewReq(0, n)] && n.symbol in s.books && s.books[n.symbol] == EMPTY_BOOK
    requires n.qty > 0 && n.sender != "" && n.symbol != "" && (n.ordType.Limit? ==> n.ordType.price > 0)
    ensures var s' := Next(cfg, s, Engine);
            var rests := EngineLimit(n) != MARKET_BID_ORDER_PRICE && EngineLimit(n) != MARKET_ASK_ORDER_PRICE;
            var o := Order(0, EngineLimit(n), n.qty, n.side, n.sender);
            && s'.meUp && s'.reqQ == [] && s'.respQ == s.respQ && s'.om == s.om && s'.omUp == s.omUp
            && s'.blocked == s.blocked && s'.costQ == s.costQ && s'.sent == s.sent
            && s'.books == s.books[n.symbol := if !rests then EMPTY_BOOK
                                               else if n.side == Bid then Book([o], []) else Book([], [o])]
            && s'.hist.dropped == (if rests then s.hist.dropped else s.hist.dropped[0 := n.qty])
            && s'.hist.accepted == s.hist.accepted && s'.hist.refunded == s.hist.refunded
  {
    var t := TakerOf(0, n);
    var b := s.books[n.symbol];
    assert Match([], t, n.qty) == MatchResult([], [], n.qty);
    assert AddMatch(b, t, n.qty) == MatchResult([], [], n.qty);
    assert AddOk(b, t, n.qty) && Takes(b, t, n.qty);
    assert TradeResps([]) == [] && s.respQ + [] == s.respQ;
    var o := Order(0, EngineLimit(n), n.qty, n.side, n.sender);
    assert Rest([], o) == [o];
    assert Add(b, t, n.qty) == if !Rests(n.qty, EngineLimit(n)) then EMPTY_BOOK
                               else if n.side == Bid then Book([o], []) else Book([], [o]);
  }

  // ---------------------------------------------------------------- quantity that is never given back

  /** A limit bid for one at the largest price, on an empty book: dropped, and its price stays deducted. */
  lemma LargestBidIsDropped()
    ensures var n := Bid1("X", 1, Limit(MAX_INT));
            var s := Run(Venue("X"), Init(Venue("X"), Purses("X", 0, MAX_INT)), [Submit(n), Engine]);
            && s.hist.dropped == map[0 := 1] && "X" in s.books && !InBook(s.books["X"], 0)
            && Balance(s.om.ledger, "bob", USD_SYMBOL) == 0
  {
    var cfg, ledger, n := Venue("X"), Purses("X", 0, MAX_INT), Bid1("X", 1, Limit(MAX_INT));
    FirstAccepted(cfg, ledger, n);
    FirstTaken(cfg, Next(cfg, Init(cfg, ledger), Submit(n)), n);
    TwoEvents(cfg, Init(cfg, ledger), Submit(n), Engine);
  }

  /** A market ask for four on an empty book: dropped, and the shares stay deducted. */
  lemma MarketAskIsDropped()
    ensures var n := Ask1("X", 4, Market);
            var s := Run(Venue("X"), Init(Venue("X"), Purses("X", 4, 0)), [Submit(n), Engine]);
            && s.hist.dropped == map[0 := 4] && Balance(s.om.ledger, "ann", "X") == 0
  {
    var cfg, ledger, n := Venue("X"), Purses("X", 4, 0), Ask1("X", 4, Market);
    FirstAccepted(cfg, ledger, n);
    FirstTaken(cfg, Next(cfg, Init(cfg, ledger), Submit(n)), n);
    TwoEvents(cfg, Init(cfg, ledger), Submit(n), Engine);
  }

  lemma TwoEvents(cfg: Config, s: State, a: Event, b: Event)
    ensures Run(cfg, s, [a, b]) == Next(cfg, Next(cfg, s, a), b)
  {
    hide Next;
    assert [] + [a] == [a] && [a] + [b] == [a, b];
    RunStep(cfg, s, [], a);
    RunStep(cfg, s, [a], b);
  }

  lemma FourEvents(cfg: Config, s: State, a: Event, b: Event, c: Event, d: Event)
    ensures Run(cfg, s, [a, b, c, d]) == Next(cfg, Next(cfg, Next(cfg, Next(cfg, s, a), b), c), d)
  {
    hide Next;
    TwoEvents(cfg, s, a, b);
    assert [a, b] + [c] == [a, b, c] && [a, b, c] + [d] == [a, b, c, d];
    RunStep(cfg, s, [a, b], c);
    RunStep(cfg, s, [a, b, c], d);
  }

  // ---------------------------------------------------------------- processes that stop

  /** A cancel in the initial state that supplies an order id: the order manager looks it up and stops. */
  lemma UnknownIdStopsManager(cfg: Config, ledger: Ledger)
    requires "bob" in cfg.users
    ensures var c := CancelRequest("bob", 0, 1, "X", Some(7));
            !Run(cfg, Init(cfg, ledger), [RequestCancel(c)]).omUp
  {
    assert [] + [RequestCancel(CancelRequest("bob", 0, 1, "X", Some(7)))]
        == [RequestCancel(CancelRequest("bob", 0, 1, "X", Some(7)))];
    RunStep(cfg, Init(cfg, ledger), [], RequestCancel(CancelRequest("bob", 0, 1, "X", Some(7))));
  }

  /** What an ask leaves behind once the engine has taken it into an empty book. */
  ghost predicate AskRests(s: State, symbol: string, qty: Int32, price: Int32, usd: int) {
    && s.omUp && s.meUp && s.blocked.None? && s.reqQ == [] && s.costQ == [] && s.respQ == [] && s.om.lastId == 0
    && s.books == map[symbol := Book([], [Order(0, price, qty, Ask, "ann")])]
    && s.om.infos == map[0 := OrderInfo("ann", symbol, Ask, Some(price), qty, 0, 0)]
    && s.om.idRight == map[TransformId(0, 1) := 0]
    && s.om.ledger == map["ann" := map[symbol := 0], "bob" := map[USD_SYMBOL := usd]]
  }

  lemma FirstAsk(symbol: string, qty: Int32, price: Int32, usd: int)
    requires symbol != "" && symbol != USD_SYMBOL && qty > 0 && 0 < price < MAX_INT && usd >= 0
    ensures var cfg, a := Venue(symbol), Ask1(symbol, qty, Limit(price));
            var s := Init(cfg, Purses(symbol, qty, usd));
            AskRests(Next(cfg, Next(cfg, s, Submit(a)), Engine), symbol, qty, price, usd)
  {
    hide Next, TransformId;
    var cfg, a, ledger := Venue(symbol), Ask1(symbol, qty, Limit(price)), Purses(symbol, qty, usd);
    AskIsValid(symbol, qty, price, usd);
    FirstAccepted(cfg, ledger, a);
    var s1 := Next(cfg, Init(cfg, ledger), Submit(a));
    FirstTaken(cfg, s1, a);
  }

  lemma AskIsValid(symbol: string, qty: Int32, price: Int32, usd: int)
    requires symbol != USD_SYMBOL && qty > 0 && price > 0
    ensures var l, a := Purses(symbol, qty, usd), Ask1(symbol, qty, Limit(price));
            && ValidateAsserts({symbol}, l, a, None)
            && Validate({symbol}, l, a, None) ==
               Validation(Ok, map["ann" := map[symbol := 0], "bob" := map[USD_SYMBOL := usd]])
  {
    var l, debit: int := Purses(symbol, qty, usd), qty;
    assert "ann" != "bob" && l["ann"] == map[symbol := debit] && l["bob"] == map[USD_SYMBOL := usd];
    var l' := Update(l, "ann", symbol, -debit);
    assert l'["ann"] == map[symbol := 0] && l'["bob"] == map[USD_SYMBOL := usd];
    assert l' == map["ann" := map[symbol := 0], "bob" := map[USD_SYMBOL := usd]];
  }

  /** A ticker of five letters: the first two orders that cross stop the engine. */
  lemma LongTickerStopsEngine()
    ensures var cfg, ledger := Venue("GOOGL"), Purses("GOOGL", 1, 1);
            var a, b := Ask1("GOOGL", 1, Limit(1)), Bid1("GOOGL", 1, Limit(1));
            !Run(cfg, Init(cfg, ledger), [Submit(a), Engine, Submit(b), Engine]).meUp
  {
    hide Next, Init, Validate, ValidateAsserts;
    var cfg, ledger := Venue("GOOGL"), Purses("GOOGL", 1, 1);
    var a, b := Ask1("GOOGL", 1, Limit(1)), Bid1("GOOGL", 1, Limit(1));
    var s0 := Init(cfg, ledger);
    FirstAsk("GOOGL", 1, 1, 1);
    var s2 := Next(cfg, Next(cfg, s0, Submit(a)), Engine);
    BidIsValid("GOOGL");
    SecondAccepted(cfg, s2, b);
    CrossStops(cfg, Next(cfg, s2, Submit(b)), b);
    FourEvents(cfg, s0, Submit(a), Engine, Submit(b), Engine);
  }

  lemma BidIsValid(symbol: string)
    ensures var l, b := map["ann" := map[symbol := 0], "bob" := map[USD_SYMBOL := 1]], Bid1(symbol, 1, Limit(1));
            ValidateAsserts({symbol}, l, b, None) && Validate({symbol}, l, b, None).verdict.Ok?
  {
  }

  lemma CrossStops(cfg: Config, s: State, b: NewOrder)
    requires s.meUp && b == Bid1("GOOGL", 1, Limit(1)) && s.reqQ == [NewReq(1, b)]
    requires s.books == map["GOOGL" := Book([], [Order(0, 1, 1, Ask, "ann")])]
    ensures !Next(cfg, s, Engine).meUp
  {
    var book, t := s.books["GOOGL"], TakerOf(1, b);
    assert Match(book.asks, t, 1).trades[0] == MakeTrade(t, book.asks[0], 1);
    assert !NamesFit(AddMatch(book, t, 1).trades[0]);
  }

  /** The second order of a run, by another user, accepted while nothing is on its way. */
  lemma SecondAccepted(cfg: Config, s: State, n: NewOrder)
    requires s.omUp && s.blocked.None? && s.reqQ == [] && s.om.lastId == 0 && n.sender in cfg.users
    requires TransformId(n.clOrdId, cfg.users[n.sender]) !in s.om.idRight && !IsMarketBid(n)
    requires ValidateAsserts(cfg.symbols, s.om.ledger, n, None)
    requires Validate(cfg.symbols, s.om.ledger, n, None).verdict.Ok?
    ensures var s' := Next(cfg, s, Submit(n));
            s'.reqQ == [NewReq(1, n)] && s'.books == s.books && s'.meUp == s.meUp
  {
    hide Validate, ValidateAsserts, TransformId;
  }

  // ---------------------------------------------------------------- a foreign cancel

  /** Bob cancels Ann's resting order by supplying its id with a client id he never used. */
  lemma ForeignOrderIsCancelled()
    ensures var cfg, ledger := Venue("X"), Purses("X", 1, 0);
            var a, c := Ask1("X", 1, Limit(1)), CancelRequest("bob", 5, 6, "X", Some(0));
            var s := Run(cfg, Init(cfg, ledger), [Submit(a), Engine, RequestCancel(c), Engine]);
            && 0 in s.om.infos && s.om.infos[0].sender == "ann"
            && "X" in s.books && s.books["X"] == EMPTY_BOOK && s.respQ == [CancelResp(0, 6, true)]
  {
    hide Next, Init;
    var cfg, ledger := Venue("X"), Purses("X", 1, 0);
    var a, c := Ask1("X", 1, Limit(1)), CancelRequest("bob", 5, 6, "X", Some(0));
    var s0 := Init(cfg, ledger);
    FirstAsk("X", 1, 1, 0);
    var s2 := Next(cfg, Next(cfg, s0, Submit(a)), Engine);
    ForeignIsForwarded(cfg, s2, c);
    ForeignIsServed(cfg, Next(cfg, s2, RequestCancel(c)));
    FourEvents(cfg, s0, Submit(a), Engine, RequestCancel(c), Engine);
  }

  lemma ForeignIsForwarded(cfg: Config, s: State, c: CancelRequest)
    requires cfg == Venue("X") && AskRests(s, "X", 1, 1, 0) && c == CancelRequest("bob", 5, 6, "X", Some(0))
    ensures var s' := Next(cfg, s, RequestCancel(c));
            && s'.reqQ == [CancelReq(0, 6, "X")] && s'.books == s.books && s'.om == s.om && s'.meUp && s'.respQ == []
  {
    assert TransformId(5, 2) != TransformId(0, 1);
    assert ResolveCancel(cfg, s.om, c) == Some(0);
  }

  lemma ForeignIsServed(cfg: Config, s: State)
    requires s.meUp && s.reqQ == [CancelReq(0, 6, "X")] && s.respQ == []
    requires s.books == map["X" := Book([], [Order(0, 1, 1, Ask, "ann")])]
    ensures var s' := Next(cfg, s, Engine);
            s'.books == map["X" := EMPTY_BOOK] && s'.respQ == [CancelResp(0, 6, true)] && s'.om == s.om
  {
    var book := s.books["X"];
    assert book.asks[0].id == 0 && InBook(book, 0);
    assert book.asks[1..] == [] && Cancel(book, 0) == EMPTY_BOOK;
  }

  // ---------------------------------------------------------------- a wrapped cost

  /**
   Four shares asked at 2^30 + 1 and a market bid for four from a user who holds four USD. The answer
   wraps to four, the bid is accepted for it, and the trade it will make does not fit 32 bits.
   */
  lemma WrappedCostIsAccepted()
    ensures var price := 0x4000_0001;
            var cfg, ledger := Venue("X"), Purses("X", 4, 4);
            var a, b := Ask1("X", 4, Limit(price)), Bid1("X", 4, Market);
            var s := Run(cfg, Init(cfg, ledger), [Submit(a), Engine, Submit(b), Engine] + [Resume]);
            && s.reqQ == [NewReq(1, b)] && 1 in s.hist.accepted && s.hist.accepted[1].paid == 4
            && "X" in s.books && s.books["X"] == Book([], [Order(0, price, 4, Ask, "ann")])
            && FillCost(s.books["X"], 4, Ask) == Some(0x1_0000_0004)
  {
    hide Next, Init;
    var price := 0x4000_0001;
    var cfg, ledger := Venue("X"), Purses("X", 4, 4);
    var a, b := Ask1("X", 4, Limit(price)), Bid1("X", 4, Market);
    var s0 := Init(cfg, ledger);
    var s2 := Next(cfg, Next(cfg, s0, Submit(a)), Engine);
    var s3 := Next(cfg, s2, Submit(b));
    var s4 := Next(cfg, s3, Engine);
    FirstAsk("X", 4, price, 4);
    SecondAsks(cfg, s2, b);
    WrappedIsAnswered(cfg, s3);
    WrappedIsDecided(cfg, s4, b);
    FourEvents(cfg, s0, Submit(a), Engine, Submit(b), Engine);
    RunStep(cfg, s0, [Submit(a), Engine, Submit(b), Engine], Resume);
    AnswerWraps();
  }

  lemma WrappedIsAnswered(cfg: Config, s: State)
    requires cfg.width.Bits32? && s.meUp && s.reqQ == [CostQuery("X", 4, Ask)] && s.costQ == []
    requires s.books == map["X" := Book([], [Order(0, 0x4000_0001, 4, Ask, "ann")])]
    ensures var s' := Next(cfg, s, Engine);
            s' == s.(reqQ := [], costQ := [Some(4)])
  {
    hide Answer32;
    AnswerWraps();
    assert s.reqQ[1..] == [] && s.costQ + [Some(4)] == [Some(4)];
  }

  lemma SecondAsks(cfg: Config, s: State, n: NewOrder)
    requires s.omUp && s.blocked.None? && s.reqQ == [] && s.om.lastId == 0 && n.sender in cfg.users
    requires TransformId(n.clOrdId, cfg.users[n.sender]) !in s.om.idRight && IsMarketBid(n)
    ensures var s' := Next(cfg, s, Submit(n));
            && s'.reqQ == [CostQuery(n.symbol, n.qty, Ask)] && s'.blocked == Some(Pending(1, n)) && s'.omUp
            && s'.om.ledger == s.om.ledger && s'.books == s.books && s'.meUp == s.meUp && s'.costQ == s.costQ
            && s'.hist == s.hist
  {
    hide TransformId;
  }

  lemma WrappedIsDecided(cfg: Config, s: State, b: NewOrder)
    requires s.omUp && s.blocked == Some(Pending(1, b)) && s.costQ == [Some(4)] && s.reqQ == []
    requires b == Bid1("X", 4, Market) && cfg.symbols == {"X"}
    requires Owns(s.om.ledger, "bob", USD_SYMBOL) && Balance(s.om.ledger, "bob", USD_SYMBOL) == 4
    ensures var s' := Next(cfg, s, Resume);
            && s'.reqQ == [NewReq(1, b)] && 1 in s'.hist.accepted && s'.hist.accepted[1].paid == 4
            && s'.books == s.books
  {
  }

  /**
   Two shares asked at 2^30 and a market bid for two from a user without USD. The cost wraps to
   -2^31, the query fails its contract, and the order manager is left waiting.
   */
  lemma NegativeCostStopsEngine()
    ensures var cfg, ledger := Venue("X"), Purses("X", 2, 0);
            var a, b := Ask1("X", 2, Limit(0x4000_0000)), Bid1("X", 2, Market);
            var s := Run(cfg, Init(cfg, ledger), [Submit(a), Engine, Submit(b), Engine]);
            !s.meUp && s.omUp && s.blocked == Some(Pending(1, b))
  {
    hide Next, Init;
    var cfg, ledger := Venue("X"), Purses("X", 2, 0);
    var a, b := Ask1("X", 2, Limit(0x4000_0000)), Bid1("X", 2, Market);
    var s0 := Init(cfg, ledger);
    FirstAsk("X", 2, 0x4000_0000, 0);
    var s2 := Next(cfg, Next(cfg, s0, Submit(a)), Engine);
    KeysDiffer();
    SecondAsks(cfg, s2, b);
    NegativeIsFatal(cfg, Next(cfg, s2, Submit(b)));
    FourEvents(cfg, s0, Submit(a), Engine, Submit(b), Engine);
  }

  lemma KeysDiffer()
    ensures TransformId(0, 2) != TransformId(0, 1)
  {
  }

  lemma NegativeIsFatal(cfg: Config, s: State)
    requires cfg.width.Bits32? && s.meUp && s.reqQ == [CostQuery("X", 2, Ask)]
    requires s.books == map["X" := Book([], [Order(0, 0x4000_0000, 2, Ask, "ann")])]
    ensures Next(cfg, s, Engine) == s.(meUp := false)
  {
    var q := [Order(0, 0x4000_0000, 2, Ask, "ann")];
    assert q[1..] == [] && Leading(q, 0x4000_0000) == 1 && q[..1] == q && TotalQty(q) == 2;
    assert Answer32(q, 2, 0) == Answer32([], 0, Wrap32(0x8000_0000)) == None;
    assert s.books["X"].asks == q;
  }

  // ---------------------------------------------------------------- a wrapped refund

  /**
   A bid for four at 2^30 reserves 2^32 USD in 64 bits. Cancelled unfilled, it is refunded in 32 bits:
   nothing. Both processes stay up, the order is closed, and all of the user's USD is gone.
   */
  lemma RefundIsLost()
    ensures var cfg, ledger := Venue("X"), Purses("X", 0, 0x1_0000_0000);
            var b, c := Bid1("X", 4, Limit(0x4000_0000)), CancelRequest("bob", 0, 1, "X", None);
            var s := Run(cfg, Init(cfg, ledger), [Submit(b), Engine, RequestCancel(c), Engine] + [Deliver]);
            && s.omUp && s.meUp && s.books == map["X" := EMPTY_BOOK] && s.hist.refunded == {0}
            && s.reqQ == [] && s.respQ == [] && Balance(s.om.ledger, "bob", USD_SYMBOL) == 0
  {
    hide Next, Init;
    var cfg, ledger := Venue("X"), Purses("X", 0, 0x1_0000_0000);
    var b, c := Bid1("X", 4, Limit(0x4000_0000)), CancelRequest("bob", 0, 1, "X", None);
    var s0 := Init(cfg, ledger);
    BigBidRests(cfg, ledger, b);
    var s2 := Next(cfg, Next(cfg, s0, Submit(b)), Engine);
    OwnIsForwarded(cfg, s2, c);
    var s3 := Next(cfg, s2, RequestCancel(c));
    OwnIsServed(cfg, s3);
    NothingIsRefunded(cfg, Next(cfg, s3, Engine));
    FourEvents(cfg, s0, Submit(b), Engine, RequestCancel(c), Engine);
    RunStep(cfg, s0, [Submit(b), Engine, RequestCancel(c), Engine], Deliver);
  }

  /** The order manager's side of the big bid, unfilled and unrefunded. */
  ghost predicate BigBidHeld(s: State) {
    && s.omUp && s.meUp && s.blocked.None? && s.hist.refunded == {}
    && s.om.infos == map[0 := OrderInfo("bob", "X", Bid, Some(0x4000_0000), 4, 0, 0)]
    && s.om.idRight == map[TransformId(0, 2) := 0] && s.om.idLeft == map[0 := TransformId(0, 2)]
    && s.om.ledger == map["ann" := map["X" := 0], "bob" := map[USD_SYMBOL := 0]]
  }

  lemma BigBidRests(cfg: Config, ledger: Ledger, b: NewOrder)
    requires cfg == Venue("X") && ledger == Purses("X", 0, 0x1_0000_0000) && b == Bid1("X", 4, Limit(0x4000_0000))
    ensures var s := Next(cfg, Next(cfg, Init(cfg, ledger), Submit(b)), Engine);
            && BigBidHeld(s) && s.reqQ == [] && s.respQ == []
            && s.books == map["X" := Book([Order(0, 0x4000_0000, 4, Bid, "bob")], [])]
  {
    hide Next, TransformId;
    BigBidIsValid(ledger, b);
    FirstAccepted(cfg, ledger, b);
    FirstTaken(cfg, Next(cfg, Init(cfg, ledger), Submit(b)), b);
  }

  lemma BigBidIsValid(l: Ledger, b: NewOrder)
    requires l == Purses("X", 0, 0x1_0000_0000) && b == Bid1("X", 4, Limit(0x4000_0000))
    ensures ValidateAsserts({"X"}, l, b, None)
    ensures Validate({"X"}, l, b, None) ==
            Validation(Ok, map["ann" := map["X" := 0], "bob" := map[USD_SYMBOL := 0]])
  {
    var l' := Update(l, "bob", USD_SYMBOL, -0x1_0000_0000);
    assert "ann" != "bob" && l["ann"] == map["X" := 0] && l["bob"] == map[USD_SYMBOL := 0x1_0000_0000];
    assert l'["ann"] == map["X" := 0] && l'["bob"] == map[USD_SYMBOL := 0];
    assert l' == map["ann" := map["X" := 0], "bob" := map[USD_SYMBOL := 0]];
  }

  lemma OwnIsForwarded(cfg: Config, s: State, c: CancelRequest)
    requires cfg == Venue("X") && BigBidHeld(s) && s.reqQ == [] && c == CancelRequest("bob", 0, 1, "X", None)
    ensures var s' := Next(cfg, s, RequestCancel(c));
            && BigBidHeld(s') && s'.reqQ == [CancelReq(0, 1, "X")] && s'.books == s.books && s'.respQ == s.respQ
  {
    hide TransformId;
    assert ResolveCancel(cfg, s.om, c) == Some(0);
  }

  lemma OwnIsServed(cfg: Config, s: State)
    requires BigBidHeld(s) && s.reqQ == [CancelReq(0, 1, "X")] && s.respQ == []
    requires s.books == map["X" := Book([Order(0, 0x4000_0000, 4, Bid, "bob")], [])]
    ensures var s' := Next(cfg, s, Engine);
            && BigBidHeld(s') && s'.reqQ == [] && s'.books == map["X" := EMPTY_BOOK]
            && s'.respQ == [CancelResp(0, 1, true)]
  {
    hide TransformId;
    var book := s.books["X"];
    assert book.bids[0].id == 0 && InBook(book, 0);
    assert book.bids[1..] == [] && Cancel(book, 0) == EMPTY_BOOK;
  }

  lemma NothingIsRefunded(cfg: Config, s: State)
    requires cfg == Venue("X") && BigBidHeld(s) && s.respQ == [CancelResp(0, 1, true)] && s.reqQ == []
    ensures var s' := Next(cfg, s, Deliver);
            && s'.omUp && s'.meUp == s.meUp && s'.books == s.books && s'.reqQ == [] && s'.respQ == []
            && s'.hist.refunded == {0} && Balance(s'.om.ledger, "bob", USD_SYMBOL) == 0
  {
    hide TransformId, TruncDiv;
    var info := s.om.infos[0];
    assert ReservedFor(info) == 0x1_0000_0000 && RefundAmount(Bits32, info) == 0;
    assert Owns(s.om.ledger, "bob", USD_SYMBOL) && Balance(s.om.ledger, "bob", USD_SYMBOL) == 0;
    assert CancelGuards(Bits32, s.om, 0, true);
    UpdateCells(s.om.ledger, "bob", USD_SYMBOL, 0);
  }
}
