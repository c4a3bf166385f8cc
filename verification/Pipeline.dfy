/**
 The two processes and the channels between them as one state machine, with amounts of either width.
 The order manager and the matching engine each run a single thread; the request connection (with its
 reply direction for cost answers) and the response connection are reliable FIFO queues. An event that
 is not enabled leaves the state alone, so every sequence of events is a run.
 */
module Pipeline {
  import opened Common
  import opened BookSpec
  import opened BookCost
  import opened Messages
  import opened BalanceLedger
  import opened OrderManagement

  /** An order past validation, with the USD that was deducted for it. */
  datatype Accepted = Accepted(order: NewOrder, paid: int)

  /** A market bid whose cost answer the order manager is waiting for. */
  datatype Pending = Pending(id: int, order: NewOrder)

  /**
   Observer's record; no step reads it.
     accepted   orders past validation
     frontier   every id the engine has taken so far is below it
     cancelled  quantity the book gave up to a successful cancel
     dropped    quantity the engine neither traded nor rested
     refunded   orders whose successful cancel the order manager has settled
     settled    trades the order manager has settled, in order
   */
  datatype History = History(
    accepted: map<int, Accepted>,
    frontier: int,
    cancelled: map<int, int>,
    dropped: map<int, int>,
    refunded: set<int>,
    settled: seq<Trade>)

  datatype State = State(
    om: OmState,
    omUp: bool,
    blocked: Option<Pending>,
    reqQ: seq<Request>,
    costQ: seq<Option<int>>,
    books: map<string, Book>,
    meUp: bool,
    respQ: seq<Response>,
    sent: seq<Report>,
    hist: History)

  datatype Event =
    | Submit(order: NewOrder)
    | Resume
    | RequestCancel(request: CancelRequest)
    | Deliver
    | Engine
    | Flush

  function Init(cfg: Config, ledger: Ledger): State {
    State(OmState(ledger, map[], map[], map[], -1, map[]), true, None, [], [],
          map s | s in cfg.symbols :: EMPTY_BOOK, true, [], [],
          History(map[], 0, map[], map[], {}, []))
  }

  // ---------------------------------------------------------------- order manager steps

  /** Validation reads a balance whose contract may fail; otherwise the order is accepted or rejected. */
  function Decide(cfg: Config, s: State, id: int, n: NewOrder, cost: Option<int>): State {
    if !ValidateAsserts(cfg.symbols, s.om.ledger, n, cost) then s.(omUp := false)
    else Decided(cfg, s, id, n, cost)
  }

  function Decided(cfg: Config, s: State, id: int, n: NewOrder, cost: Option<int>): State {
    var v := Validate(cfg.symbols, s.om.ledger, n, cost);
    if v.verdict.Ok? then
      s.(om := s.om.(ledger := v.ledger),
      reqQ := s.reqQ + [NewReq(id, n)],
      sent := s.sent + [NewReport(n, id)],
      hist := s.hist.(accepted := s.hist.accepted[id := Accepted(n, Reserved(n, cost))]))
    else
      s.(sent := s.sent + [RejectionReport(n, id, v.verdict.reason)])
  }

  /** The USD that validation deducts for an accepted order. */
  function Reserved(n: NewOrder, cost: Option<int>): int {
    if n.side == Ask then 0
    else if n.ordType.Limit? then n.ordType.price * n.qty
    else if cost.Some? then cost.value else 0
  }

  function SubmitStep(cfg: Config, s: State, n: NewOrder): State {
    var om := Preprocess(cfg, s.om, n);
    var verdict := PreprocessVerdict(cfg, s.om, n);
    if verdict.Reject? then
      s.(om := om, sent := s.sent + [RejectionReport(n, om.lastId, verdict.reason)])
    else if IsMarketBid(n) then
      s.(om := om, blocked := Some(Pending(om.lastId, n)), reqQ := s.reqQ + [CostQuery(n.symbol, n.qty, Ask)])
    else Decide(cfg, s.(om := om), om.lastId, n, None)
  }

  function ResumeStep(cfg: Config, s: State): State
    requires s.blocked.Some? && s.costQ != []
  {
    Decide(cfg, s.(blocked := None, costQ := s.costQ[1..]), s.blocked.value.id, s.blocked.value.order, s.costQ[0])
  }

  /** A cancel that names an unregistered id brings the order manager down on the failed lookup. */
  function CancelStep(cfg: Config, s: State, c: CancelRequest): State {
    var target := ResolveCancel(cfg, s.om, c);
    if c.sender !in cfg.users || target.None? then
      if target.Some? && target.value !in s.om.infos then s.(omUp := false)
      else s.(sent := s.sent + [CancelRejection(s.om, c, target,
                if c.sender !in cfg.users then "Cancel request contains unknown username"
                else "Cancel request original client order ID not found")])
    else
      var s1 := s.(reqQ := s.reqQ + [CancelReq(target.value, c.clOrdId, c.symbol)]);
      if target.value !in s.om.infos then s1.(omUp := false)
      else s1.(sent := s.sent + [PendingCancelReport(s.om, c, target.value)])
  }

  function Dequeued(q: seq<Response>): seq<Response> {
    if q == [] then [] else q[1..]
  }

  /** A trade is settled into `om`, reported to both sides, and then persisted or not. */
  function AfterTrade(s: State, om: OmState, t: Trade, persisted: bool): State
    requires t.takerOrder in om.infos && t.takerOrder in om.idLeft
    requires t.makerOrder in om.infos && t.makerOrder in om.idLeft
  {
    s.(om := om, omUp := s.omUp && persisted, respQ := Dequeued(s.respQ),
    sent := s.sent + [FillReport(om, t, true), FillReport(om, t, false)],
    hist := s.hist.(settled := s.hist.settled + [t]))
  }

  /** A guard that fails stops the order manager, before or after the reports are out. */
  function DeliverTrade(cfg: Config, s: State, t: Trade): State {
    if !SettleGuards(cfg.width, s.om, t) then s.(omUp := false)
    else
      var om := SettleTrade(cfg.width, s.om, t);
      AfterTrade(s, om, t, PersistGuards(cfg, om.ledger, t))
  }

  /** A cancel response is settled into `om`, reported, and then persisted or not. */
  function AfterCancel(s: State, om: OmState, id: int, clOrdId: int, success: bool, persisted: bool): State
    requires id in om.infos && id in om.idLeft
  {
    s.(om := om, omUp := s.omUp && persisted, respQ := Dequeued(s.respQ),
    sent := s.sent + [CancelReport(om, id, clOrdId, success)],
    hist := if success then s.hist.(refunded := s.hist.refunded + {id}) else s.hist)
  }

  function DeliverCancel(cfg: Config, s: State, id: int, clOrdId: int, success: bool): State {
    if !CancelGuards(cfg.width, s.om, id, success) then s.(omUp := false)
    else
      var om := AfterRefund(cfg.width, s.om, id, success);
      AfterCancel(s, om, id, clOrdId, success, CancelPersists(cfg, om, id, success))
  }

  function DeliverStep(cfg: Config, s: State): State
    requires s.respQ != []
  {
    match s.respQ[0]
    case TradeResp(t) => DeliverTrade(cfg, s, t)
    case CancelResp(id, clOrdId, success) => DeliverCancel(cfg, s, id, clOrdId, success)
  }

  // ---------------------------------------------------------------- matching engine steps

  function TakerOf(id: int, n: NewOrder): Taker {
    Taker(id, n.side, EngineLimit(n), n.sender, n.symbol)
  }

  function TradeResps(ts: seq<Trade>): (r: seq<Response>)
    ensures |r| == |ts|
    ensures forall i :: 0 <= i < |ts| ==> r[i] == TradeResp(ts[i])
  {
    seq(|ts|, i requires 0 <= i < |ts| => TradeResp(ts[i]))
  }

  function EngineNew(s: State, id: int, n: NewOrder): State
    requires s.reqQ != []
  {
    if n.symbol !in s.books || !Takes(s.books[n.symbol], TakerOf(id, n), n.qty) then s.(meUp := false)
    else
      var b := s.books[n.symbol];
      var r := AddMatch(b, TakerOf(id, n), n.qty);
      s.(reqQ := s.reqQ[1..],
      books := s.books[n.symbol := Add(b, TakerOf(id, n), n.qty)],
      respQ := s.respQ + TradeResps(r.trades),
      hist := s.hist.(frontier := id + 1,
      dropped := if r.left > 0 && !Rests(r.left, EngineLimit(n)) then s.hist.dropped[id := r.left] else s.hist.dropped))
  }

  function EngineCancel(s: State, id: int, clOrdId: int, symbol: string): State
    requires s.reqQ != []
  {
    if symbol !in s.books then s.(meUp := false)
    else
      var b := s.books[symbol];
      if InBook(b, id) then
        s.(reqQ := s.reqQ[1..],
        books := s.books[symbol := Cancel(b, id)],
        respQ := s.respQ + [CancelResp(id, clOrdId, true)],
        hist := s.hist.(cancelled := s.hist.cancelled[id := BookQty(b, id)]))
      else
        s.(reqQ := s.reqQ[1..], respQ := s.respQ + [CancelResp(id, clOrdId, false)])
  }

  /** The engine can answer: it has the book, a quantity is asked for, and no contract fails on the way. */
  predicate Answers(w: Width, s: State, symbol: string, qty: int, side: Side) {
    && symbol in s.books && qty > 0
    && (SideOf(s.books[symbol], side) == [] || Answer(w, SideOf(s.books[symbol], side), qty).Some?)
  }

  function EngineQuery(w: Width, s: State, symbol: string, qty: int, side: Side): State
    requires s.reqQ != []
  {
    if !Answers(w, s, symbol, qty, side) then s.(meUp := false)
    else s.(reqQ := s.reqQ[1..], costQ := s.costQ + [Quote(w, s.books[symbol], qty, side)])
  }

  function ServeStep(w: Width, s: State): State
    requires s.reqQ != []
  {
    match s.reqQ[0]
    case NewReq(id, n) => EngineNew(s, id, n)
    case CancelReq(id, clOrdId, symbol) => EngineCancel(s, id, clOrdId, symbol)
    case CostQuery(symbol, qty, side) => EngineQuery(w, s, symbol, qty, side)
  }

  /** The periodic snapshot of every book. */
  function FlushStep(w: Width, s: State): State {
    if forall symbol :: symbol in s.books ==> SnapshotOk(w, s.books[symbol], symbol) then s else s.(meUp := false)
  }

  // ---------------------------------------------------------------- runs

  predicate Enabled(s: State, e: Event) {
    match e
    case Submit(_) => s.omUp && s.blocked.None?
    case Resume => s.omUp && s.blocked.Some? && s.costQ != []
    case RequestCancel(_) => s.omUp && s.blocked.None?
    case Deliver => s.omUp && s.blocked.None? && s.respQ != []
    case Engine => s.meUp && s.reqQ != []
    case Flush => s.meUp
  }

  function Next(cfg: Config, s: State, e: Event): State {
    if !Enabled(s, e) then s
    else
      match e
      case Submit(n) => SubmitStep(cfg, s, n)
      case Resume => ResumeStep(cfg, s)
      case RequestCancel(c) => CancelStep(cfg, s, c)
      case Deliver => DeliverStep(cfg, s)
      case Engine => ServeStep(cfg.width, s)
      case Flush => FlushStep(cfg.width, s)
  }

  /** The state after a sequence of events. */
  function Run(cfg: Config, s: State, es: seq<Event>): State {
    if es == [] then s else Next(cfg, Run(cfg, s, es[..|es| - 1]), es[|es| - 1])
  }
}
