/** The invariant of the exchange pipeline and the measures it is stated in. */
module PipelineInv {
  import opened Common
  import opened BookSpec
  import opened BookCost
  import opened Messages
  import opened BalanceLedger
  import opened OrderManagement
  import opened Pipeline

  type Orders = map<int, Accepted>

  // ---------------------------------------------------------------- measures over the channels

  /** Quantity of order `id` still on its way to the engine. */
  function Ahead(q: seq<Request>, id: int): int {
    if q == [] then 0
    else (if q[0].NewReq? && q[0].id == id then q[0].order.qty else 0) + Ahead(q[1..], id)
  }

  function FilledBy(t: Trade, id: int): int {
    (if t.takerOrder == id then t.qty else 0) + (if t.makerOrder == id then t.qty else 0)
  }

  /** Quantity of order `id` traded by the engine and not yet settled. */
  function InTrades(q: seq<Response>, id: int): int {
    if q == [] then 0
    else (if q[0].TradeResp? then FilledBy(q[0].trade, id) else 0) + InTrades(q[1..], id)
  }

  /** USD reserved by market bids still on their way to the engine. */
  function ReqReserve(q: seq<Request>, acc: Orders): int {
    if q == [] then 0
    else (if q[0].NewReq? && IsMarketBid(q[0].order)
        && q[0].id in acc then acc[q[0].id].paid else 0) + ReqReserve(q[1..], acc)
  }

  /** USD of one trade that comes out of a market bid's reservation. */
  function MarketNotional(t: Trade, acc: Orders): int {
    if BuyerOrder(t) in acc && IsMarketBid(acc[BuyerOrder(t)].order) then Notional(t) else 0
  }

  /** USD of unsettled trades bought by market bids. */
  function RespMarket(q: seq<Response>, acc: Orders): int {
    if q == [] then 0
    else (if q[0].TradeResp? then MarketNotional(q[0].trade, acc) else 0) + RespMarket(q[1..], acc)
  }

  function Get(m: map<int, int>, id: int): int {
    if id in m then m[id] else 0
  }

  // ---------------------------------------------------------------- the order manager's own maps

  ghost predicate ConfigOk(cfg: Config) {
    && (forall u :: u in cfg.users ==> 0 <= cfg.users[u] < MAX_USER_COUNT)
    && (forall u, v :: u in cfg.users && v in cfg.users && cfg.users[u] == cfg.users[v] ==> u == v)
    && "" !in cfg.users && "" !in cfg.symbols && USD_SYMBOL !in cfg.symbols
  }

  /** The bimap is one, and it covers exactly the registered orders. */
  ghost predicate IdsInv(cfg: Config, om: OmState) {
    && om.lastId >= -1
    && om.idLeft.Keys == om.infos.Keys
    && (forall id :: id in om.infos ==> 0 <= id <= om.lastId)
    && (forall id :: id in om.idLeft ==> om.idLeft[id] in om.idRight && om.idRight[om.idLeft[id]] == id)
    && (forall k :: k in om.idRight ==> om.idRight[k] in om.idLeft && om.idLeft[om.idRight[k]] == k)
    && (forall id :: id in om.infos ==> OwnerOk(cfg, om, id))
  }

  /** The key is made of the client id and the user of the order. */
  ghost predicate OwnerOk(cfg: Config, om: OmState, id: int)
    requires id in om.infos
  {
    && om.infos[id].sender in cfg.users && id in om.idLeft && id in om.clients
    && om.idLeft[id] == TransformId(om.clients[id], cfg.users[om.infos[id].sender])
  }

  predicate SameOrder(info: OrderInfo, n: NewOrder) {
    info.sender == n.sender && info.symbol == n.symbol && info.side == n.side && info.price == PriceOf(n)
  }

  /** An accepted order is well formed, known to the order manager, and its owner has the record it draws on. */
  ghost predicate AccOk(cfg: Config, om: OmState, id: int, a: Accepted) {
    && id in om.infos && SameOrder(om.infos[id], a.order)
    && a.order.symbol in cfg.symbols && a.order.qty > 0
    && (a.order.ordType.Limit? ==> a.order.ordType.price > 0)
    && a.order.sender in cfg.users
    && id in om.idLeft && om.idLeft[id] == TransformId(a.order.clOrdId, cfg.users[a.order.sender])
    && om.infos[id].leaves + om.infos[id].cum == a.order.qty && om.infos[id].cum >= 0
    && Owns(om.ledger, a.order.sender, if a.order.side == Bid then USD_SYMBOL else a.order.symbol)
  }

  ghost predicate AccInv(cfg: Config, om: OmState, acc: Orders) {
    forall id :: id in acc ==> AccOk(cfg, om, id, acc[id])
  }

  // ---------------------------------------------------------------- the request queue

  /** A queued new order is an accepted one that the engine has not seen. */
  ghost predicate ReqOk(r: Request, acc: Orders, frontier: int, known: set<int>, lastId: int, omUp: bool) {
    && (r.NewReq? ==> r.id in acc && acc[r.id].order == r.order && frontier <= r.id <= lastId)
    && (r.CancelReq? && omUp ==> r.id in known)
  }

  ghost predicate ReqInv(s: State) {
    && 0 <= s.hist.frontier <= s.om.lastId + 1
    && (s.hist.frontier == 0 || s.hist.frontier - 1 in s.hist.accepted)
    && (forall i :: 0 <= i < |s.reqQ| ==>
          ReqOk(s.reqQ[i], s.hist.accepted, s.hist.frontier, s.om.infos.Keys, s.om.lastId, s.omUp))
    && Increasing(s.reqQ)
  }

  /** New orders reach the engine in id order. */
  ghost predicate Increasing(q: seq<Request>) {
    forall i, j :: 0 <= i < j < |q| && q[i].NewReq? && q[j].NewReq? ==> q[i].id < q[j].id
  }

  // ---------------------------------------------------------------- the books

  /** A resting order is an accepted limit order of this book, in the engine's past and not cancelled. */
  predicate RestOk(o: Order, symbol: string, acc: Orders, h: History) {
    && o.id in acc && o.id < h.frontier && o.id !in h.cancelled && o.id !in h.dropped
    && acc[o.id].order.symbol == symbol && acc[o.id].order.side == o.side
    && PriceOf(acc[o.id].order) == Some(o.price)
    && acc[o.id].order.sender == o.trader
  }

  ghost predicate SideRests(s: seq<Order>, symbol: string, h: History) {
    forall i :: 0 <= i < |s| ==> RestOk(s[i], symbol, h.accepted, h)
  }

  ghost predicate BookRests(b: Book, symbol: string, h: History) {
    BookInv(b) && SideRests(b.bids, symbol, h) && SideRests(b.asks, symbol, h)
  }

  ghost predicate BooksInv(cfg: Config, books: map<string, Book>, h: History) {
    && books.Keys == cfg.symbols
    && forall symbol :: symbol in books ==> BookRests(books[symbol], symbol, h)
  }

  // ---------------------------------------------------------------- the response queue

  /** A trade between two accepted orders of one symbol and opposite sides, at a limit maker's price. */
  predicate TradeFits(t: Trade, acc: Orders, frontier: int) {
    && t.takerOrder != t.makerOrder && t.qty > 0 && t.price > 0
    && t.takerOrder in acc && t.makerOrder in acc
    && t.takerOrder < frontier && t.makerOrder < frontier
    && (var a, b := acc[t.takerOrder].order, acc[t.makerOrder].order;
        && a.symbol == t.ticker == b.symbol
        && a.sender == t.takerId && b.sender == t.makerId
        && a.side == (if t.takerIsBuyer then Bid else Ask) && b.side == Opposite(a.side)
        && PriceOf(b) == Some(t.price)
        && Crosses(a.side, EngineLimit(a), t.price))
  }

  predicate RespOk(r: Response, h: History, known: set<int>, omUp: bool) {
    match r
    case TradeResp(t) => TradeFits(t, h.accepted, h.frontier)
    case CancelResp(id, _, success) =>
      && (omUp ==> id in known)
      && (success ==> id in h.accepted && id in h.cancelled)
  }

  /** The message uses up quantity of order `id`. */
  predicate Mentions(r: Response, id: int) {
    match r
    case TradeResp(t) => t.takerOrder == id || t.makerOrder == id
    case CancelResp(c, _, success) => success && c == id
  }

  predicate IsCancelled(r: Response, id: int) {
    r.CancelResp? && r.success && r.id == id
  }

  ghost predicate RespInv(s: State) {
    && (forall i :: 0 <= i < |s.respQ| ==> RespOk(s.respQ[i], s.hist, s.om.infos.Keys, s.omUp))
    && CancelIsLast(s.respQ)
    && (forall i, id :: 0 <= i < |s.respQ| && id in s.hist.refunded ==> !Mentions(s.respQ[i], id))
  }

  /** Nothing about an order follows its successful cancel. */
  ghost predicate CancelIsLast(q: seq<Response>) {
    forall i, j :: 0 <= i < j < |q| && q[i].CancelResp? && q[i].success ==> !Mentions(q[j], q[i].id)
  }

  /** The cancelled orders are the refunded ones and those whose response is under way. */
  ghost predicate CancelInv(s: State) {
    && (forall id :: id in s.hist.cancelled ==>
          && id in s.hist.accepted && id < s.hist.frontier && s.hist.accepted[id].order.ordType.Limit?
          && s.hist.cancelled[id] > 0 && id !in s.hist.dropped
          && (id in s.hist.refunded || Awaits(s.respQ, id)))
    && (forall id :: id in s.hist.refunded ==> id in s.hist.cancelled)
    && (forall id :: id in s.hist.dropped ==>
          && id in s.hist.accepted && id < s.hist.frontier && s.hist.dropped[id] > 0
          && EngineLimit(s.hist.accepted[id].order) in {MARKET_BID_ORDER_PRICE, MARKET_ASK_ORDER_PRICE})
  }

  ghost predicate Awaits(q: seq<Response>, id: int) {
    exists i :: 0 <= i < |q| && IsCancelled(q[i], id)
  }

  // ---------------------------------------------------------------- quantity, both processes

  /** Where the open quantity of an accepted order is. */
  function OpenQty(s: State, id: int): int
    requires id in s.hist.accepted && s.hist.accepted[id].order.symbol in s.books
  {
    Ahead(s.reqQ, id) + BookQty(s.books[s.hist.accepted[id].order.symbol], id) + InTrades(s.respQ, id)
    + Get(s.hist.cancelled, id) + Get(s.hist.dropped, id)
  }

  ghost predicate QtyOk(s: State, id: int) {
    && id in s.hist.accepted && id in s.om.infos && s.hist.accepted[id].order.symbol in s.books
    && s.om.infos[id].leaves == OpenQty(s, id)
  }

  ghost predicate QtyInv(s: State) {
    forall id :: id in s.hist.accepted ==> QtyOk(s, id)
  }

  // ---------------------------------------------------------------- market bids

  ghost predicate IsMarketReq(r: Request) {
    r.NewReq? && IsMarketBid(r.order)
  }

  /** A market bid on its way is first in line, and its reservation is what the book asks for now. */
  ghost predicate MarketInv(w: Width, s: State) {
    && (forall i :: 0 < i < |s.reqQ| ==> !IsMarketReq(s.reqQ[i]))
    && (s.reqQ != [] && IsMarketReq(s.reqQ[0]) ==>
          var n := s.reqQ[0].order;
          && n.symbol in s.books && s.reqQ[0].id in s.hist.accepted
          && Some(s.hist.accepted[s.reqQ[0].id].paid) == Quote(w, s.books[n.symbol], n.qty, Ask))
  }

  /** While the order manager waits, its query is last in line or its answer is current. */
  ghost predicate BlockedInv(w: Width, s: State) {
    match s.blocked
    case None => s.costQ == [] && forall i :: 0 <= i < |s.reqQ| ==> !s.reqQ[i].CostQuery?
    case Some(p) =>
      && IsMarketBid(p.order) && p.id == s.om.lastId && p.id in s.om.infos && p.id !in s.hist.accepted
      && s.om.infos[p.id] == OrderInfo(p.order.sender, p.order.symbol, Bid, None, p.order.qty, 0, 0)
      && (if s.costQ == [] then
            && s.reqQ != [] && s.reqQ[|s.reqQ| - 1] == CostQuery(p.order.symbol, p.order.qty, Ask)
            && forall i :: 0 <= i < |s.reqQ| - 1 ==> !s.reqQ[i].CostQuery?
          else
            && s.reqQ == [] && p.order.symbol in s.books
            && s.costQ == [Quote(w, s.books[p.order.symbol], p.order.qty, Ask)])
  }

  /** The waiting order is registered under its client's id. */
  ghost predicate BlockedId(cfg: Config, s: State) {
    s.blocked.Some? ==>
      var p := s.blocked.value;
      && p.order.sender in cfg.users && p.id in s.om.idLeft
      && s.om.idLeft[p.id] == TransformId(p.order.clOrdId, cfg.users[p.order.sender])
  }

  // ---------------------------------------------------------------- settled fills

  /** Running figures recomputed from the fills of one order, oldest first. */
  function FiguresOf(w: Width, ts: seq<Trade>, id: int): Figures {
    if ts == [] then Figures(0, 0)
    else
      var f := FiguresOf(w, ts[..|ts| - 1], id);
      var t := ts[|ts| - 1];
      if t.takerOrder == id || t.makerOrder == id then NextFigures(w, f, t.price, t.qty) else f
  }

  ghost predicate FiguresInv(w: Width, s: State) {
    && (forall id :: id in s.hist.accepted ==>
          id in s.om.infos && FiguresIn(s.om.infos[id]) == FiguresOf(w, s.hist.settled, id))
    && (forall i :: 0 <= i < |s.hist.settled| ==>
          TradeFits(s.hist.settled[i], s.hist.accepted, s.hist.frontier))
  }

  // ---------------------------------------------------------------- report lifecycle

  /** The life of one order as its execution reports tell it. */
  datatype Phase = Unborn | Open(cum: int) | Done | Illegal

  predicate TellsLife(r: Report, id: int) {
    r.orderId == id && r.status in {StatusNew, PartiallyFilled, Filled, Canceled}
  }

  /** New first, rising partial fills, at most one terminal report, nothing after it. */
  function Live(p: Phase, r: Report, qty: int): Phase {
    match p
    case Unborn => if r.status == StatusNew && r.leaves == qty && r.cum == 0 then Open(0) else Illegal
    case Open(cum) =>
      if r.status == PartiallyFilled && cum < r.cum < qty && r.leaves == qty - r.cum then Open(r.cum)
      else if r.status == Filled && cum < r.cum == qty && r.leaves == 0 then Done
      else if r.status == Canceled && r.cum == cum && r.leaves == 0 then Done
      else Illegal
    case Done => Illegal
    case Illegal => Illegal
  }

  function LifeOf(sent: seq<Report>, id: int, qty: int): Phase {
    if sent == [] then Unborn
    else
      var p := LifeOf(sent[..|sent| - 1], id, qty);
      if TellsLife(sent[|sent| - 1], id) then Live(p, sent[|sent| - 1], qty) else p
  }

  ghost predicate LifeOk(s: State, id: int) {
    && id in s.hist.accepted && id in s.om.infos
    && LifeOf(s.sent, id, s.hist.accepted[id].order.qty) ==
       if s.om.infos[id].leaves == 0 || id in s.hist.refunded then Done else Open(s.om.infos[id].cum)
  }

  ghost predicate LifeInv(s: State) {
    && (forall id :: id in s.hist.accepted ==> LifeOk(s, id))
    && (forall i :: 0 <= i < |s.sent| ==> Belongs(s.sent[i], s.hist.accepted))
  }

  predicate Belongs(r: Report, acc: Orders) {
    TellsLife(r, r.orderId) ==> r.orderId in acc
  }

  // ---------------------------------------------------------------- the invariant

  /** No balance is negative while the order manager is up; a credit that wraps may be what stops it. */
  ghost predicate LedgerInv(cfg: Config, s: State) {
    s.omUp || cfg.width.Exact? ==> NonNegative(s.om.ledger)
  }

  ghost predicate Inv(cfg: Config, s: State) {
    && IdsInv(cfg, s.om) && LedgerInv(cfg, s) && AccInv(cfg, s.om, s.hist.accepted)
    && ReqInv(s) && BooksInv(cfg, s.books, s.hist) && RespInv(s) && CancelInv(s)
    && QtyInv(s) && MarketInv(cfg.width, s) && BlockedInv(cfg.width, s) && BlockedId(cfg, s)
    && FiguresInv(cfg.width, s) && LifeInv(s)
  }

  // ---------------------------------------------------------------- conserved totals

  /** USD an accepted limit bid still has reserved. */
  function HeldUsd(s: State, id: int): int {
    if id in s.hist.accepted && id in s.om.infos && IsLimitBid(s.hist.accepted[id].order) && id !in s.hist.refunded
    then s.hist.accepted[id].order.ordType.price * s.om.infos[id].leaves else 0
  }

  /** Shares an accepted ask still has reserved. */
  function HeldShares(s: State, id: int, symbol: string): int {
    if id in s.hist.accepted && id in s.om.infos && s.hist.accepted[id].order.side == Ask
       && s.hist.accepted[id].order.symbol == symbol && id !in s.hist.refunded
    then s.om.infos[id].leaves else 0
  }

  ghost function UsdOf(s: State): map<int, int> {
    map id | id in s.hist.accepted :: HeldUsd(s, id)
  }

  ghost function SharesOf(s: State, symbol: string): map<int, int> {
    map id | id in s.hist.accepted :: HeldShares(s, id, symbol)
  }

  ghost function TotalUsd(s: State): int {
    Total(s.om.ledger, USD_SYMBOL) + SumMap(UsdOf(s)) + ReqReserve(s.reqQ, s.hist.accepted)
    + RespMarket(s.respQ, s.hist.accepted)
  }

  ghost function TotalShares(s: State, symbol: string): int {
    Total(s.om.ledger, symbol) + SumMap(SharesOf(s, symbol))
  }
}
