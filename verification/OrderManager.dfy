/** The order manager: ids, reservation, settlement and execution reports. */
module OrderManagement {
  import opened Common
  import opened Messages
  import opened BalanceLedger

  const MAX_USER_COUNT := 1000

  /** What the order manager remembers about a registered order. */
  datatype OrderInfo = OrderInfo(
    sender: string, symbol: string, side: Side, price: Option<int>, leaves: int, cum: int, avg: int)

  /**
   The id bimap is kept as its two directions; `lastId` is the latest assigned order id. `clients`
   is an observer's record of the client id each order was registered under; no step reads it.
   */
  datatype OmState = OmState(
    ledger: Ledger,
    idLeft: map<int, int>,
    idRight: map<int, int>,
    infos: map<int, OrderInfo>,
    lastId: int,
    clients: map<int, int>)

  /** `width` is that of amounts: the 32 bits of the code, or exact for comparison. */
  datatype Config = Config(users: map<string, int>, symbols: set<string>, width: Width)

  datatype Verdict = Ok | Reject(reason: string)

  datatype Validation = Validation(verdict: Verdict, ledger: Ledger)

  // ---------------------------------------------------------------- arithmetic of the source

  /** C++ integer division: the quotient is truncated toward zero. */
  function TruncDiv(a: int, b: int): int
    requires b > 0
  {
    if a >= 0 then a / b else -((-a) / b)
  }

  /** The client order id meant to be unique across users: a product and a sum of 32 bits. */
  function TransformId(clOrdId: int, userId: int): int {
    Wrap32(clOrdId * MAX_USER_COUNT + userId)
  }

  // ---------------------------------------------------------------- preprocessing

  /** Why preprocessing refuses a new order, if it does. */
  function PreprocessVerdict(cfg: Config, om: OmState, n: NewOrder): Verdict {
    if n.sender !in cfg.users then Reject("Order request contains unknown username")
    else if TransformId(n.clOrdId, cfg.users[n.sender]) in om.idRight then
      Reject("Client order id has already been used")
    else Ok
  }

  /** A fresh id is assigned in any case; only an order that is not refused is registered under it. */
  function Preprocess(cfg: Config, om: OmState, n: NewOrder): OmState {
    var id := om.lastId + 1;
    if PreprocessVerdict(cfg, om, n).Reject? then om.(lastId := id)
    else if n.sender !in cfg.users then om
    else
      var key := TransformId(n.clOrdId, cfg.users[n.sender]);
      om.(lastId := id,
      idLeft := om.idLeft[id := key],
      idRight := om.idRight[key := id],
      infos := om.infos[id := OrderInfo(n.sender, n.symbol, n.side, PriceOf(n), n.qty, 0, 0)],
      clients := om.clients[id := n.clOrdId])
  }

  /** The order a cancel refers to: the sender's own registered one, else whatever id it supplied. */
  function ResolveCancel(cfg: Config, om: OmState, c: CancelRequest): Option<int> {
    if c.sender in cfg.users && TransformId(c.origClOrdId, cfg.users[c.sender]) in om.idRight then
      Some(om.idRight[TransformId(c.origClOrdId, cfg.users[c.sender])])
    else c.suppliedId
  }

  // ---------------------------------------------------------------- validation

  function Debit(l: Ledger, broker: string, ticker: string, amount: int, reason: string): Validation {
    if Balance(l, broker, ticker) - amount >= 0 then Validation(Ok, Update(l, broker, ticker, -amount))
    else Validation(Reject(reason), l)
  }

  function Validate(symbols: set<string>, l: Ledger, n: NewOrder, cost: Option<int>): Validation {
    if n.symbol !in symbols then Validation(Reject("Unrecognized symbol"), l)
    else if n.ordType.Limit? && n.ordType.price <= 0 then Validation(Reject("Price is not positive"), l)
    else if n.qty <= 0 then Validation(Reject("Quantity is not positive"), l)
    else if n.sender !in l then Validation(Reject("Balance record for not found during validation"), l)
    else if n.side == Bid then
      if !Owns(l, n.sender, USD_SYMBOL) then Validation(Reject("User has no USD balance record"), l)
      else if n.ordType.Limit? then
        Debit(l, n.sender, USD_SYMBOL, n.ordType.price * n.qty, "User has insufficient USD balance")
      else if cost.None? then Validation(Reject("User has insufficient USD balance"), l)
      else Debit(l, n.sender, USD_SYMBOL, cost.value, "User has insufficient USD balance")
    else if !Owns(l, n.sender, n.symbol) then Validation(Reject("User has no " + n.symbol + " record"), l)
    else Debit(l, n.sender, n.symbol, n.qty, "User has insufficient " + n.symbol + " balance")
  }

  /** What an accepted order is debited from. */
  function DebitTicker(n: NewOrder): string {
    if n.side == Bid then USD_SYMBOL else n.symbol
  }

  /** The contract of the balance that validation reads, when it gets that far. */
  predicate ValidateAsserts(symbols: set<string>, l: Ledger, n: NewOrder, cost: Option<int>) {
    && n.symbol in symbols && (n.ordType.Limit? ==> n.ordType.price > 0) && n.qty > 0
    && Owns(l, n.sender, DebitTicker(n)) && (IsMarketBid(n) ==> cost.Some?) ==>
      Balance(l, n.sender, DebitTicker(n)) >= 0
  }

  // ---------------------------------------------------------------- fills

  /** Cumulative quantity and truncated running average price of one order. */
  datatype Figures = Figures(cum: int, avg: int)

  function Average(value: int, volume: int): int {
    if volume > 0 then TruncDiv(value, volume) else 0
  }

  /** The numerator of the average is a sum of two products, each step kept to the width. */
  function NextFigures(w: Width, f: Figures, price: int, qty: int): Figures {
    Figures(f.cum + qty, Average(Keep(w, Keep(w, f.avg * f.cum) + Keep(w, price * qty)), qty + f.cum))
  }

  function FiguresIn(info: OrderInfo): Figures {
    Figures(info.cum, info.avg)
  }

  /** Book one fill on an order. */
  function Fill(w: Width, info: OrderInfo, price: int, qty: int): OrderInfo {
    var f := NextFigures(w, FiguresIn(info), price, qty);
    info.(avg := f.avg, leaves := info.leaves - qty, cum := f.cum)
  }

  function FillBoth(w: Width, infos: map<int, OrderInfo>, t: Trade): map<int, OrderInfo>
    requires t.takerOrder in infos && t.makerOrder in infos
  {
    var m := infos[t.takerOrder := Fill(w, infos[t.takerOrder], t.price, t.qty)];
    m[t.makerOrder := Fill(w, m[t.makerOrder], t.price, t.qty)]
  }

  // ---------------------------------------------------------------- settlement

  /** What a limit buyer had reserved beyond the trade price, per unit. */
  function Improvement(infos: map<int, OrderInfo>, t: Trade): int {
    if BuyerOrder(t) in infos && infos[BuyerOrder(t)].price.Some?
    then infos[BuyerOrder(t)].price.value - t.price else 0
  }

  /** What the buyer gets back for all units. */
  function Returned(infos: map<int, OrderInfo>, t: Trade): int {
    Improvement(infos, t) * t.qty
  }

  /** The three credits of a trade, in the order they are made. */
  function CreditStock(l: Ledger, t: Trade): Ledger {
    Update(l, Buyer(t), t.ticker, t.qty)
  }

  function CreditImprovement(l: Ledger, t: Trade, improvement: int, amount: int): Ledger {
    if improvement > 0 then Update(l, Buyer(t), USD_SYMBOL, amount) else l
  }

  function CreditSeller(l: Ledger, t: Trade, amount: int): Ledger {
    Update(l, Seller(t), USD_SYMBOL, amount)
  }

  function PayOut(l: Ledger, t: Trade, improvement: int, returned: int, proceeds: int): Ledger {
    CreditSeller(CreditImprovement(CreditStock(l, t), t, improvement, returned), t, proceeds)
  }

  function SettleTrade(w: Width, om: OmState, t: Trade): OmState
    requires t.takerOrder in om.infos && t.makerOrder in om.infos
  {
    om.(infos := FillBoth(w, om.infos, t),
    ledger := PayOut(om.ledger, t, Improvement(om.infos, t), Keep(w, Returned(om.infos, t)), Keep(w, Notional(t))))
  }

  /** What is still reserved for the open quantity of a limit bid. */
  function ReservedFor(info: OrderInfo): int {
    if info.price.Some? then info.price.value * info.leaves else 0
  }

  /** What a refund credits, and where. */
  function RefundAmount(w: Width, info: OrderInfo): int {
    if info.side == Bid then Keep(w, ReservedFor(info)) else info.leaves
  }

  function RefundTicker(info: OrderInfo): string {
    if info.side == Bid then USD_SYMBOL else info.symbol
  }

  /** A successful cancel gives back what is still reserved for the order's open quantity. */
  function SettleCancel(w: Width, om: OmState, id: int): OmState
    requires id in om.infos
  {
    var info := om.infos[id];
    om.(ledger := Update(om.ledger, info.sender, RefundTicker(info), RefundAmount(w, info)))
  }

  // ---------------------------------------------------------------- guards

  /** Every lookup, contract and assertion on the way of a trade until its reports are sent. */
  predicate SettleGuards(w: Width, om: OmState, t: Trade) {
    && t.takerOrder in om.infos && t.makerOrder in om.infos
    && t.qty + om.infos[t.takerOrder].cum > 0 && t.qty + om.infos[t.makerOrder].cum > 0
    && Improvement(om.infos, t) >= 0
    && UpdateAsserts(om.ledger, Buyer(t), t.ticker, t.qty)
    && (var l1 := CreditStock(om.ledger, t);
        var imp, returned := Improvement(om.infos, t), Keep(w, Returned(om.infos, t));
        && (imp > 0 ==> UpdateAsserts(l1, Buyer(t), USD_SYMBOL, returned))
        && UpdateAsserts(CreditImprovement(l1, t, imp, returned), Seller(t), USD_SYMBOL, Keep(w, Notional(t))))
    && t.takerOrder in om.idLeft && t.makerOrder in om.idLeft
  }

  /** Those of persisting it, once the reports are out. */
  predicate PersistGuards(cfg: Config, l: Ledger, t: Trade) {
    && Buyer(t) in cfg.users && Seller(t) in cfg.users
    && GetAsserts(l, Buyer(t), USD_SYMBOL) && GetAsserts(l, Buyer(t), t.ticker)
    && GetAsserts(l, Seller(t), USD_SYMBOL) && GetAsserts(l, Seller(t), t.ticker)
  }

  predicate TradeAsserts(cfg: Config, om: OmState, t: Trade) {
    SettleGuards(cfg.width, om, t) && PersistGuards(cfg, SettleTrade(cfg.width, om, t).ledger, t)
  }

  /** The same for a cancel response. */
  predicate CancelGuards(w: Width, om: OmState, id: int, success: bool) {
    && id in om.infos && id in om.idLeft
    && (success ==>
          var info := om.infos[id];
          info.price.Some? && UpdateAsserts(om.ledger, info.sender, RefundTicker(info), RefundAmount(w, info)))
  }

  predicate CancelPersists(cfg: Config, om: OmState, id: int, success: bool)
    requires id in om.infos
  {
    success ==>
      var info := om.infos[id];
      info.sender in cfg.users && GetAsserts(om.ledger, info.sender, RefundTicker(info))
  }

  function AfterRefund(w: Width, om: OmState, id: int, success: bool): OmState
    requires id in om.infos
  {
    if success then SettleCancel(w, om, id) else om
  }

  predicate CancelAsserts(cfg: Config, om: OmState, id: int, success: bool) {
    && CancelGuards(cfg.width, om, id, success)
    && CancelPersists(cfg, AfterRefund(cfg.width, om, id, success), id, success)
  }

  // ---------------------------------------------------------------- execution reports

  function RejectionReport(n: NewOrder, id: int, reason: string): Report {
    Report(n.sender, id, n.clOrdId, None, Rejected, Some(reason), n.symbol, n.side, PriceOf(n), 0, 0, 0)
  }

  function NewReport(n: NewOrder, id: int): Report {
    Report(n.sender, id, n.clOrdId, None, StatusNew, None, n.symbol, n.side, PriceOf(n), n.qty, 0, 0)
  }

  /** A refused cancel reports on the order it named, or on a blank one. */
  function CancelRejection(om: OmState, c: CancelRequest, id: Option<int>, reason: string): Report {
    var info := if id.Some? && id.value in om.infos then om.infos[id.value]
                else OrderInfo("", "", Bid, None, 0, 0, 0);
    Report(c.sender, if id.Some? then id.value else -1, c.clOrdId, Some(c.origClOrdId), Rejected,
           Some(reason), info.symbol, info.side, info.price, 0, info.cum, info.avg)
  }

  function PendingCancelReport(om: OmState, c: CancelRequest, id: int): Report
    requires id in om.infos
  {
    var info := om.infos[id];
    Report(c.sender, id, c.clOrdId, Some(c.origClOrdId), PendingCancel, None,
           info.symbol, info.side, info.price, info.leaves, info.cum, info.avg)
  }

  function FillReport(om: OmState, t: Trade, isTaker: bool): Report
    requires (if isTaker then t.takerOrder else t.makerOrder) in om.infos
    requires (if isTaker then t.takerOrder else t.makerOrder) in om.idLeft
  {
    var id := if isTaker then t.takerOrder else t.makerOrder;
    var info := om.infos[id];
    Report(if isTaker then t.takerId else t.makerId, id, TruncDiv(om.idLeft[id], MAX_USER_COUNT), None,
           if info.leaves == 0 then Filled else PartiallyFilled, None,
           t.ticker, if isTaker == t.takerIsBuyer then Bid else Ask, Some(t.price),
           info.leaves, info.cum, info.avg)
  }

  function CancelReport(om: OmState, id: int, clOrdId: int, success: bool): Report
    requires id in om.infos && id in om.idLeft
  {
    var info := om.infos[id];
    Report(info.sender, id, clOrdId, Some(TruncDiv(om.idLeft[id], MAX_USER_COUNT)),
           if success then Canceled else Rejected,
           Some(if success then "" else "Order had already been matched"),
           info.symbol, info.side, info.price, 0, info.cum, info.avg)
  }
}
