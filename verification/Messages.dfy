/** The containers that travel between gateway, order manager and matching engine. */
module Messages {
  import opened Common

  /** A limit order has a price and a market order has none; the gateway guarantees it. */
  datatype OrdType = Limit(price: Int32) | Market

  datatype NewOrder = NewOrder(sender: string, clOrdId: Int32, symbol: string, side: Side, qty: Int32, ordType: OrdType)

  /** A FIX cancel may or may not name the internal order id itself. */
  datatype CancelRequest = CancelRequest(
    sender: string, origClOrdId: Int32, clOrdId: Int32, symbol: string, suppliedId: Option<int>)

  /** On the request connection, order manager to matching engine. */
  datatype Request =
    | NewReq(id: int, order: NewOrder)
    | CancelReq(id: int, clOrdId: int, symbol: string)
    | CostQuery(symbol: string, qty: Int32, side: Side)

  /** On the response connection, matching engine to order manager. */
  datatype Response =
    | TradeResp(trade: Trade)
    | CancelResp(id: int, clOrdId: int, success: bool)

  datatype Status = StatusNew | PartiallyFilled | Filled | Canceled | PendingCancel | Rejected

  /** An execution report (FIX 4.2, MsgType 8); execution ids and time in force are not modelled. */
  datatype Report = Report(
    target: string,
    orderId: int,
    clOrdId: int,
    origClOrdId: Option<int>,
    status: Status,
    text: Option<string>,
    symbol: string,
    side: Side,
    price: Option<int>,
    leaves: int,
    cum: int,
    avg: int)

  function PriceOf(o: NewOrder): Option<int> {
    if o.ordType.Limit? then Some(o.ordType.price) else None
  }

  /** The limit handed to the book: the price, or the sentinel of the side. */
  function EngineLimit(o: NewOrder): int {
    match o.ordType
    case Limit(price) => price
    case Market => if o.side == Bid then MARKET_BID_ORDER_PRICE else MARKET_ASK_ORDER_PRICE
  }

  predicate IsMarketBid(o: NewOrder) {
    o.ordType.Market? && o.side == Bid
  }

  predicate IsLimitBid(o: NewOrder) {
    o.ordType.Limit? && o.side == Bid
  }

  function Buyer(t: Trade): string { if t.takerIsBuyer then t.takerId else t.makerId }
  function Seller(t: Trade): string { if t.takerIsBuyer then t.makerId else t.takerId }
  function BuyerOrder(t: Trade): int { if t.takerIsBuyer then t.takerOrder else t.makerOrder }
  function SellerOrder(t: Trade): int { if t.takerIsBuyer then t.makerOrder else t.takerOrder }
}
