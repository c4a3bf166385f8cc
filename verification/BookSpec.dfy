/**
 The flat specification of one limit order book: each side is a single sequence in
 price-then-arrival priority, best order first. Matching eats the far side from the front.
 */
module BookSpec {
  import opened Common

  datatype Book = Book(bids: seq<Order>, asks: seq<Order>)

  const EMPTY_BOOK := Book([], [])

  /** The incoming order; a market order carries the sentinel limit of its side. */
  datatype Taker = Taker(id: int, side: Side, limit: int, trader: string, ticker: string)

  datatype MatchResult = MatchResult(trades: seq<Trade>, far: seq<Order>, left: int)

  function SideOf(b: Book, side: Side): seq<Order> {
    if side == Bid then b.bids else b.asks
  }

  function WithSides(near: seq<Order>, far: seq<Order>, side: Side): Book {
    if side == Bid then Book(near, far) else Book(far, near)
  }

  // ---------------------------------------------------------------- operations

  predicate Crosses(side: Side, limit: int, makerPrice: int) {
    if side == Bid then makerPrice <= limit else limit <= makerPrice
  }

  function MakeTrade(t: Taker, maker: Order, qty: int): Trade {
    Trade(t.ticker, maker.price, qty, t.trader, maker.trader, t.id, maker.id, t.side == Bid)
  }

  function Match(far: seq<Order>, t: Taker, qty: int): MatchResult {
    if far == [] || qty <= 0 || !Crosses(t.side, t.limit, far[0].price) then
      MatchResult([], far, qty)
    else if qty >= far[0].qty then
      var r := Match(far[1..], t, qty - far[0].qty);
      MatchResult([MakeTrade(t, far[0], far[0].qty)] + r.trades, r.far, r.left)
    else
      MatchResult([MakeTrade(t, far[0], qty)], [far[0].(qty := far[0].qty - qty)] + far[1..], 0)
  }

  /** `p` has at least the priority of `q` on a side. */
  predicate AtLeastAsGood(side: Side, p: int, q: int) {
    if side == Bid then p >= q else p <= q
  }

  /** Queue `o` behind every order of the same or a better price. */
  function Rest(near: seq<Order>, o: Order): (r: seq<Order>)
    ensures |r| == |near| + 1
  {
    if near != [] && AtLeastAsGood(o.side, near[0].price, o.price) then
      [near[0]] + Rest(near[1..], o)
    else
      [o] + near
  }

  predicate Rests(left: int, limit: int) {
    left > 0 && limit != MARKET_BID_ORDER_PRICE && limit != MARKET_ASK_ORDER_PRICE
  }

  function AddMatch(b: Book, t: Taker, qty: int): MatchResult {
    Match(SideOf(b, Opposite(t.side)), t, qty)
  }

  function Add(b: Book, t: Taker, qty: int): Book {
    var r := AddMatch(b, t, qty);
    var near := SideOf(b, t.side);
    WithSides(
      if Rests(r.left, t.limit) then Rest(near, Order(t.id, t.limit, r.left, t.side, t.trader)) else near,
      r.far, t.side)
  }

  function Remove(s: seq<Order>, id: int): seq<Order> {
    if s == [] then []
    else if s[0].id == id then Remove(s[1..], id)
    else [s[0]] + Remove(s[1..], id)
  }

  function Cancel(b: Book, id: int): Book {
    Book(Remove(b.bids, id), Remove(b.asks, id))
  }

  /** Money needed to take `qty` units from the front of a side, or as many as there are. */
  function CostOf(s: seq<Order>, qty: int): int {
    if s == [] || qty <= 0 then 0
    else if qty >= s[0].qty then s[0].price * s[0].qty + CostOf(s[1..], qty - s[0].qty)
    else s[0].price * qty
  }

  function FillCost(b: Book, qty: int, side: Side): Option<int> {
    if SideOf(b, side) == [] then None else Some(CostOf(SideOf(b, side), qty))
  }

  // ---------------------------------------------------------------- measures

  predicate HasId(s: seq<Order>, id: int) {
    exists i :: 0 <= i < |s| && s[i].id == id
  }

  predicate InBook(b: Book, id: int) {
    HasId(b.bids, id) || HasId(b.asks, id)
  }

  function TotalQty(s: seq<Order>): int {
    if s == [] then 0 else s[0].qty + TotalQty(s[1..])
  }

  function QtyOf(s: seq<Order>, id: int): int {
    if s == [] then 0 else (if s[0].id == id then s[0].qty else 0) + QtyOf(s[1..], id)
  }

  function BookQty(b: Book, id: int): int {
    QtyOf(b.bids, id) + QtyOf(b.asks, id)
  }

  function TradedQty(ts: seq<Trade>): int {
    if ts == [] then 0 else ts[0].qty + TradedQty(ts[1..])
  }

  /** Quantity that order `id` supplied as maker. */
  function MadeQty(ts: seq<Trade>, id: int): int {
    if ts == [] then 0 else (if ts[0].makerOrder == id then ts[0].qty else 0) + MadeQty(ts[1..], id)
  }

  function TotalNotional(ts: seq<Trade>): int {
    if ts == [] then 0 else Notional(ts[0]) + TotalNotional(ts[1..])
  }

  /** Units standing at prices the taker accepts, before the first price that it does not. */
  function Crossable(s: seq<Order>, side: Side, limit: int): int {
    if s == [] || !Crosses(side, limit, s[0].price) then 0
    else s[0].qty + Crossable(s[1..], side, limit)
  }

  /** What is left of a side after its first `n` units are gone. */
  function Consume(s: seq<Order>, n: int): seq<Order> {
    if s == [] || n <= 0 then s
    else if n >= s[0].qty then Consume(s[1..], n - s[0].qty)
    else [s[0].(qty := s[0].qty - n)] + s[1..]
  }

  function Min(a: int, b: int): int {
    if a <= b then a else b
  }

  // ---------------------------------------------------------------- invariant

  predicate OrderOk(o: Order, side: Side) {
    o.side == side && o.qty > 0 && 0 < o.price < MAX_INT && o.id >= 0 && o.trader != ""
  }

  /** Every order is positive, of the right side, and no price is better than an earlier one. */
  predicate SideInv(s: seq<Order>, side: Side) {
    && (forall i :: 0 <= i < |s| ==> OrderOk(s[i], side))
    && (forall i, j :: 0 <= i < j < |s| ==> AtLeastAsGood(side, s[i].price, s[j].price))
  }

  predicate UniqueIds(s: seq<Order>) {
    forall i, j :: 0 <= i < j < |s| ==> s[i].id != s[j].id
  }

  predicate Disjoint(s: seq<Order>, t: seq<Order>) {
    forall i, j :: 0 <= i < |s| && 0 <= j < |t| ==> s[i].id != t[j].id
  }

  /** The best bid is below the best ask, hence every bid below every ask. */
  predicate Uncrossed(bids: seq<Order>, asks: seq<Order>) {
    bids == [] || asks == [] || bids[0].price < asks[0].price
  }

  predicate BookInv(b: Book) {
    && SideInv(b.bids, Bid) && SideInv(b.asks, Ask)
    && UniqueIds(b.bids) && UniqueIds(b.asks) && Disjoint(b.bids, b.asks)
    && Uncrossed(b.bids, b.asks)
  }

  /** What `add_order` demands of its caller, and a limit in the range of `int`. */
  predicate AddOk(b: Book, t: Taker, qty: int) {
    && t.id >= 0 && !InBook(b, t.id)
    && (t.limit == MARKET_ASK_ORDER_PRICE || 0 < t.limit <= MAX_INT)
    && qty > 0
    && t.trader != "" && t.ticker != ""
  }

  /** The buffers that a trade copies its names into, terminator included. */
  const MAX_TICKER_LENGTH := 5
  const MAX_USERNAME_LENGTH := 16

  predicate TickerFits(ticker: string) {
    |ticker| < MAX_TICKER_LENGTH
  }

  predicate NameFits(name: string) {
    |name| < MAX_USERNAME_LENGTH
  }

  predicate NamesFit(tr: Trade) {
    TickerFits(tr.ticker) && NameFits(tr.takerId) && NameFits(tr.makerId)
  }

  /** What `create_trade` and the constructor of a trade demand of their arguments. */
  predicate TradeOk(tr: Trade) {
    && tr.takerOrder >= 0 && tr.makerOrder >= 0 && tr.takerOrder != tr.makerOrder
    && tr.takerId != "" && tr.makerId != "" && tr.ticker != ""
    && tr.price > 0 && tr.qty > 0
    && NamesFit(tr)
  }

  predicate AllFit(ts: seq<Trade>) {
    forall i :: 0 <= i < |ts| ==> NamesFit(ts[i])
  }

  /** `add_order` runs to its end: its own contract holds, and that of every trade it makes. */
  predicate Takes(b: Book, t: Taker, qty: int) {
    AddOk(b, t, qty) && AllFit(AddMatch(b, t, qty).trades)
  }

  // ---------------------------------------------------------------- matching

  /** The first `|trades|` makers trade in priority order at their own prices; all but the last in full. */
  ghost predicate ConsumesPrefix(far: seq<Order>, t: Taker, r: MatchResult) {
    var k := |r.trades|;
    && k <= |far|
    && (forall i :: 0 <= i < k ==> r.trades[i] == MakeTrade(t, far[i], r.trades[i].qty)
                                   && Crosses(t.side, t.limit, far[i].price)
                                   && 0 < r.trades[i].qty <= far[i].qty)
    && (forall i :: 0 <= i < k - 1 ==> r.trades[i].qty == far[i].qty)
    && (r.far == far[k..]
        || (k > 0 && r.left == 0 && r.trades[k - 1].qty < far[k - 1].qty
            && r.far == [far[k - 1].(qty := far[k - 1].qty - r.trades[k - 1].qty)] + far[k..]))
  }

  predicate PositiveQty(s: seq<Order>) {
    forall i :: 0 <= i < |s| ==> s[i].qty > 0
  }

  lemma {:induction false} PrefixStep(far: seq<Order>, t: Taker, r1: MatchResult)
    requires far != [] && far[0].qty > 0 && Crosses(t.side, t.limit, far[0].price)
    requires ConsumesPrefix(far[1..], t, r1)
    ensures ConsumesPrefix(far, t, MatchResult([MakeTrade(t, far[0], far[0].qty)] + r1.trades, r1.far, r1.left))
  {
    var ts := [MakeTrade(t, far[0], far[0].qty)] + r1.trades;
    var k := |ts|;
    assert far[k..] == far[1..][k - 1..];
    forall i | 0 <= i < k
      ensures ts[i] == MakeTrade(t, far[i], ts[i].qty) && Crosses(t.side, t.limit, far[i].price)
          && 0 < ts[i].qty <= far[i].qty
      ensures i < k - 1 ==> ts[i].qty == far[i].qty
    {
      if i > 0 { assert ts[i] == r1.trades[i - 1] && far[i] == far[1..][i - 1]; }
    }
  }

  lemma {:induction false} MatchConsumesPrefix(far: seq<Order>, t: Taker, qty: int)
    requires PositiveQty(far)
    ensures ConsumesPrefix(far, t, Match(far, t, qty))
    ensures qty >= 0 ==> 0 <= Match(far, t, qty).left <= qty
  {
    if !(far == [] || qty <= 0 || !Crosses(t.side, t.limit, far[0].price)) && qty >= far[0].qty {
      MatchConsumesPrefix(far[1..], t, qty - far[0].qty);
      PrefixStep(far, t, Match(far[1..], t, qty - far[0].qty));
    }
  }

  /**
   Matching against an independent reference: the traded amount is the smaller of what is wanted
   and what stands at acceptable prices, and the far side loses exactly that amount from its front.
   */
  lemma {:induction false} MatchMeetsReference(far: seq<Order>, t: Taker, qty: int)
    requires PositiveQty(far) && qty >= 0
    ensures var r := Match(far, t, qty); var n := Min(qty, Crossable(far, t.side, t.limit));
            TradedQty(r.trades) == n && r.far == Consume(far, n) && r.left == qty - n
    ensures Crossable(far, t.side, t.limit) >= 0
  {
    if far != [] {
      if qty == 0 {
        MatchMeetsReference(far[1..], t, qty);
      } else if Crosses(t.side, t.limit, far[0].price) {
        if qty >= far[0].qty {
          MatchMeetsReference(far[1..], t, qty - far[0].qty);
          var r := Match(far, t, qty);
          assert r.trades[1..] == Match(far[1..], t, qty - far[0].qty).trades;
        } else {
          MatchMeetsReference(far[1..], t, qty);
          assert Match(far, t, qty).trades[1..] == [];
        }
      }
    }
  }

  /** Maker `i` is hit: its price is acceptable and everything before it is not enough. */
  predicate Hit(far: seq<Order>, t: Taker, qty: int, i: int) {
    0 <= i < |far| && Crosses(t.side, t.limit, far[i].price) && TotalQty(far[..i]) < qty
  }

  /** The makers of the trades are exactly the ones hit. */
  lemma {:induction false} HitIff(far: seq<Order>, t: Taker, qty: int, i: int)
    requires SideInv(far, Opposite(t.side)) && 0 <= i
    ensures i < |Match(far, t, qty).trades| <==> Hit(far, t, qty, i)
  {
    if far != [] && i > 0 {
      var u := far[1..];
      assert forall k :: 0 <= k < |u| ==> u[k] == far[k + 1];
      HitIff(u, t, qty - far[0].qty, i - 1);
      if i < |far| {
        assert far[..i][1..] == u[..i - 1];
        TotalQtyPositive(u[..i - 1]);
      }
    }
  }

  lemma {:induction false} TotalQtyPositive(s: seq<Order>)
    requires PositiveQty(s)
    ensures TotalQty(s) >= 0 && (s != [] ==> TotalQty(s) > 0)
  {
    if s != [] { TotalQtyPositive(s[1..]); }
  }

  /** A ticker of five letters or more, or a name of sixteen or more: a trade cannot hold it. */
  predicate Overlong(far: seq<Order>, t: Taker, i: int) {
    0 <= i < |far| && (|t.ticker| >= 5 || |t.trader| >= 16 || |far[i].trader| >= 16)
  }

  /** An order is taken exactly when no maker it hits makes a trade with a name too long for it. */
  lemma TakesIff(b: Book, t: Taker, qty: int)
    requires BookInv(b) && AddOk(b, t, qty)
    ensures var far := SideOf(b, Opposite(t.side));
            Takes(b, t, qty) <==> forall i :: Hit(far, t, qty, i) ==> !Overlong(far, t, i)
  {
    var far := SideOf(b, Opposite(t.side));
    var ts := AddMatch(b, t, qty).trades;
    MatchConsumesPrefix(far, t, qty);
    forall i | 0 <= i < |ts| ensures Hit(far, t, qty, i) && (NamesFit(ts[i]) <==> !Overlong(far, t, i)) {
      HitIff(far, t, qty, i);
      assert ts[i] == MakeTrade(t, far[i], ts[i].qty);
    }
    forall i | Hit(far, t, qty, i) ensures i < |ts| { HitIff(far, t, qty, i); }
  }

  /** Matching only stops early because the quantity or the acceptable prices ran out. */
  lemma {:induction false} MatchStops(far: seq<Order>, t: Taker, qty: int)
    requires PositiveQty(far) && qty >= 0
    ensures var r := Match(far, t, qty);
            r.left > 0 ==> r.far == [] || !Crosses(t.side, t.limit, r.far[0].price)
  {
    if far != [] && qty > 0 && Crosses(t.side, t.limit, far[0].price) && qty >= far[0].qty {
      MatchStops(far[1..], t, qty - far[0].qty);
    }
  }

  /** Whatever an order loses on the book shows up in trades it made. */
  lemma {:induction false} MatchConservesQty(far: seq<Order>, t: Taker, qty: int, id: int)
    ensures var r := Match(far, t, qty); QtyOf(far, id) == QtyOf(r.far, id) + MadeQty(r.trades, id)
  {
    if !(far == [] || qty <= 0 || !Crosses(t.side, t.limit, far[0].price)) {
      var r := Match(far, t, qty);
      if qty >= far[0].qty {
        MatchConservesQty(far[1..], t, qty - far[0].qty, id);
        assert r.trades[1..] == Match(far[1..], t, qty - far[0].qty).trades;
      } else {
        assert r.trades[1..] == [];
        assert r.far[1..] == far[1..];
      }
    }
  }

  lemma {:induction false} MatchAllTraded(far: seq<Order>, t: Taker, qty: int)
    ensures var r := Match(far, t, qty); TradedQty(r.trades) + r.left == qty
  {
    if !(far == [] || qty <= 0 || !Crosses(t.side, t.limit, far[0].price)) {
      var r := Match(far, t, qty);
      if qty >= far[0].qty {
        MatchAllTraded(far[1..], t, qty - far[0].qty);
        assert r.trades[1..] == Match(far[1..], t, qty - far[0].qty).trades;
      } else {
        assert r.trades[1..] == [];
      }
    }
  }

  /** A taker that accepts every price on a side pays exactly what the cost query answers. */
  lemma {:induction false} CostIsMatchNotional(far: seq<Order>, t: Taker, qty: int)
    requires forall i :: 0 <= i < |far| ==> Crosses(t.side, t.limit, far[i].price)
    ensures CostOf(far, qty) == TotalNotional(Match(far, t, qty).trades)
  {
    if far != [] && qty > 0 {
      var r := Match(far, t, qty);
      if qty >= far[0].qty {
        forall i | 0 <= i < |far[1..]|
          ensures Crosses(t.side, t.limit, far[1..][i].price)
        { assert far[1..][i] == far[i + 1]; }
        CostIsMatchNotional(far[1..], t, qty - far[0].qty);
        assert r.trades[1..] == Match(far[1..], t, qty - far[0].qty).trades;
      } else {
        assert r.trades[1..] == [];
      }
    }
  }

  /** The cost query for a market order against either side, both directions of the empty case. */
  lemma {:induction false} FillCostIsMarketNotional(b: Book, t: Taker, qty: int)
    requires BookInv(b)
    requires t.limit == if t.side == Bid then MARKET_BID_ORDER_PRICE else MARKET_ASK_ORDER_PRICE
    ensures FillCost(b, qty, Opposite(t.side)) ==
            if SideOf(b, Opposite(t.side)) == [] then None
            else Some(TotalNotional(AddMatch(b, t, qty).trades))
  {
    CostIsMatchNotional(SideOf(b, Opposite(t.side)), t, qty);
  }

  lemma {:induction false} CostPositive(s: seq<Order>, qty: int)
    requires PositiveQty(s) && forall i :: 0 <= i < |s| ==> s[i].price > 0
    ensures CostOf(s, qty) >= 0
    ensures s != [] && qty > 0 ==> CostOf(s, qty) > 0
  {
    if s != [] && qty > 0 { CostPositive(s[1..], qty - s[0].qty); }
  }

  // ---------------------------------------------------------------- resting

  /** The new order stands behind everything at least as good and before everything worse. */
  lemma {:induction false} RestPosition(near: seq<Order>, o: Order) returns (k: int)
    requires forall i, j :: 0 <= i < j < |near| ==> AtLeastAsGood(o.side, near[i].price, near[j].price)
    ensures 0 <= k <= |near|
    ensures Rest(near, o) == near[..k] + [o] + near[k..]
    ensures forall i :: 0 <= i < k ==> AtLeastAsGood(o.side, near[i].price, o.price)
    ensures forall i :: k <= i < |near| ==> !AtLeastAsGood(o.side, near[i].price, o.price)
  {
    if near != [] && AtLeastAsGood(o.side, near[0].price, o.price) {
      k := RestPosition(near[1..], o);
      k := k + 1;
      assert near[..k] == [near[0]] + near[1..][..k - 1];
      assert near[k..] == near[1..][k - 1..];
      forall i | 0 <= i < |near|
        ensures i < k ==> AtLeastAsGood(o.side, near[i].price, o.price)
        ensures i >= k ==> !AtLeastAsGood(o.side, near[i].price, o.price)
      {
        if i > 0 { assert near[i] == near[1..][i - 1]; }
      }
    } else {
      k := 0;
      assert near[..0] == [] && near[0..] == near;
    }
  }

  lemma {:induction false} RestQty(near: seq<Order>, o: Order, id: int)
    ensures QtyOf(Rest(near, o), id) == QtyOf(near, id) + (if o.id == id then o.qty else 0)
  {
    var r := Rest(near, o);
    if near != [] && AtLeastAsGood(o.side, near[0].price, o.price) {
      RestQty(near[1..], o, id);
      assert r[1..] == Rest(near[1..], o);
    } else {
      assert r[1..] == near;
    }
  }

  lemma {:induction false} RestHasId(near: seq<Order>, o: Order, id: int)
    ensures HasId(Rest(near, o), id) <==> HasId(near, id) || id == o.id
  {
    var r := Rest(near, o);
    if near != [] && AtLeastAsGood(o.side, near[0].price, o.price) {
      RestHasId(near[1..], o, id);
      assert r[1..] == Rest(near[1..], o);
      if HasId(near, id) {
        var i :| 0 <= i < |near| && near[i].id == id;
        if i > 0 { assert near[1..][i - 1].id == id; }
        if HasId(r[1..], id) { var j :| 0 <= j < |r[1..]| && r[1..][j].id == id; assert r[j + 1].id == id; }
        assert i == 0 ==> r[0].id == id;
      }
      if HasId(r, id) {
        var i :| 0 <= i < |r| && r[i].id == id;
        if i > 0 { assert r[1..][i - 1].id == id; }
        if HasId(near[1..], id) { var j :| 0 <= j < |near[1..]| && near[1..][j].id == id; assert near[j + 1].id == id; }
        assert i == 0 ==> near[0].id == id;
      }
      if id == o.id { var j :| 0 <= j < |r[1..]| && r[1..][j].id == id; assert r[j + 1].id == id; }
    } else {
      assert r[0].id == o.id;
      if HasId(near, id) { var i :| 0 <= i < |near| && near[i].id == id; assert r[i + 1].id == id; }
      if HasId(r, id) { var i :| 0 <= i < |r| && r[i].id == id; if i > 0 { assert near[i - 1].id == id; } }
    }
  }

  // ---------------------------------------------------------------- cancelling

  /** Removing an id keeps exactly the other orders, each one as it was, in their order. */
  lemma {:induction false} RemoveKeeps(s: seq<Order>, id: int)
    ensures forall o :: o in Remove(s, id) <==> o in s && o.id != id
    ensures forall j :: QtyOf(Remove(s, id), j) == if j == id then 0 else QtyOf(s, j)
    ensures |Remove(s, id)| <= |s|
  {
    if s != [] {
      RemoveKeeps(s[1..], id);
      assert s == [s[0]] + s[1..];
      var r := Remove(s, id);
      if s[0].id != id { assert r[1..] == Remove(s[1..], id); }
    }
  }

  lemma {:induction false} PrependSide(o: Order, v: seq<Order>, side: Side)
    requires SideInv(v, side) && UniqueIds(v) && OrderOk(o, side)
    requires forall i :: 0 <= i < |v| ==> AtLeastAsGood(side, o.price, v[i].price) && o.id != v[i].id
    ensures SideInv([o] + v, side) && UniqueIds([o] + v)
  {
  }

  lemma {:induction false} RemoveSide(s: seq<Order>, id: int, side: Side)
    requires SideInv(s, side) && UniqueIds(s)
    ensures SideInv(Remove(s, id), side) && UniqueIds(Remove(s, id))
    ensures Remove(s, id) != [] ==> AtLeastAsGood(side, s[0].price, Remove(s, id)[0].price)
  {
    if s != [] {
      var u := s[1..];
      assert forall i :: 0 <= i < |u| ==> u[i] == s[i + 1];
      RemoveSide(u, id, side);
      RemoveKeeps(u, id);
      var v := Remove(u, id);
      forall i | 0 <= i < |v|
        ensures AtLeastAsGood(side, s[0].price, v[i].price) && s[0].id != v[i].id
      {
        assert v[i] in v;
        assert v[i] in u;
      }
      if s[0].id != id { PrependSide(s[0], v, side); }
    }
  }

  lemma {:induction false} CancelKeepsInv(b: Book, id: int)
    requires BookInv(b)
    ensures BookInv(Cancel(b, id)) && !InBook(Cancel(b, id), id)
    ensures forall j :: BookQty(Cancel(b, id), j) == if j == id then 0 else BookQty(b, j)
  {
    RemoveSide(b.bids, id, Bid);
    RemoveSide(b.asks, id, Ask);
    RemoveKeeps(b.bids, id);
    RemoveKeeps(b.asks, id);
    var c := Cancel(b, id);
    forall i, j | 0 <= i < |c.bids| && 0 <= j < |c.asks|
      ensures c.bids[i].id != c.asks[j].id
    {
      assert c.bids[i] in b.bids && c.asks[j] in b.asks;
    }
    forall i | 0 <= i < |c.bids| ensures c.bids[i].id != id { assert c.bids[i] in c.bids; }
    forall i | 0 <= i < |c.asks| ensures c.asks[i].id != id { assert c.asks[i] in c.asks; }
  }

  // ---------------------------------------------------------------- the book invariant

  /** `o` is some order of `s`, up to its quantity. */
  ghost predicate From(o: Order, s: seq<Order>) {
    exists j :: 0 <= j < |s| && s[j].id == o.id && s[j].price == o.price && s[j].trader == o.trader
  }

  /** `r` is a well-ordered remainder of side `s`, no better than `s` at the front. */
  ghost predicate Remainder(s: seq<Order>, r: seq<Order>, side: Side) {
    && SideInv(r, side) && UniqueIds(r)
    && (forall i :: 0 <= i < |r| ==> From(r[i], s))
    && (r != [] ==> s != [] && AtLeastAsGood(side, s[0].price, r[0].price))
  }

  /** Dropping a prefix and shrinking the new head keeps a side in order. */
  lemma {:induction false} SuffixKeepsSide(s: seq<Order>, k: int, q: int, side: Side)
    requires SideInv(s, side) && UniqueIds(s) && 0 <= k < |s| && q > 0
    ensures Remainder(s, [s[k].(qty := q)] + s[k + 1..], side)
  {
    var r := [s[k].(qty := q)] + s[k + 1..];
    assert forall i :: 0 <= i < |r| ==> r[i] == if i == 0 then s[k].(qty := q) else s[k + i];
    forall i | 0 <= i < |r| ensures From(r[i], s) { assert s[k + i].id == r[i].id; }
  }

  lemma {:induction false} PrefixLeavesRemainder(far: seq<Order>, t: Taker, r: MatchResult, side: Side)
    requires SideInv(far, side) && UniqueIds(far) && ConsumesPrefix(far, t, r)
    ensures Remainder(far, r.far, side)
  {
    var k := |r.trades|;
    if k > 0 && r.far != far[k..] {
      SuffixKeepsSide(far, k - 1, far[k - 1].qty - r.trades[k - 1].qty, side);
    } else if k < |far| {
      SuffixKeepsSide(far, k, far[k].qty, side);
      assert far[k..] == [far[k].(qty := far[k].qty)] + far[k + 1..];
    }
  }

  /** What matching leaves of the far side still satisfies that side's invariant. */
  lemma {:induction false} MatchKeepsFar(far: seq<Order>, t: Taker, qty: int)
    requires SideInv(far, Opposite(t.side)) && UniqueIds(far)
    ensures Remainder(far, Match(far, t, qty).far, Opposite(t.side))
  {
    MatchConsumesPrefix(far, t, qty);
    PrefixLeavesRemainder(far, t, Match(far, t, qty), Opposite(t.side));
  }

  lemma {:induction false} InsertKeepsSide(s: seq<Order>, k: int, o: Order, r: seq<Order>)
    requires SideInv(s, o.side) && UniqueIds(s) && OrderOk(o, o.side) && 0 <= k <= |s|
    requires r == s[..k] + [o] + s[k..]
    requires forall i :: 0 <= i < |s| ==> s[i].id != o.id
    requires forall i :: 0 <= i < k ==> AtLeastAsGood(o.side, s[i].price, o.price)
    requires forall i :: k <= i < |s| ==> AtLeastAsGood(o.side, o.price, s[i].price)
    ensures SideInv(r, o.side) && UniqueIds(r)
  {
    assert forall i :: 0 <= i < |r| ==> r[i] == if i < k then s[i] else if i == k then o else s[i - 1];
  }

  lemma {:induction false} RestKeepsNear(near: seq<Order>, o: Order)
    requires SideInv(near, o.side) && UniqueIds(near) && OrderOk(o, o.side) && !HasId(near, o.id)
    ensures SideInv(Rest(near, o), o.side) && UniqueIds(Rest(near, o))
    ensures forall x :: x in Rest(near, o) <==> x in near || x == o
    ensures Rest(near, o)[0] == o || (near != [] && Rest(near, o)[0] == near[0])
  {
    var k := RestPosition(near, o);
    assert near == near[..k] + near[k..];
    InsertKeepsSide(near, k, o, Rest(near, o));
  }

  lemma {:induction false} RemainderDisjoint(near: seq<Order>, far: seq<Order>, r: seq<Order>)
    requires Disjoint(near, far) && forall i :: 0 <= i < |r| ==> From(r[i], far)
    ensures Disjoint(near, r) && Disjoint(r, near)
  {
    forall i, j | 0 <= i < |near| && 0 <= j < |r|
      ensures near[i].id != r[j].id
    {
      assert From(r[j], far);
    }
  }

  lemma {:induction false} RestDisjoint(near: seq<Order>, o: Order, far: seq<Order>)
    requires Disjoint(near, far) && !HasId(far, o.id)
    requires forall x :: x in Rest(near, o) <==> x in near || x == o
    ensures Disjoint(Rest(near, o), far) && Disjoint(far, Rest(near, o))
  {
    var n := Rest(near, o);
    forall i, j | 0 <= i < |n| && 0 <= j < |far|
      ensures n[i].id != far[j].id
    {
      assert n[i] in n;
    }
  }

  /** `add_order` keeps the book invariant. */
  lemma {:induction false} AddKeepsInv(b: Book, t: Taker, qty: int)
    requires BookInv(b) && AddOk(b, t, qty)
    ensures BookInv(Add(b, t, qty))
  {
    var far := SideOf(b, Opposite(t.side));
    var near := SideOf(b, t.side);
    var r := AddMatch(b, t, qty);
    MatchKeepsFar(far, t, qty);
    MatchStops(far, t, qty);
    assert Disjoint(near, far);
    RemainderDisjoint(near, far, r.far);
    if Rests(r.left, t.limit) {
      var o := Order(t.id, t.limit, r.left, t.side, t.trader);
      RestKeepsNear(near, o);
      assert !HasId(r.far, t.id) by {
        forall j | 0 <= j < |r.far| ensures r.far[j].id != t.id { assert From(r.far[j], far); }
      }
      RestDisjoint(near, o, r.far);
    }
  }

  /** Every trade of an order that is taken meets the preconditions of making it. */
  lemma {:induction false} AddTradesOk(b: Book, t: Taker, qty: int)
    requires BookInv(b) && Takes(b, t, qty)
    ensures forall i :: 0 <= i < |AddMatch(b, t, qty).trades| ==> TradeOk(AddMatch(b, t, qty).trades[i])
  {
    var far := SideOf(b, Opposite(t.side));
    var r := AddMatch(b, t, qty);
    MatchConsumesPrefix(far, t, qty);
    forall i | 0 <= i < |r.trades|
      ensures TradeOk(r.trades[i])
    {
      assert r.trades[i] == MakeTrade(t, far[i], r.trades[i].qty);
      if far[i].id == t.id { assert HasId(far, t.id); }
    }
  }

  /** Quantity bookkeeping of one `add_order`, for the incoming order and for everyone else. */
  lemma {:induction false} AddConservesQty(b: Book, t: Taker, qty: int, id: int)
    ensures var r := AddMatch(b, t, qty);
            BookQty(Add(b, t, qty), id) + MadeQty(r.trades, id) ==
            BookQty(b, id) + (if id == t.id && Rests(r.left, t.limit) then r.left else 0)
  {
    var r := AddMatch(b, t, qty);
    MatchConservesQty(SideOf(b, Opposite(t.side)), t, qty, id);
    if Rests(r.left, t.limit) {
      RestQty(SideOf(b, t.side), Order(t.id, t.limit, r.left, t.side, t.trader), id);
    }
  }
}
