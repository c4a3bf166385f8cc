/** How the measures of the pipeline invariant react to queueing, dequeueing and matching. */
module PipelineMeasures {
  import opened Common
  import opened BookSpec
  import opened Messages
  import opened OrderManagement
  import opened Pipeline
  import opened PipelineInv

  // ---------------------------------------------------------------- appending to the queues

  lemma {:induction false} AheadAppend(q: seq<Request>, r: Request, id: int)
    ensures Ahead(q + [r], id) == Ahead(q, id) + (if r.NewReq? && r.id == id then r.order.qty else 0)
  {
    if q == [] {
      assert (q + [r])[1..] == [];
    } else {
      assert (q + [r])[1..] == q[1..] + [r];
      AheadAppend(q[1..], r, id);
    }
  }

  lemma {:induction false} ReqReserveAppend(q: seq<Request>, r: Request, acc: Orders)
    ensures ReqReserve(q + [r], acc) ==
            ReqReserve(q, acc) + (if r.NewReq? && IsMarketBid(r.order) && r.id in acc then acc[r.id].paid else 0)
  {
    if q == [] {
      assert (q + [r])[1..] == [];
    } else {
      assert (q + [r])[1..] == q[1..] + [r];
      ReqReserveAppend(q[1..], r, acc);
    }
  }

  lemma {:induction false} InTradesConcat(a: seq<Response>, b: seq<Response>, id: int)
    ensures InTrades(a + b, id) == InTrades(a, id) + InTrades(b, id)
  {
    if a == [] {
      assert a + b == b;
    } else {
      assert (a + b)[1..] == a[1..] + b;
      InTradesConcat(a[1..], b, id);
    }
  }

  lemma {:induction false} RespMarketConcat(a: seq<Response>, b: seq<Response>, acc: Orders)
    ensures RespMarket(a + b, acc) == RespMarket(a, acc) + RespMarket(b, acc)
  {
    if a == [] {
      assert a + b == b;
    } else {
      assert (a + b)[1..] == a[1..] + b;
      RespMarketConcat(a[1..], b, acc);
    }
  }

  // ---------------------------------------------------------------- accepting one more order

  lemma {:induction false} RespMarketStable(q: seq<Response>, acc: Orders, frontier: int, id: int, a: Accepted)
    requires id !in acc
    requires forall i :: 0 <= i < |q| && q[i].TradeResp? ==> TradeFits(q[i].trade, acc, frontier)
    ensures RespMarket(q, acc[id := a]) == RespMarket(q, acc)
  {
    if q != [] { RespMarketStable(q[1..], acc, frontier, id, a); }
  }

  lemma {:induction false} ReqReserveStable(q: seq<Request>, acc: Orders, id: int, a: Accepted)
    requires id !in acc
    requires forall i :: 0 <= i < |q| && q[i].NewReq? ==> q[i].id in acc
    ensures ReqReserve(q, acc[id := a]) == ReqReserve(q, acc)
  {
    if q != [] { ReqReserveStable(q[1..], acc, id, a); }
  }

  lemma {:induction false} NoMarketNoReserve(q: seq<Request>, acc: Orders)
    requires forall i :: 0 <= i < |q| ==> !IsMarketReq(q[i])
    ensures ReqReserve(q, acc) == 0
  {
    if q != [] { NoMarketNoReserve(q[1..], acc); }
  }

  // ---------------------------------------------------------------- zero and non-zero measures

  lemma {:induction false} AheadZero(q: seq<Request>, id: int)
    requires forall i :: 0 <= i < |q| && q[i].NewReq? ==> q[i].id != id
    ensures Ahead(q, id) == 0
  {
    if q != [] { AheadZero(q[1..], id); }
  }

  lemma {:induction false} AheadNonNegative(q: seq<Request>, id: int)
    requires forall i :: 0 <= i < |q| && q[i].NewReq? ==> q[i].order.qty > 0
    ensures Ahead(q, id) >= 0
  {
    if q != [] { AheadNonNegative(q[1..], id); }
  }

  predicate PositiveTrades(q: seq<Response>) {
    forall i :: 0 <= i < |q| && q[i].TradeResp? ==> q[i].trade.qty > 0
  }

  /** A message about an order's fills is visible in the measure. */
  lemma {:induction false} InTradesBounds(q: seq<Response>, id: int)
    requires PositiveTrades(q)
    ensures InTrades(q, id) >= 0
    ensures forall i :: 0 <= i < |q| && q[i].TradeResp? ==> InTrades(q, id) >= FilledBy(q[i].trade, id)
  {
    if q != [] {
      InTradesBounds(q[1..], id);
      forall i | 0 <= i < |q| && q[i].TradeResp?
        ensures InTrades(q, id) >= FilledBy(q[i].trade, id)
      {
        if i > 0 { assert q[i] == q[1..][i - 1]; }
      }
    }
  }

  lemma {:induction false} InTradesZero(q: seq<Response>, id: int)
    requires forall i :: 0 <= i < |q| ==> !Mentions(q[i], id)
    ensures InTrades(q, id) == 0
  {
    if q != [] { InTradesZero(q[1..], id); }
  }

  lemma {:induction false} QtyOfBounds(s: seq<Order>, id: int)
    requires PositiveQty(s)
    ensures QtyOf(s, id) >= 0
    ensures QtyOf(s, id) > 0 <==> HasId(s, id)
  {
    if s != [] {
      QtyOfBounds(s[1..], id);
      if HasId(s, id) {
        var i :| 0 <= i < |s| && s[i].id == id;
        if i > 0 { assert s[1..][i - 1].id == id; }
      }
      if HasId(s[1..], id) {
        var i :| 0 <= i < |s[1..]| && s[1..][i].id == id;
        assert s[i + 1].id == id;
      }
      if s[0].id == id { assert HasId(s, id); }
    }
  }

  lemma {:induction false} BookQtyBounds(b: Book, id: int)
    requires BookInv(b)
    ensures BookQty(b, id) >= 0
    ensures BookQty(b, id) > 0 <==> InBook(b, id)
  {
    QtyOfBounds(b.bids, id);
    QtyOfBounds(b.asks, id);
  }

  // ---------------------------------------------------------------- the trades of one match

  /** The fills of one match, split between the taker and its makers. */
  lemma {:induction false} MatchFills(ts: seq<Trade>, taker: int, id: int)
    requires forall i :: 0 <= i < |ts| ==> ts[i].takerOrder == taker
    ensures InTrades(TradeResps(ts), id) == MadeQty(ts, id) + (if id == taker then TradedQty(ts) else 0)
  {
    if ts != [] {
      assert TradeResps(ts)[1..] == TradeResps(ts[1..]);
      MatchFills(ts[1..], taker, id);
    }
  }

  /** A match of a market bid is paid from its reservation, trade by trade. */
  lemma {:induction false} MatchOfMarketBid(ts: seq<Trade>, acc: Orders)
    requires forall i :: 0 <= i < |ts| ==> BuyerOrder(ts[i]) in acc && IsMarketBid(acc[BuyerOrder(ts[i])].order)
    ensures RespMarket(TradeResps(ts), acc) == TotalNotional(ts)
  {
    if ts != [] {
      assert TradeResps(ts)[1..] == TradeResps(ts[1..]);
      MatchOfMarketBid(ts[1..], acc);
    }
  }

  /** Any other match touches no market reservation. */
  lemma {:induction false} MatchOfOther(ts: seq<Trade>, acc: Orders)
    requires forall i :: 0 <= i < |ts| ==> BuyerOrder(ts[i]) in acc && !IsMarketBid(acc[BuyerOrder(ts[i])].order)
    ensures RespMarket(TradeResps(ts), acc) == 0
  {
    if ts != [] {
      assert TradeResps(ts)[1..] == TradeResps(ts[1..]);
      MatchOfOther(ts[1..], acc);
    }
  }

  // ---------------------------------------------------------------- growing logs

  lemma FiguresAppend(w: Width, ts: seq<Trade>, t: Trade, id: int)
    ensures var f := FiguresOf(w, ts, id);
            FiguresOf(w, ts + [t], id) ==
            if t.takerOrder == id || t.makerOrder == id then NextFigures(w, f, t.price, t.qty) else f
  {
    assert (ts + [t])[..|ts + [t]| - 1] == ts;
  }

  lemma LifeAppend(sent: seq<Report>, r: Report, id: int, qty: int)
    ensures LifeOf(sent + [r], id, qty) ==
            if TellsLife(r, id) then Live(LifeOf(sent, id, qty), r, qty) else LifeOf(sent, id, qty)
  {
    assert (sent + [r])[..|sent + [r]| - 1] == sent;
  }

  /** Reports about other orders say nothing about this one. */
  lemma {:induction false} LifeUnborn(sent: seq<Report>, id: int, qty: int)
    requires forall i :: 0 <= i < |sent| ==> !TellsLife(sent[i], id)
    ensures LifeOf(sent, id, qty) == Unborn
  {
    if sent != [] { LifeUnborn(sent[..|sent| - 1], id, qty); }
  }
}
