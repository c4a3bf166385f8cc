/**
 The order manager as the object its thread works on. Each handler takes one step of the pipeline:
 if the object shows a state before the call, it shows the state after the step.
 */
module OrderManagerProcess {
  import opened Common
  import opened Messages
  import opened BalanceLedger
  import opened OrderManagement
  import opened Pipeline

  class OrderManager {
    const cfg: Config
    const checker: BalanceChecker
    var idLeft: map<int, int>
    var idRight: map<int, int>
    var infos: map<int, OrderInfo>
    var lastId: int
    /** The client id of each registered order, for the observer. */
    ghost var clients: map<int, int>
    var up: bool
    var waiting: Option<Pending>
    /** The request connection, and the reports sent to the gateways. */
    var requests: seq<Request>
    var reports: seq<Report>

    ghost function Value(): OmState
      reads this, checker
    {
      OmState(checker.balanceMap, idLeft, idRight, infos, lastId, clients)
    }

    ghost predicate Shows(s: State)
      reads this, checker
    {
      && Value() == s.om && up == s.omUp && waiting == s.blocked
      && requests == s.reqQ && reports == s.sent
    }

    constructor (cfg: Config, checker: BalanceChecker)
      ensures this.cfg == cfg && this.checker == checker
      ensures Shows(Init(cfg, checker.balanceMap))
    {
      this.cfg, this.checker := cfg, checker;
      idLeft, idRight, infos, lastId, clients := map[], map[], map[], -1, map[];
      up, waiting, requests, reports := true, None, [], [];
    }

    // -------------------------------------------------------------- requests from a gateway

    method PreprocessNew(n: NewOrder) returns (id: int, verdict: Verdict)
      modifies `idLeft, `idRight, `infos, `lastId, `clients
      ensures Value() == Preprocess(cfg, old(Value()), n) && id == lastId
      ensures verdict == PreprocessVerdict(cfg, old(Value()), n)
    {
      lastId := lastId + 1;
      id := lastId;
      if n.sender !in cfg.users {
        return id, Reject("Order request contains unknown username");
      }
      var key := TransformId(n.clOrdId, cfg.users[n.sender]);
      if key !in idRight {
        idLeft, idRight := idLeft[id := key], idRight[key := id];
      } else {
        return id, Reject("Client order id has already been used");
      }
      infos := infos[id := OrderInfo(n.sender, n.symbol, n.side, PriceOf(n), n.qty, 0, 0)];
      clients := clients[id := n.clOrdId];
      verdict := Ok;
    }

    /** Take `amount` off a balance if it is covered. */
    method Reserve(broker: string, ticker: string, amount: int, reason: string) returns (verdict: Verdict)
      requires ticker != "" && GetAsserts(checker.balanceMap, broker, ticker)
      modifies checker
      ensures Validation(verdict, checker.balanceMap) == Debit(old(checker.balanceMap), broker, ticker, amount, reason)
    {
      var sufficient := checker.HasSufficientBalance(broker, ticker, -amount);
      if !sufficient { return Reject(reason); }
      checker.UpdateBalance(broker, ticker, -amount);
      verdict := Ok;
    }

    method ValidateNew(n: NewOrder, cost: Option<int>) returns (verdict: Verdict)
      requires ValidateAsserts(cfg.symbols, checker.balanceMap, n, cost) && "" !in cfg.symbols
      modifies checker
      ensures Validation(verdict, checker.balanceMap) == Validate(cfg.symbols, old(checker.balanceMap), n, cost)
      ensures verdict.Reject? ==> checker.balanceMap == old(checker.balanceMap)
    {
      if n.symbol !in cfg.symbols { return Reject("Unrecognized symbol"); }
      if n.ordType.Limit? && n.ordType.price <= 0 { return Reject("Price is not positive"); }
      if n.qty <= 0 { return Reject("Quantity is not positive"); }
      if !checker.BrokerIdExists(n.sender) { return Reject("Balance record for not found during validation"); }
      match n.side {
        case Bid =>
          if !checker.BrokerOwnsTicker(n.sender, USD_SYMBOL) { return Reject("User has no USD balance record"); }
          match n.ordType {
            case Limit(price) =>
              verdict := Reserve(n.sender, USD_SYMBOL, price * n.qty, "User has insufficient USD balance");
            case Market =>
              if cost.None? { return Reject("User has insufficient USD balance"); }
              verdict := Reserve(n.sender, USD_SYMBOL, cost.value, "User has insufficient USD balance");
          }
        case Ask =>
          if !checker.BrokerOwnsTicker(n.sender, n.symbol) { return Reject("User has no " + n.symbol + " record"); }
          verdict := Reserve(n.sender, n.symbol, n.qty, "User has insufficient " + n.symbol + " balance");
      }
    }

    /** Validation, then forwarding with a new-order report, or a rejection report. */
    method DecideOrder(id: int, n: NewOrder, cost: Option<int>, ghost s: State)
      requires Shows(s) && "" !in cfg.symbols
      modifies `up, `requests, `reports, checker
      ensures Shows(Decide(cfg, s, id, n, cost))
    {
      hide Validate, ValidateAsserts, NewReport, RejectionReport, Reserved;
      if !ValidateAsserts(cfg.symbols, checker.balanceMap, n, cost) {
        up := false;
        return;
      }
      var verdict := ValidateNew(n, cost);
      if verdict.Ok? {
        requests := requests + [NewReq(id, n)];
        reports := reports + [NewReport(n, id)];
      } else {
        reports := reports + [RejectionReport(n, id, verdict.reason)];
      }
    }

    /** A market bid asks the engine for its cost and waits; any other order is decided at once. */
    method OnNewOrder(n: NewOrder, ghost s: State)
      requires Shows(s) && "" !in cfg.symbols
      modifies this, checker
      ensures Shows(SubmitStep(cfg, s, n))
    {
      var id, verdict := PreprocessNew(n);
      if verdict.Reject? {
        reports := reports + [RejectionReport(n, id, verdict.reason)];
      } else if IsMarketBid(n) {
        waiting := Some(Pending(id, n));
        requests := requests + [CostQuery(n.symbol, n.qty, Ask)];
      } else {
        DecideOrder(id, n, None, s.(om := Value()));
      }
    }

    method OnCostResponse(cost: Option<int>, ghost s: State)
      requires Shows(s) && waiting.Some? && s.costQ != [] && cost == s.costQ[0]
      requires "" !in cfg.symbols
      modifies this, checker
      ensures Shows(ResumeStep(cfg, s))
    {
      var p := waiting.value;
      waiting := None;
      DecideOrder(p.id, p.order, cost, s.(blocked := None, costQ := s.costQ[1..]));
    }

    /** The order a cancel refers to is looked up; an id without an order brings the process down. */
    method OnCancelRequest(c: CancelRequest, ghost s: State)
      requires Shows(s)
      modifies `up, `requests, `reports
      ensures Shows(CancelStep(cfg, s, c))
    {
      var target := c.suppliedId;
      var reason: Option<string> := None;
      if c.sender !in cfg.users {
        reason := Some("Cancel request contains unknown username");
      } else {
        var key := TransformId(c.origClOrdId, cfg.users[c.sender]);
        if key in idRight { target := Some(idRight[key]); }
        if target.None? { reason := Some("Cancel request original client order ID not found"); }
      }
      if reason.None? {
        requests := requests + [CancelReq(target.value, c.clOrdId, c.symbol)];
      }
      if target.Some? && target.value !in infos {
        up := false;
        return;
      }
      if reason.None? {
        var info := infos[target.value];
        reports := reports + [Report(c.sender, target.value, c.clOrdId, Some(c.origClOrdId), PendingCancel, None,
                                     info.symbol, info.side, info.price, info.leaves, info.cum, info.avg)];
      } else {
        var info := if target.Some? then infos[target.value] else OrderInfo("", "", Bid, None, 0, 0, 0);
        reports := reports + [Report(c.sender, if target.Some? then target.value else -1, c.clOrdId,
                                     Some(c.origClOrdId), Rejected, reason, info.symbol, info.side, info.price,
                                     0, info.cum, info.avg)];
      }
    }

    // -------------------------------------------------------------- responses of the engine

    /** One order's figures after a fill, the numerator of its average in 32 bits. */
    method BookFill(id: int, price: int, qty: int)
      requires id in infos && qty + infos[id].cum > 0
      modifies `infos
      ensures infos == old(infos)[id := Fill(Bits32, old(infos)[id], price, qty)]
    {
      hide Wrap32, TruncDiv;
      var info := infos[id];
      var value := Wrap32(Wrap32(info.avg * info.cum) + Wrap32(price * qty));
      info := info.(avg := TruncDiv(value, qty + info.cum));
      info := info.(leaves := info.leaves - qty);
      info := info.(cum := info.cum + qty);
      infos := infos[id := info];
    }

    /** The precondition is every lookup and assertion that guards the code. */
    method SettleTradeInPlace(t: Trade)
      requires t.qty > 0 && SettleGuards(Bits32, Value(), t)
      modifies `infos, checker
      ensures Value() == SettleTrade(Bits32, old(Value()), t)
    {
      hide Update, Fill, Wrap32;
      ghost var before := infos;
      BookFill(t.takerOrder, t.price, t.qty);
      CumGrows(before[t.takerOrder], t.price, t.qty);
      BookFill(t.makerOrder, t.price, t.qty);
      assert infos == FillBoth(Bits32, before, t);
      FillKeepsPrice(before, t);
      checker.UpdateBalance(Buyer(t), t.ticker, t.qty);
      var price := infos[BuyerOrder(t)].price;
      if price.Some? {
        var improvement := price.value - t.price;
        assert improvement == Improvement(before, t) >= 0;
        if improvement > 0 {
          checker.UpdateBalance(Buyer(t), USD_SYMBOL, Wrap32(improvement * t.qty));
        }
      }
      checker.UpdateBalance(Seller(t), USD_SYMBOL, Wrap32(t.price * t.qty));
    }

    /** The state without the observer's record, which no guard and no report reads. */
    function Visible(): OmState
      reads this, checker
    {
      OmState(checker.balanceMap, idLeft, idRight, infos, lastId, map[])
    }

    /** Both sides of a trade are told, from the figures after it. */
    method ReportFills(t: Trade)
      requires t.takerOrder in infos && t.takerOrder in idLeft && t.makerOrder in infos && t.makerOrder in idLeft
      modifies `reports
      ensures reports == old(reports) + [FillReport(Value(), t, true), FillReport(Value(), t, false)]
    {
      hide TruncDiv;
      reports := reports + [FillReport(Visible(), t, true), FillReport(Visible(), t, false)];
    }

    /** Settle, report to both sides, then persist; a guard that fails on the way stops the process there. */
    method OnTrade(t: Trade, ghost s: State)
      requires Shows(s) && cfg.width.Bits32? && t.qty > 0
      modifies `up, `infos, `reports, checker
      ensures Shows(DeliverTrade(cfg, s, t))
    {
      hide PersistGuards, SettleTrade, SettleGuards, FillReport;
      var passes := SettleGuards(Bits32, Visible(), t);
      GuardsReadNoClients(s.om, map[], t);
      if !passes {
        up := false;
        return;
      }
      SettledIsKnown(s.om, t);
      SettleTradeInPlace(t);
      ReportFills(t);
      if !PersistGuards(cfg, checker.balanceMap, t) {
        up := false;
      }
    }

    method RefundInPlace(id: int)
      requires CancelGuards(Bits32, Value(), id, true)
      modifies checker
      ensures Value() == SettleCancel(Bits32, old(Value()), id)
    {
      hide Wrap32, Update, UpdateAsserts;
      var info := infos[id];
      if info.side == Bid {
        checker.UpdateBalance(info.sender, USD_SYMBOL, Wrap32(info.price.value * info.leaves));
      } else {
        checker.UpdateBalance(info.sender, info.symbol, info.leaves);
      }
    }

    method OnCancelResponse(id: int, clOrdId: int, success: bool, ghost s: State)
      requires Shows(s) && cfg.width.Bits32?
      modifies `up, `reports, checker
      ensures Shows(DeliverCancel(cfg, s, id, clOrdId, success))
    {
      hide RefundAmount, RefundTicker, Update, UpdateAsserts, GetAsserts, TruncDiv;
      var passes := CancelGuards(Bits32, Visible(), id, success);
      assert passes <==> CancelGuards(Bits32, s.om, id, success);
      if !passes {
        up := false;
        return;
      }
      if success { RefundInPlace(id); }
      var info := infos[id];
      reports := reports + [Report(info.sender, id, clOrdId, Some(TruncDiv(idLeft[id], MAX_USER_COUNT)),
                                   if success then Canceled else Rejected,
                                   Some(if success then "" else "Order had already been matched"),
                                   info.symbol, info.side, info.price, 0, info.cum, info.avg)];
      if !CancelPersists(cfg, Visible(), id, success) {
        up := false;
      }
    }

    /** The engine receives the oldest request. */
    method TakeRequest(ghost s: State) returns (request: Request)
      requires Shows(s) && s.reqQ != []
      modifies `requests
      ensures Shows(s.(reqQ := s.reqQ[1..])) && request == s.reqQ[0]
    {
      request, requests := requests[0], requests[1..];
    }
  }

  lemma GuardsReadNoClients(om: OmState, clients: map<int, int>, t: Trade)
    ensures SettleGuards(Bits32, om.(clients := clients), t) <==> SettleGuards(Bits32, om, t)
  {
    hide UpdateAsserts, CreditStock, CreditImprovement, Keep, Improvement, Returned;
  }

  lemma SettledIsKnown(om: OmState, t: Trade)
    requires SettleGuards(Bits32, om, t)
    ensures var om' := SettleTrade(Bits32, om, t);
            && t.takerOrder in om'.infos && t.makerOrder in om'.infos
            && om'.idLeft == om.idLeft && t.takerOrder in om.idLeft && t.makerOrder in om.idLeft
  {
    hide UpdateAsserts, CreditStock, CreditImprovement, Keep, Improvement, Returned, PayOut;
    FillBothKeys(om.infos, t);
  }

  lemma CumGrows(info: OrderInfo, price: int, qty: int)
    ensures Fill(Bits32, info, price, qty).cum == info.cum + qty && Fill(Bits32, info, price, qty).price == info.price
  {
  }

  lemma FillKeepsPrice(infos: map<int, OrderInfo>, t: Trade)
    requires t.takerOrder in infos && t.makerOrder in infos
    ensures Improvement(FillBoth(Bits32, infos, t), t) == Improvement(infos, t)
    ensures FillBoth(Bits32, infos, t).Keys == infos.Keys
    ensures FillBoth(Bits32, infos, t)[BuyerOrder(t)].price == infos[BuyerOrder(t)].price
  {
  }

  lemma FillBothKeys(infos: map<int, OrderInfo>, t: Trade)
    requires t.takerOrder in infos && t.makerOrder in infos
    ensures t.takerOrder in FillBoth(Bits32, infos, t) && t.makerOrder in FillBoth(Bits32, infos, t)
  {
  }
}
