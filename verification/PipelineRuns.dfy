/** The invariant and the conserved totals over every step and every run. */
module PipelineRuns {
  import opened Common
  import opened BookSpec
  import opened BookCost
  import opened Messages
  import opened BalanceLedger
  import opened OrderManagement
  import opened Pipeline
  import opened PipelineInv
  import opened PipelineMeasures
  import opened PipelineIntake
  import opened PipelineAccept
  import opened PipelineSettle
  import opened PipelineEngine
  import opened PipelineMoney

  // ---------------------------------------------------------------- one step

  lemma NewIdIsUnaccepted(cfg: Config, s: State)
    requires Inv(cfg, s)
    ensures s.om.lastId + 1 !in s.hist.accepted
  {
    AcceptedAreKnown(cfg, s);
  }

  lemma IdsOf(cfg: Config, s: State)
    requires Inv(cfg, s)
    ensures IdsInv(cfg, s.om)
  {
  }

  lemma SubmitKeeps(cfg: Config, s: State, n: NewOrder)
    requires ConfigOk(cfg) && Inv(cfg, s) && s.omUp && s.blocked.None?
    ensures Inv(cfg, SubmitStep(cfg, s, n)) && Conserved(s, SubmitStep(cfg, s, n))
  {
    hide Inv, Preprocess, Validate, ConfigOk, Grown, PreprocessVerdict, IdsInv, ValidateAsserts;
    var s1 := s.(om := Preprocess(cfg, s.om, n));
    var v := PreprocessVerdict(cfg, s.om, n);
    IdsOf(cfg, s);
    RegisterKeepsInv(cfg, s, n);
    RegisterFacts(cfg, s.om, n);
    AcceptedAreKnown(cfg, s);
    AcceptedAreKnown(cfg, s1);
    NewIdIsUnaccepted(cfg, s);
    QuietConserves(s, s1);
    var s' := SubmitStep(cfg, s, n);
    GrownSame(s1.om.infos);
    if v.Reject? {
      ReportKeepsInv(cfg, s1, RejectionReport(n, s1.om.lastId, v.reason));
      QuietConserves(s1, s');
    } else if IsMarketBid(n) {
      BlockKeepsInv(cfg, s1, n);
      ReqReserveAppend(s1.reqQ, CostQuery(n.symbol, n.qty, Ask), s1.hist.accepted);
      QuietConserves(s1, s');
    } else {
      DecideKeeps(cfg, s1, s1.om.lastId, n, None);
      BalanceIsReadable(cfg, s1, n, None);
    }
  }

  /** With non-negative balances the contract of a balance never fails. */
  lemma BalanceIsReadable(cfg: Config, s: State, n: NewOrder, cost: Option<int>)
    requires Inv(cfg, s) && s.omUp
    ensures ValidateAsserts(cfg.symbols, s.om.ledger, n, cost)
  {
    hide IdsInv, AccInv, ReqInv, BooksInv, RespInv, CancelInv, QtyInv, MarketInv, BlockedInv, FiguresInv, LifeInv;
  }

  lemma DecideKeeps(cfg: Config, s: State, id: int, n: NewOrder, cost: Option<int>)
    requires ConfigOk(cfg) && Decidable(cfg, s, id, n, cost)
    ensures Inv(cfg, Decided(cfg, s, id, n, cost)) && Conserved(s, Decided(cfg, s, id, n, cost))
  {
    hide Inv, Validate, ConfigOk, Conserved, Grown;
    DecideKeepsInv(cfg, s, id, n, cost);
    if Validate(cfg.symbols, s.om.ledger, n, cost).verdict.Ok? {
      AcceptConserves(cfg, s, id, n, cost);
    } else {
      AcceptedAreKnown(cfg, s);
      GrownSame(s.om.infos);
      QuietConserves(s, Decided(cfg, s, id, n, cost));
    }
  }

  /** Once the answer is there, the waiting market bid can be decided on the current book. */
  lemma AnswerIsCurrent(cfg: Config, s: State)
    requires Inv(cfg, s) && s.blocked.Some? && s.costQ != []
    ensures var p := s.blocked.value;
            var s1 := s.(blocked := None, costQ := s.costQ[1..]);
            && p.id == s.om.lastId && p.id in s.om.infos && p.id !in s.hist.accepted
            && s.om.infos[p.id] == OrderInfo(p.order.sender, p.order.symbol, p.order.side, PriceOf(p.order),
                p.order.qty, 0, 0)
            && p.order.sender in cfg.users && p.id in s.om.idLeft
            && s.om.idLeft[p.id] == TransformId(p.order.clOrdId, cfg.users[p.order.sender])
            && s.reqQ == [] && p.order.symbol in s.books
            && s.costQ[0] == Quote(cfg.width, s.books[p.order.symbol], p.order.qty, Ask)
  {
  }

  lemma ResumeKeeps(cfg: Config, s: State)
    requires ConfigOk(cfg) && Inv(cfg, s) && s.omUp && s.blocked.Some? && s.costQ != []
    ensures Inv(cfg, ResumeStep(cfg, s)) && Conserved(s, ResumeStep(cfg, s))
  {
    hide Inv, ConfigOk, Grown, Decided, ValidateAsserts;
    var p := s.blocked.value;
    var s1 := s.(blocked := None, costQ := s.costQ[1..]);
    AnswerIsCurrent(cfg, s);
    UnblockKeepsInv(cfg, s);
    AcceptedAreKnown(cfg, s);
    GrownSame(s.om.infos);
    QuietConserves(s, s1);
    DecideKeeps(cfg, s1, p.id, p.order, s.costQ[0]);
    BalanceIsReadable(cfg, s1, p.order, s.costQ[0]);
  }

  lemma CancelKeeps(cfg: Config, s: State, c: CancelRequest)
    requires ConfigOk(cfg) && Inv(cfg, s) && s.blocked.None? && s.omUp
    ensures Inv(cfg, CancelStep(cfg, s, c)) && Conserved(s, CancelStep(cfg, s, c))
  {
    hide Inv, ConfigOk, Grown, ResolveCancel, CancelRejection, PendingCancelReport, Conserved;
    var target := ResolveCancel(cfg, s.om, c);
    AcceptedAreKnown(cfg, s);
    GrownSame(s.om.infos);
    if c.sender !in cfg.users || target.None? {
      if target.Some? && target.value !in s.om.infos {
        StopKeepsInv(cfg, s);
      } else {
        var reason := if c.sender !in cfg.users then "Cancel request contains unknown username"
                      else "Cancel request original client order ID not found";
        CancelRejectionStatus(s.om, c, target, reason);
        ReportKeepsInv(cfg, s, CancelRejection(s.om, c, target, reason));
      }
    } else {
      var r := CancelReq(target.value, c.clOrdId, c.symbol);
      ReqReserveAppend(s.reqQ, r, s.hist.accepted);
      ForwardCancelKeepsInv(cfg, s, target.value, c.clOrdId, c.symbol);
      if target.value in s.om.infos {
        PendingCancelStatus(s.om, c, target.value);
        ReportKeepsInv(cfg, s.(reqQ := s.reqQ + [r]), PendingCancelReport(s.om, c, target.value));
      }
    }
    QuietConserves(s, CancelStep(cfg, s, c));
  }

  lemma CancelRejectionStatus(om: OmState, c: CancelRequest, id: Option<int>, reason: string)
    ensures CancelRejection(om, c, id, reason).status == Rejected
  {
  }

  lemma PendingCancelStatus(om: OmState, c: CancelRequest, id: int)
    requires id in om.infos
    ensures PendingCancelReport(om, c, id).status == PendingCancel
  {
  }

  lemma EngineKeeps(cfg: Config, s: State)
    requires ConfigOk(cfg) && Inv(cfg, s) && s.meUp && s.reqQ != []
    ensures var s' := ServeStep(cfg.width, s);
            Inv(cfg, s') && TotalUsd(s') == TotalUsd(s) + ServeChange(s) && SharesKept(s, s')
  {
    hide Inv, ConfigOk, Grown, EngineNew, EngineCancel, TotalUsd, SharesKept, Takes, CostOf, TakerOf, Answers;
    match s.reqQ[0]
    case NewReq(id, n) =>
      EngineNewKeepsInv(cfg, s, id, n);
      EngineNewMoney(cfg, s, id, n);
    case CancelReq(id, clOrdId, symbol) =>
      EngineCancelKeepsInv(cfg, s, id, clOrdId, symbol);
      EngineCancelConserves(cfg, s, id, clOrdId, symbol);
    case CostQuery(symbol, qty, side) =>
      EngineQueryKeepsInv(cfg, s, symbol, qty, side);
      AcceptedAreKnown(cfg, s);
      GrownSame(s.om.infos);
      QuietConserves(s, ServeStep(cfg.width, s));
  }

  lemma FlushKeeps(cfg: Config, s: State)
    requires Inv(cfg, s)
    ensures var s' := FlushStep(cfg.width, s); Inv(cfg, s') && Conserved(s, s')
  {
    hide Inv, Grown, SnapshotOk;
    StopEngineKeepsInv(cfg, s);
    AcceptedAreKnown(cfg, s);
    GrownSame(s.om.infos);
    QuietConserves(s, FlushStep(cfg.width, s));
  }

  lemma DeliverKeeps(cfg: Config, s: State)
    requires ConfigOk(cfg) && Inv(cfg, s) && s.omUp && s.blocked.None? && s.respQ != []
    ensures var s' := DeliverStep(cfg, s);
            Inv(cfg, s') && TotalUsd(s') == TotalUsd(s) + DeliverChange(cfg.width, s) && SharesKept(s, s')
  {
    hide Inv, ConfigOk, TotalUsd, SharesKept, DeliverTrade, DeliverCancel, DeliverChange;
    match s.respQ[0]
    case TradeResp(t) =>
      DeliverTradeKeepsInv(cfg, s, t);
      DeliverTradeMoney(cfg, s, t);
    case CancelResp(id, clOrdId, success) =>
      DeliverCancelKeepsInv(cfg, s, id, clOrdId, success);
      DeliverCancelMoney(cfg, s, id, clOrdId, success);
  }

  /** Every event keeps the invariant and every share, and moves the USD total by exactly its change. */
  lemma StepKeeps(cfg: Config, s: State, e: Event)
    requires ConfigOk(cfg) && Inv(cfg, s)
    ensures var s' := Next(cfg, s, e);
            Inv(cfg, s') && TotalUsd(s') == TotalUsd(s) + UsdChange(cfg, s, e) && SharesKept(s, s')
  {
    hide Inv, ConfigOk, SubmitStep, ResumeStep, CancelStep, DeliverStep, ServeStep, FlushStep;
    hide DeliverChange, ServeChange, TotalUsd, TotalShares;
    if Enabled(s, e) {
      match e
      case Submit(n) => SubmitKeeps(cfg, s, n);
      case Resume => ResumeKeeps(cfg, s);
      case RequestCancel(c) => CancelKeeps(cfg, s, c);
      case Engine => EngineKeeps(cfg, s);
      case Flush => FlushKeeps(cfg, s);
      case Deliver => DeliverKeeps(cfg, s);
    }
  }

  // ---------------------------------------------------------------- runs

  /** The exchange starts with non-negative balances and everything else empty. */
  lemma InitKeeps(cfg: Config, ledger: Ledger)
    requires NonNegative(ledger)
    ensures Inv(cfg, Init(cfg, ledger))
    ensures TotalUsd(Init(cfg, ledger)) == Total(ledger, USD_SYMBOL)
    ensures forall symbol :: TotalShares(Init(cfg, ledger), symbol) == Total(ledger, symbol)
  {
    var s := Init(cfg, ledger);
    forall symbol | symbol in s.books ensures BookRests(s.books[symbol], symbol, s.hist) {}
    assert UsdOf(s) == map[];
    forall symbol ensures SharesOf(s, symbol) == map[] {}
  }

  /** The state of the exchange after a sequence of events. */
  function After(cfg: Config, ledger: Ledger, es: seq<Event>): State {
    Run(cfg, Init(cfg, ledger), es)
  }

  /** The USD that the events of a run make or lose. */
  function UsdDrift(cfg: Config, ledger: Ledger, es: seq<Event>): int {
    if es == [] then 0
    else
      var rest := es[..|es| - 1];
      UsdDrift(cfg, ledger, rest) + UsdChange(cfg, After(cfg, ledger, rest), es[|es| - 1])
  }

  /** Every run keeps the invariant and every share; the USD total moves by what its events make or lose. */
  lemma {:induction false} RunKeeps(cfg: Config, ledger: Ledger, es: seq<Event>)
    requires ConfigOk(cfg) && NonNegative(ledger)
    ensures Inv(cfg, After(cfg, ledger, es))
    ensures TotalUsd(After(cfg, ledger, es)) == Total(ledger, USD_SYMBOL) + UsdDrift(cfg, ledger, es)
    ensures forall symbol :: symbol != USD_SYMBOL ==>
              TotalShares(After(cfg, ledger, es), symbol) == Total(ledger, symbol)
  {
    hide Inv, ConfigOk, Next, TotalUsd, TotalShares, Init, UsdChange;
    if es == [] {
      InitKeeps(cfg, ledger);
    } else {
      RunKeeps(cfg, ledger, es[..|es| - 1]);
      StepKeeps(cfg, After(cfg, ledger, es[..|es| - 1]), es[|es| - 1]);
    }
  }
}
