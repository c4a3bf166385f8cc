/**
 When 32 bits are enough: exactly when an event, and a run, has the same effect with the amounts of
 the code as with exact ones.
 */
module Agreement {
  import opened Arithmetic
  import opened Common
  import opened BookSpec
  import opened BookCost
  import opened Messages
  import opened BalanceLedger
  import opened OrderManagement
  import opened AveragePrice
  import opened Pipeline
  import opened PipelineInv
  import opened PipelineSettle
  import opened PipelineMoney
  import opened PipelineRuns
  import opened PipelineTheorems
  import opened PipelineUsd

  /** The same exchange with the amounts of the code. */
  function Code(cfg: Config): Config {
    cfg.(width := Bits32)
  }

  // ---------------------------------------------------------------- what an event must fit

  /** The numerators of both new averages fit, and so does what the buyer gets back. */
  predicate TradeFits32(om: OmState, t: Trade)
    requires t.takerOrder in om.infos && t.makerOrder in om.infos
  {
    && NumeratorFits(FiguresIn(om.infos[t.takerOrder]), t.price, t.qty)
    && NumeratorFits(FiguresIn(om.infos[t.makerOrder]), t.price, t.qty)
    && Fits32(Returned(om.infos, t))
  }

  predicate ResponseFits(s: State)
    requires s.respQ != []
  {
    match s.respQ[0]
    case TradeResp(t) => t.takerOrder in s.om.infos && t.makerOrder in s.om.infos ==> TradeFits32(s.om, t)
    case CancelResp(id, _, success) =>
      success && id in s.om.infos && s.om.infos[id].side == Bid ==> Fits32(ReservedFor(s.om.infos[id]))
  }

  /** What the levels count for in 32 bits costs what a query asks for, if the exact engine can answer it. */
  predicate RequestFits(s: State)
    requires s.reqQ != []
  {
    match s.reqQ[0]
    case CostQuery(symbol, qty, side) =>
      symbol in s.books && qty > 0 && SideOf(s.books[symbol], side) != [] ==>
        QuoteFits(Bits32, SideOf(s.books[symbol], side), qty)
    case _ => true
  }

  /** Snapshots that fit their buffers show no level sum lost to 32 bits. */
  predicate SnapshotsFit(s: State) {
    (forall symbol :: symbol in s.books ==> TickerFits(symbol)) ==> SumsShow(Bits32, s)
  }

  /** What a caller can see before an event. */
  predicate StepFits(s: State, e: Event) {
    Enabled(s, e) ==>
      match e
      case Deliver => ResponseFits(s)
      case Engine => RequestFits(s)
      case Flush => SnapshotsFit(s)
      case _ => true
  }

  // ---------------------------------------------------------------- trades

  lemma FillAgreesIff(info: OrderInfo, t: Trade)
    requires info.avg * info.cum >= 0 && Notional(t) >= 0 && 0 < t.qty + info.cum <= MAX_INT
    ensures Fill(Bits32, info, t.price, t.qty) == Fill(Exact, info, t.price, t.qty) <==>
            NumeratorFits(FiguresIn(info), t.price, t.qty)
  {
    hide NextFigures;
    NextAgreesIff(FiguresIn(info), t.price, t.qty);
    NextCum(FiguresIn(info), t.price, t.qty);
  }

  lemma NextCum(f: Figures, price: int, qty: int)
    ensures NextFigures(Bits32, f, price, qty).cum == NextFigures(Exact, f, price, qty).cum
  {
  }

  predicate SoundFigures(info: OrderInfo, t: Trade) {
    info.avg * info.cum >= 0 && 0 < t.qty + info.cum <= MAX_INT
  }

  lemma FillBothAgreesIff(infos: map<int, OrderInfo>, t: Trade)
    requires t.takerOrder in infos && t.makerOrder in infos && t.takerOrder != t.makerOrder && Notional(t) >= 0
    requires SoundFigures(infos[t.takerOrder], t) && SoundFigures(infos[t.makerOrder], t)
    ensures FillBoth(Bits32, infos, t) == FillBoth(Exact, infos, t) <==>
            && NumeratorFits(FiguresIn(infos[t.takerOrder]), t.price, t.qty)
            && NumeratorFits(FiguresIn(infos[t.makerOrder]), t.price, t.qty)
  {
    FillBothEntries(Bits32, infos, t);
    FillBothEntries(Exact, infos, t);
    FillAgreesIff(infos[t.takerOrder], t);
    FillAgreesIff(infos[t.makerOrder], t);
    hide Fill, NumeratorFits, Notional, FillBoth, FiguresIn;
    var m, m' := FillBoth(Exact, infos, t), FillBoth(Bits32, infos, t);
    assert m[t.takerOrder] == Fill(Exact, infos[t.takerOrder], t.price, t.qty);
    assert m'[t.takerOrder] == Fill(Bits32, infos[t.takerOrder], t.price, t.qty);
    assert m[t.makerOrder] == Fill(Exact, infos[t.makerOrder], t.price, t.qty);
    assert m'[t.makerOrder] == Fill(Bits32, infos[t.makerOrder], t.price, t.qty);
  }

  /** With the same proceeds, two payouts are equal exactly when the improvements returned are. */
  lemma PayOutsEqualIff(l: Ledger, t: Trade, imp: int, a: int, b: int, proceeds: int)
    requires t.ticker != USD_SYMBOL && imp > 0
    ensures PayOut(l, t, imp, a, proceeds) == PayOut(l, t, imp, b, proceeds) <==> a == b
  {
    UsdAfter(l, t, imp, a, proceeds, Buyer(t));
    UsdAfter(l, t, imp, b, proceeds, Buyer(t));
    hide CreditStock, CreditImprovement, CreditSeller;
  }

  /** What the settlement of a trade relies on in every reachable state. */
  ghost predicate Sound(s: State, t: Trade) {
    && t.takerOrder in s.om.infos && t.makerOrder in s.om.infos && t.takerOrder != t.makerOrder
    && t.ticker != USD_SYMBOL && Notional(t) >= 0 && Returned(s.om.infos, t) >= 0 && Improvement(s.om.infos, t) >= 0
    && SoundFigures(s.om.infos[t.takerOrder], t) && SoundFigures(s.om.infos[t.makerOrder], t)
  }

  /** A numerator that fits leaves a notional that fits. */
  lemma NotionalFits(info: OrderInfo, t: Trade)
    requires SoundFigures(info, t) && Notional(t) >= 0 && NumeratorFits(FiguresIn(info), t.price, t.qty)
    ensures Wrap32(Notional(t)) == Notional(t)
  {
    WrapKeepsIff(Notional(t));
  }

  lemma SettleAgreesIff(om: OmState, t: Trade, s: State)
    requires s.om == om && Sound(s, t)
    ensures SettleTrade(Bits32, om, t) == SettleTrade(Exact, om, t) <==> TradeFits32(om, t)
  {
    hide FillBoth, PayOut, NumeratorFits, SoundFigures, Wrap32;
    FillBothAgreesIff(om.infos, t);
    var imp, returned := Improvement(om.infos, t), Returned(om.infos, t);
    WrapKeepsIff(returned);
    if NumeratorFits(FiguresIn(om.infos[t.takerOrder]), t.price, t.qty) {
      NotionalFits(om.infos[t.takerOrder], t);
      if imp > 0 {
        PayOutsEqualIff(om.ledger, t, imp, Wrap32(returned), returned, Notional(t));
      }
    }
  }

  lemma TradeAgreesIff(cfg: Config, s: State, t: Trade)
    requires cfg.width.Exact? && s.omUp && Sound(s, t) && TradeAsserts(cfg, s.om, t)
    ensures DeliverTrade(Code(cfg), s, t) == DeliverTrade(cfg, s, t) <==> TradeFits32(s.om, t)
  {
    SettleAgreesIff(s.om, t, s);
    if TradeFits32(s.om, t) { GuardsAgree(cfg, s.om, t, s); }
    hide FillBoth, PayOut, SettleGuards, GetAsserts, TradeFits32, Sound, FillReport;
    var u, u' := DeliverTrade(cfg, s, t), DeliverTrade(Code(cfg), s, t);
    assert u.omUp && u.om == SettleTrade(Exact, s.om, t);
    if u'.omUp { assert u'.om == SettleTrade(Bits32, s.om, t); }
  }

  lemma GuardsAgree(cfg: Config, om: OmState, t: Trade, s: State)
    requires s.om == om && Sound(s, t) && TradeFits32(om, t)
    ensures SettleGuards(Bits32, om, t) <==> SettleGuards(Exact, om, t)
  {
    hide NumeratorFits, SoundFigures, UpdateAsserts, Update, Wrap32;
    WrapKeepsIff(Returned(om.infos, t));
    NotionalFits(om.infos[t.takerOrder], t);
  }

  lemma TradeIsSound(cfg: Config, s: State, t: Trade)
    requires ConfigOk(cfg) && Inv(cfg, s) && cfg.width.Exact? && s.respQ != [] && s.respQ[0] == TradeResp(t)
    ensures Sound(s, t)
  {
    hide Inv, ConfigOk, Notional, Returned;
    TradeInPlace(cfg, s, t);
    AmountsNonNegative(cfg, s, t);
    OnlyImprovement(cfg, s.om, s.hist.accepted, t, s.hist.frontier);
    TradeIsBetweenTwo(t, s.hist.accepted, s.hist.frontier);
    FiguresAreSound(cfg, s, t, t.takerOrder);
    FiguresAreSound(cfg, s, t, t.makerOrder);
  }

  lemma FiguresAreSound(cfg: Config, s: State, t: Trade, id: int)
    requires ConfigOk(cfg) && Inv(cfg, s) && cfg.width.Exact? && s.respQ != [] && s.respQ[0] == TradeResp(t)
    requires id == t.takerOrder || id == t.makerOrder
    ensures id in s.om.infos && SoundFigures(s.om.infos[id], t)
  {
    hide Inv, ConfigOk, Running, ExecsOf, FiguresOf;
    PendingFillIsOpen(cfg, s, id);
    FillsAddUp(cfg, s, id);
    FiguresAt(cfg, s, id);
    FiguresAreRunning(Exact, s.hist.settled, id);
    var fills := ExecsOf(s.hist.settled, id);
    if fills == [] {
      NoFills(fills);
    } else {
      AverageError(fills);
      ScaleMonotone(0, Running(Exact, fills).avg, Running(Exact, fills).cum);
    }
  }

  lemma NoFills(es: seq<Exec>)
    requires es == []
    ensures Running(Exact, es) == Figures(0, 0)
  {
  }

  // ---------------------------------------------------------------- cancels, queries and snapshots

  lemma UpdatesEqualIff(l: Ledger, broker: string, ticker: string, a: int, b: int)
    ensures Update(l, broker, ticker, a) == Update(l, broker, ticker, b) <==> a == b
  {
    UpdateCells(l, broker, ticker, a);
    UpdateCells(l, broker, ticker, b);
    var x, y := Update(l, broker, ticker, a), Update(l, broker, ticker, b);
    assert Balance(x, broker, ticker) - a == Balance(y, broker, ticker) - b;
  }

  lemma CancelAgreesIff(cfg: Config, s: State, id: int, clOrdId: int, success: bool)
    requires cfg.width.Exact? && s.omUp && CancelAsserts(cfg, s.om, id, success)
    ensures DeliverCancel(Code(cfg), s, id, clOrdId, success) == DeliverCancel(cfg, s, id, clOrdId, success) <==>
            (success && s.om.infos[id].side == Bid ==> Fits32(ReservedFor(s.om.infos[id])))
  {
    hide Wrap32, ReservedFor, Update, UpdateAsserts, GetAsserts, CancelReport;
    var info := s.om.infos[id];
    WrapKeepsIff(ReservedFor(info));
    UpdatesEqualIff(s.om.ledger, info.sender, RefundTicker(info),
                    RefundAmount(Bits32, info), RefundAmount(Exact, info));
    var u, u' := DeliverCancel(cfg, s, id, clOrdId, success), DeliverCancel(Code(cfg), s, id, clOrdId, success);
    assert u.omUp && u.om == AfterRefund(Exact, s.om, id, success);
    if u'.omUp { assert u'.om == AfterRefund(Bits32, s.om, id, success); }
  }

  lemma QueryAgreesIff(cfg: Config, s: State, symbol: string, qty: Int32, side: Side)
    requires s.meUp && s.reqQ != [] && (symbol in s.books ==> BookInv(s.books[symbol]))
    ensures EngineQuery(Bits32, s, symbol, qty, side) == EngineQuery(Exact, s, symbol, qty, side) <==>
            (symbol in s.books && qty > 0 && SideOf(s.books[symbol], side) != [] ==>
               QuoteFits(Bits32, SideOf(s.books[symbol], side), qty))
  {
    hide Answer32, CostOf, BookInv, QuoteFits;
    if symbol in s.books && qty > 0 && SideOf(s.books[symbol], side) != [] {
      var q := SideOf(s.books[symbol], side);
      SideOfBook(s.books[symbol], side);
      ExactQuoteIsRight(q, side, qty);
      AnswerExactIff(Bits32, q, side, qty);
      var u, u' := EngineQuery(Exact, s, symbol, qty, side), EngineQuery(Bits32, s, symbol, qty, side);
      assert u.costQ[|s.costQ|] == Some(CostOf(q, qty));
      if u'.meUp { assert u'.costQ[|s.costQ|] == Answer32(q, qty, 0); }
    }
  }

  lemma SideOfBook(b: Book, side: Side)
    requires BookInv(b)
    ensures SideInv(SideOf(b, side), side)
  {
  }

  lemma FlushAgreesIff(s: State)
    requires s.meUp
    ensures FlushStep(Bits32, s) == FlushStep(Exact, s) <==> SnapshotsFit(s)
  {
    hide TopSumsOk, TickerFits;
  }

  // ---------------------------------------------------------------- events

  /** Taking orders, cancels and cost answers involves no amount that could be lost. */
  lemma IntakeAgrees(cfg: Config, s: State, e: Event)
    requires e.Submit? || e.Resume? || e.RequestCancel?
    ensures Next(Code(cfg), s, e) == Next(cfg, s, e)
  {
    hide SubmitStep, ResumeStep, CancelStep;
    match e
    case Submit(n) => SubmitAgrees(cfg, s, n);
    case Resume => if s.blocked.Some? && s.costQ != [] { ResumeAgrees(cfg, s); }
    case RequestCancel(c) => CancelRequestAgrees(cfg, s, c);
  }

  lemma DecideAgrees(cfg: Config, s: State, id: int, n: NewOrder, cost: Option<int>)
    ensures Decide(Code(cfg), s, id, n, cost) == Decide(cfg, s, id, n, cost)
  {
    hide Validate, ValidateAsserts;
  }

  lemma SubmitAgrees(cfg: Config, s: State, n: NewOrder)
    ensures SubmitStep(Code(cfg), s, n) == SubmitStep(cfg, s, n)
  {
    hide Decide, TransformId, RejectionReport;
    var om := Preprocess(cfg, s.om, n);
    DecideAgrees(cfg, s.(om := om), om.lastId, n, None);
  }

  lemma ResumeAgrees(cfg: Config, s: State)
    requires s.blocked.Some? && s.costQ != []
    ensures ResumeStep(Code(cfg), s) == ResumeStep(cfg, s)
  {
    hide Decide;
    var p := s.blocked.value;
    DecideAgrees(cfg, s.(blocked := None, costQ := s.costQ[1..]), p.id, p.order, s.costQ[0]);
  }

  lemma CancelRequestAgrees(cfg: Config, s: State, c: CancelRequest)
    ensures CancelStep(Code(cfg), s, c) == CancelStep(cfg, s, c)
  {
    hide TransformId, CancelRejection, PendingCancelReport;
  }

  lemma DeliverAgreesIff(cfg: Config, s: State)
    requires ConfigOk(cfg) && cfg.width.Exact? && Inv(cfg, s) && Enabled(s, Deliver)
    ensures DeliverStep(Code(cfg), s) == DeliverStep(cfg, s) <==> ResponseFits(s)
  {
    hide Inv, ConfigOk, DeliverTrade, DeliverCancel, TradeFits32, ReservedFor, TradeAsserts, CancelAsserts;
    match s.respQ[0]
    case TradeResp(t) =>
      TradeIsSound(cfg, s, t);
      TradeAt(cfg, s, t);
      TradeNeverFails(cfg, s.om, s.hist.accepted, t, s.hist.frontier);
      TradeAgreesIff(cfg, s, t);
    case CancelResp(id, clOrdId, success) =>
      CancelNeverFails(cfg, s, id, clOrdId, success);
      CancelIsKnown(cfg, s.om, id, success);
      CancelAgreesIff(cfg, s, id, clOrdId, success);
  }

  lemma CancelIsKnown(cfg: Config, om: OmState, id: int, success: bool)
    requires CancelAsserts(cfg, om, id, success)
    ensures id in om.infos
  {
  }

  lemma ServeAgreesIff(cfg: Config, s: State)
    requires ConfigOk(cfg) && cfg.width.Exact? && Inv(cfg, s) && Enabled(s, Engine)
    ensures ServeStep(Bits32, s) == ServeStep(Exact, s) <==> RequestFits(s)
  {
    hide Inv, ConfigOk, EngineNew, EngineCancel, EngineQuery, QuoteFits, BookRests;
    match s.reqQ[0]
    case CostQuery(symbol, qty, side) =>
      if symbol in s.books {
        BookInPlace(cfg, s, symbol);
        RestsInOrder(s.books[symbol], symbol, s.hist);
      }
      QueryAgreesIff(cfg, s, symbol, qty, side);
    case _ =>
  }

  lemma RestsInOrder(b: Book, symbol: string, h: History)
    requires BookRests(b, symbol, h)
    ensures BookInv(b)
  {
  }

  /** One event has the same effect with the amounts of the code exactly when what it handles fits. */
  lemma StepAgreesIff(cfg: Config, s: State, e: Event)
    requires ConfigOk(cfg) && cfg.width.Exact? && Inv(cfg, s)
    ensures Next(Code(cfg), s, e) == Next(cfg, s, e) <==> StepFits(s, e)
  {
    hide Inv, ConfigOk, SubmitStep, ResumeStep, CancelStep, DeliverStep, ServeStep, FlushStep;
    hide ResponseFits, RequestFits, SnapshotsFit;
    if Enabled(s, e) {
      match e
      case Deliver => DeliverAgreesIff(cfg, s);
      case Engine => ServeAgreesIff(cfg, s);
      case Flush => FlushAgreesIff(s);
      case _ => IntakeAgrees(cfg, s, e);
    }
  }

  // ---------------------------------------------------------------- runs

  /** Everything handled along the run, as the exact run sees it, fits. */
  ghost predicate RunFits(cfg: Config, ledger: Ledger, es: seq<Event>) {
    forall k :: 0 <= k < |es| ==> StepFits(After(cfg, ledger, es[..k]), es[k])
  }

  /** The code is in the state of the exact run after every prefix of the events. */
  ghost predicate RunsAgree(cfg: Config, ledger: Ledger, es: seq<Event>) {
    forall k :: 0 <= k <= |es| ==> After(Code(cfg), ledger, es[..k]) == After(cfg, ledger, es[..k])
  }

  lemma SameInit(cfg: Config, ledger: Ledger)
    ensures Init(Code(cfg), ledger) == Init(cfg, ledger)
  {
  }

  lemma {:induction false} FittingRunsMatch(cfg: Config, ledger: Ledger, es: seq<Event>, k: int)
    requires ConfigOk(cfg) && cfg.width.Exact? && NonNegative(ledger) && RunFits(cfg, ledger, es) && 0 <= k <= |es|
    ensures After(Code(cfg), ledger, es[..k]) == After(cfg, ledger, es[..k])
  {
    hide ConfigOk, NonNegative, Next, Init, StepFits, Inv;
    if k == 0 {
      SameInit(cfg, ledger);
    } else {
      FittingRunsMatch(cfg, ledger, es, k - 1);
      AfterNext(cfg, ledger, es, k - 1);
      AfterNext(Code(cfg), ledger, es, k - 1);
      RunKeeps(cfg, ledger, es[..k - 1]);
      StepAgreesIff(cfg, After(cfg, ledger, es[..k - 1]), es[k - 1]);
    }
  }

  /** The code does what the exact exchange does, event for event, exactly as long as everything handled fits. */
  lemma CodeIsExactIff(cfg: Config, ledger: Ledger, es: seq<Event>)
    requires ConfigOk(cfg) && cfg.width.Exact? && NonNegative(ledger)
    ensures RunsAgree(cfg, ledger, es) <==> RunFits(cfg, ledger, es)
  {
    hide ConfigOk, NonNegative, Next, Init, Run, StepFits, Inv;
    if RunFits(cfg, ledger, es) {
      forall k | 0 <= k <= |es| ensures After(Code(cfg), ledger, es[..k]) == After(cfg, ledger, es[..k]) {
        FittingRunsMatch(cfg, ledger, es, k);
      }
    }
    if RunsAgree(cfg, ledger, es) {
      forall k | 0 <= k < |es| ensures StepFits(After(cfg, ledger, es[..k]), es[k]) {
        AfterNext(cfg, ledger, es, k);
        AfterNext(Code(cfg), ledger, es, k);
        assert After(Code(cfg), ledger, es[..k]) == After(cfg, ledger, es[..k]);
        assert After(Code(cfg), ledger, es[..k + 1]) == After(cfg, ledger, es[..k + 1]);
        RunKeeps(cfg, ledger, es[..k]);
        StepAgreesIff(cfg, After(cfg, ledger, es[..k]), es[k]);
      }
    }
  }
}
