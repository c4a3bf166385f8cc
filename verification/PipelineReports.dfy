/** Every execution report of every run: whom it is addressed to, which order it names, and what it says. */
module PipelineReports {
  import opened Common
  import opened BookSpec
  import opened BookCost
  import opened Messages
  import opened BalanceLedger
  import opened OrderManagement
  import opened ClientIds
  import opened Validation
  import opened Pipeline
  import opened PipelineInv
  import opened PipelineMeasures
  import opened PipelineAccept
  import opened PipelineSettle
  import opened PipelineRuns
  import opened PipelineReplies

  /** The client id that dividing the 32-bit key gives back. */
  function Recovered(clOrdId: int, userId: int): int {
    TruncDiv(Wrap32(clOrdId * 1000 + userId), 1000)
  }

  // ---------------------------------------------------------------- fills

  /** A report on the last of the trades to the sender of one of its orders, with the figures after it. */
  ghost predicate TellsFill(cfg: Config, acc: Orders, ts: seq<Trade>, id: int, r: Report) {
    && ts != [] && id in acc && acc[id].order.sender in cfg.users
    && var n, f := acc[id].order, FiguresOf(cfg.width, ts, id);
    && r.target == n.sender && r.orderId == id && r.symbol == n.symbol && r.side == n.side
    && r.clOrdId == Recovered(n.clOrdId, cfg.users[n.sender]) && r.origClOrdId == None && r.text == None
    && r.price == Some(ts[|ts| - 1].price) && r.cum == f.cum && r.avg == f.avg && r.leaves == n.qty - f.cum
    && r.status == if f.cum == n.qty then Filled else PartiallyFilled
  }

  predicate IsFill(r: Report) {
    r.status in {PartiallyFilled, Filled}
  }

  function Fills(sent: seq<Report>): seq<Report> {
    if sent == [] then []
    else Fills(sent[..|sent| - 1]) + (if IsFill(sent[|sent| - 1]) then [sent[|sent| - 1]] else [])
  }

  /** The fill reports are those of the settled trades, in their order, taker before maker, and no others. */
  ghost predicate FillsTell(cfg: Config, acc: Orders, ts: seq<Trade>, fills: seq<Report>) {
    && |fills| == 2 * |ts|
    && forall k :: 0 <= k < |ts| ==>
         && TellsFill(cfg, acc, ts[..k + 1], ts[k].takerOrder, fills[2 * k])
         && TellsFill(cfg, acc, ts[..k + 1], ts[k].makerOrder, fills[2 * k + 1])
  }

  lemma FillsAppend(sent: seq<Report>, r: Report)
    ensures Fills(sent + [r]) == Fills(sent) + (if IsFill(r) then [r] else [])
  {
    assert (sent + [r])[..|sent + [r]| - 1] == sent;
  }

  lemma FillsTellMore(cfg: Config, acc: Orders, ts: seq<Trade>, t: Trade, fills: seq<Report>, r1: Report, r2: Report)
    requires FillsTell(cfg, acc, ts, fills)
    requires TellsFill(cfg, acc, ts + [t], t.takerOrder, r1) && TellsFill(cfg, acc, ts + [t], t.makerOrder, r2)
    ensures FillsTell(cfg, acc, ts + [t], fills + [r1] + [r2])
  {
    hide TellsFill;
    var us := ts + [t];
    forall k | 0 <= k < |us|
      ensures TellsFill(cfg, acc, us[..k + 1], us[k].takerOrder, (fills + [r1] + [r2])[2 * k])
      ensures TellsFill(cfg, acc, us[..k + 1], us[k].makerOrder, (fills + [r1] + [r2])[2 * k + 1])
    {
      if k < |ts| {
        assert us[..k + 1] == ts[..k + 1];
      } else {
        assert us[..k + 1] == us;
      }
    }
  }

  lemma FillsTellOn(cfg: Config, acc: Orders, acc': Orders, ts: seq<Trade>, fills: seq<Report>)
    requires FillsTell(cfg, acc, ts, fills) && Extends(acc, acc')
    ensures FillsTell(cfg, acc', ts, fills)
  {
    forall k | 0 <= k < |ts|
      ensures TellsFill(cfg, acc', ts[..k + 1], ts[k].takerOrder, fills[2 * k])
      ensures TellsFill(cfg, acc', ts[..k + 1], ts[k].makerOrder, fills[2 * k + 1])
    {
      assert TellsFill(cfg, acc, ts[..k + 1], ts[k].takerOrder, fills[2 * k]);
      assert TellsFill(cfg, acc, ts[..k + 1], ts[k].makerOrder, fills[2 * k + 1]);
    }
  }

  /** The two reports of a trade that settles. */
  lemma FillOf(cfg: Config, s: State, t: Trade, isTaker: bool)
    requires ConfigOk(cfg) && Inv(cfg, s) && s.omUp && s.respQ != [] && s.respQ[0] == TradeResp(t)
    requires SettleGuards(cfg.width, s.om, t)
    ensures var om' := SettleTrade(cfg.width, s.om, t);
            var id := if isTaker then t.takerOrder else t.makerOrder;
            && id in om'.infos && id in om'.idLeft
            && TellsFill(cfg, s.hist.accepted, s.hist.settled + [t], id, FillReport(om', t, isTaker))
  {
    hide Inv, ConfigOk, FillReport, TellsFill, SettleGuards, TradeFits, FillBoth;
    var id := if isTaker then t.takerOrder else t.makerOrder;
    TradeAt(cfg, s, t);
    FilledFigures(cfg, s, t, id);
    FillSays(cfg, SettleTrade(cfg.width, s.om, t), s.hist.accepted, s.hist.settled + [t], t, isTaker, s.hist.frontier);
  }

  /** What the order manager keeps about an order after a fill is what its settled trades give. */
  ghost predicate UpToDate(cfg: Config, om: OmState, acc: Orders, ts: seq<Trade>, id: int) {
    && id in acc && id in om.infos && id in om.idLeft && acc[id].order.sender in cfg.users
    && var n, f := acc[id].order, FiguresOf(cfg.width, ts, id);
    && om.idLeft[id] == TransformId(n.clOrdId, cfg.users[n.sender])
    && FiguresIn(om.infos[id]) == f && om.infos[id].leaves == n.qty - f.cum
  }

  lemma FilledFigures(cfg: Config, s: State, t: Trade, id: int)
    requires Inv(cfg, s) && SettleGuards(cfg.width, s.om, t) && (id == t.takerOrder || id == t.makerOrder)
    requires TradeFits(t, s.hist.accepted, s.hist.frontier) && AccInv(cfg, s.om, s.hist.accepted)
    ensures UpToDate(cfg, SettleTrade(cfg.width, s.om, t), s.hist.accepted, s.hist.settled + [t], id)
  {
    hide Inv, TransformId, UpdateAsserts, CreditStock, CreditImprovement, PayOut, Keep, Average;
    FiguresKnown(cfg, s, id);
    assert AccOk(cfg, s.om, id, s.hist.accepted[id]);
    FillBothEntries(cfg.width, s.om.infos, t);
    FiguresAppend(cfg.width, s.hist.settled, t, id);
  }

  lemma FillSays(cfg: Config, om: OmState, acc: Orders, ts: seq<Trade>, t: Trade, isTaker: bool, frontier: int)
    requires TradeFits(t, acc, frontier) && ts != [] && ts[|ts| - 1] == t
    requires UpToDate(cfg, om, acc, ts, if isTaker then t.takerOrder else t.makerOrder)
    ensures TellsFill(cfg, acc, ts, if isTaker then t.takerOrder else t.makerOrder, FillReport(om, t, isTaker))
  {
    hide FiguresOf, Wrap32, TruncDiv;
  }

  lemma FiguresKnown(cfg: Config, s: State, id: int)
    requires Inv(cfg, s)
    ensures id in s.hist.accepted ==>
              id in s.om.infos && FiguresIn(s.om.infos[id]) == FiguresOf(cfg.width, s.hist.settled, id)
  {
    hide IdsInv, LedgerInv, AccInv, ReqInv, BooksInv, RespInv, CancelInv, QtyInv, MarketInv, BlockedInv, LifeInv;
  }

  // ---------------------------------------------------------------- cancel responses

  /**
   A report on a cancel response to the sender of the order, which need not be the sender of the
   cancel: the cancel's client id, the order's own, and the order as the order manager knows it.
   */
  ghost predicate TellsCancel(cfg: Config, om: OmState, id: int, clOrdId: int, success: bool, r: Report) {
    && id in om.infos && id in om.clients && om.infos[id].sender in cfg.users
    && r.target == om.infos[id].sender && r.orderId == id && r.clOrdId == clOrdId
    && r.origClOrdId == Some(Recovered(om.clients[id], cfg.users[om.infos[id].sender]))
    && r.status == (if success then Canceled else Rejected)
    && r.text == Some(if success then "" else "Order had already been matched")
    && ShowsOrder(r, om.infos[id]) && r.leaves == 0
  }

  /** Over every run a cancel response is told so, unless it stops the order manager first. */
  lemma CancelIsTold(cfg: Config, ledger: Ledger, es: seq<Event>)
    requires ConfigOk(cfg) && NonNegative(ledger)
    requires var s := After(cfg, ledger, es); Enabled(s, Deliver) && s.respQ[0].CancelResp?
    ensures var s := After(cfg, ledger, es);
            var s', c := Next(cfg, s, Deliver), s.respQ[0];
            if s'.sent == s.sent then !s'.omUp
            else
              && |s'.sent| > 0 && Replies(s, s', s'.sent[|s'.sent| - 1])
              && TellsCancel(cfg, s.om, c.id, c.clOrdId, c.success, s'.sent[|s'.sent| - 1])
  {
    hide Inv, ConfigOk, NonNegative, Run, Init, DeliverCancel, TellsCancel;
    RunKeeps(cfg, ledger, es);
    ToldOf(cfg, After(cfg, ledger, es));
  }

  lemma ToldOf(cfg: Config, s: State)
    requires Inv(cfg, s) && s.omUp && s.respQ != [] && s.respQ[0].CancelResp?
    ensures var c := s.respQ[0];
            var s' := DeliverCancel(cfg, s, c.id, c.clOrdId, c.success);
            if s'.sent == s.sent then !s'.omUp && s'.hist == s.hist && s'.om == s.om
            else
              && |s'.sent| > 0 && Replies(s, s', s'.sent[|s'.sent| - 1]) && s'.om == s.om.(ledger := s'.om.ledger)
              && TellsCancel(cfg, s.om, c.id, c.clOrdId, c.success, s'.sent[|s'.sent| - 1])
              && s'.hist == s.hist.(refunded := s'.hist.refunded)
  {
    hide Inv, IdsInv, CancelPersists, TellsCancel, CancelReport, UpdateAsserts, RefundTicker, RefundAmount, Update;
    var c := s.respQ[0];
    IdsOf(cfg, s);
    if CancelGuards(cfg.width, s.om, c.id, c.success) {
      var om' := AfterRefund(cfg.width, s.om, c.id, c.success);
      CancelSays(cfg, s.om, om', c.id, c.clOrdId, c.success);
      assert DeliverCancel(cfg, s, c.id, c.clOrdId, c.success).sent ==
             s.sent + [CancelReport(om', c.id, c.clOrdId, c.success)];
    }
  }

  lemma CancelSays(cfg: Config, om: OmState, om': OmState, id: int, clOrdId: int, success: bool)
    requires IdsInv(cfg, om) && id in om.infos && id in om.idLeft && om' == om.(ledger := om'.ledger)
    ensures TellsCancel(cfg, om, id, clOrdId, success, CancelReport(om', id, clOrdId, success))
  {
    hide TruncDiv, Wrap32;
    assert OwnerOk(cfg, om, id);
  }

  // ---------------------------------------------------------------- reports that tell an order's life

  /** The report is addressed to the order's sender, shows its symbol and side, and names it. */
  ghost predicate NamesOrder(cfg: Config, acc: Orders, r: Report) {
    && r.orderId in acc && acc[r.orderId].order.sender in cfg.users
    && var n := acc[r.orderId].order;
    && r.target == n.sender && r.symbol == n.symbol && r.side == n.side
    && match r.status
       case StatusNew => r.clOrdId == n.clOrdId && r.origClOrdId == None && r.text == None && r.price == PriceOf(n)
       case Canceled =>
         && r.origClOrdId == Some(Recovered(n.clOrdId, cfg.users[n.sender])) && r.text == Some("")
         && r.price == PriceOf(n)
       case _ =>
         r.clOrdId == Recovered(n.clOrdId, cfg.users[n.sender]) && r.origClOrdId == None && r.text == None
  }

  ghost predicate AllNamed(cfg: Config, acc: Orders, sent: seq<Report>) {
    forall i :: 0 <= i < |sent| && TellsLife(sent[i], sent[i].orderId) ==> NamesOrder(cfg, acc, sent[i])
  }

  lemma NamedMore(cfg: Config, acc: Orders, acc': Orders, sent: seq<Report>, r: Report)
    requires AllNamed(cfg, acc, sent) && Extends(acc, acc')
    requires TellsLife(r, r.orderId) ==> NamesOrder(cfg, acc', r)
    ensures AllNamed(cfg, acc', sent) && AllNamed(cfg, acc', sent + [r])
  {
    hide TellsLife;
    forall i | 0 <= i < |sent + [r]| && TellsLife((sent + [r])[i], (sent + [r])[i].orderId)
      ensures NamesOrder(cfg, acc', (sent + [r])[i])
    {
      if i < |sent| { assert NamesOrder(cfg, acc, sent[i]); }
    }
    forall i | 0 <= i < |sent| && TellsLife(sent[i], sent[i].orderId) ensures NamesOrder(cfg, acc', sent[i]) {
      assert NamesOrder(cfg, acc, sent[i]);
    }
  }

  // ---------------------------------------------------------------- cancels and their answers

  /** A pending cancel of this order with this client id has been reported. */
  ghost predicate Asked(sent: seq<Report>, id: int, clOrdId: int) {
    exists j :: 0 <= j < |sent| && IsPending(sent[j], id, clOrdId)
  }

  predicate IsPending(r: Report, id: int, clOrdId: int) {
    r.status == PendingCancel && r.orderId == id && r.clOrdId == clOrdId
  }

  /** The report tells the outcome of a cancel that was forwarded. */
  predicate TellsOutcome(r: Report) {
    || r.status == Canceled
    || (r.status == Rejected && r.origClOrdId.Some? && r.text == Some("Order had already been matched"))
  }

  ghost predicate OutcomesAsked(sent: seq<Report>) {
    forall i :: 0 <= i < |sent| && TellsOutcome(sent[i]) ==> Asked(sent[..i], sent[i].orderId, sent[i].clOrdId)
  }

  ghost predicate QueuesAsked(s: State) {
    && (forall i :: 0 <= i < |s.reqQ| && s.reqQ[i].CancelReq? ==> Asked(s.sent, s.reqQ[i].id, s.reqQ[i].clOrdId))
    && (forall i :: 0 <= i < |s.respQ| && s.respQ[i].CancelResp? ==> Asked(s.sent, s.respQ[i].id, s.respQ[i].clOrdId))
  }

  lemma AskedOn(sent: seq<Report>, r: Report, id: int, clOrdId: int)
    ensures Asked(sent, id, clOrdId) ==> Asked(sent + [r], id, clOrdId)
    ensures IsPending(r, id, clOrdId) ==> Asked(sent + [r], id, clOrdId)
  {
    if Asked(sent, id, clOrdId) {
      var j :| 0 <= j < |sent| && IsPending(sent[j], id, clOrdId);
      assert (sent + [r])[j] == sent[j];
    }
    assert (sent + [r])[|sent|] == r;
  }

  lemma OutcomesMore(sent: seq<Report>, r: Report)
    requires OutcomesAsked(sent) && (TellsOutcome(r) ==> Asked(sent, r.orderId, r.clOrdId))
    ensures OutcomesAsked(sent + [r])
  {
    hide Asked, TellsOutcome;
    forall i | 0 <= i < |sent + [r]| && TellsOutcome((sent + [r])[i])
      ensures Asked((sent + [r])[..i], (sent + [r])[i].orderId, (sent + [r])[i].clOrdId)
    {
      assert (sent + [r])[..i] == sent[..i];
      assert sent[..|sent|] == sent;
    }
  }

  /** One more report, and queues that only lose messages or gain a cancel that was asked for. */
  lemma QueuesOn(s: State, s': State, r: Report)
    requires QueuesAsked(s) && s'.sent == s.sent + [r]
    requires forall i :: 0 <= i < |s'.reqQ| && s'.reqQ[i].CancelReq? ==>
               s'.reqQ[i] in s.reqQ || IsPending(r, s'.reqQ[i].id, s'.reqQ[i].clOrdId)
    requires forall i :: 0 <= i < |s'.respQ| && s'.respQ[i].CancelResp? ==> s'.respQ[i] in s.respQ
    ensures QueuesAsked(s')
  {
    hide Asked;
    forall i | 0 <= i < |s'.reqQ| && s'.reqQ[i].CancelReq?
      ensures Asked(s'.sent, s'.reqQ[i].id, s'.reqQ[i].clOrdId)
    {
      AskedOn(s.sent, r, s'.reqQ[i].id, s'.reqQ[i].clOrdId);
    }
    forall i | 0 <= i < |s'.respQ| && s'.respQ[i].CancelResp?
      ensures Asked(s'.sent, s'.respQ[i].id, s'.respQ[i].clOrdId)
    {
      AskedOn(s.sent, r, s'.respQ[i].id, s'.respQ[i].clOrdId);
    }
  }

  // ---------------------------------------------------------------- steps

  ghost predicate ReportInv(cfg: Config, s: State) {
    && FillsTell(cfg, s.hist.accepted, s.hist.settled, Fills(s.sent))
    && AllNamed(cfg, s.hist.accepted, s.sent)
    && OutcomesAsked(s.sent) && (s.omUp ==> QueuesAsked(s))
  }

  /** A step that sends one report, which is not of a fill. */
  lemma OneMore(cfg: Config, s: State, s': State, r: Report)
    requires ReportInv(cfg, s) && s.omUp && s'.sent == s.sent + [r] && Extends(s.hist.accepted, s'.hist.accepted)
    requires s'.hist.settled == s.hist.settled && !IsFill(r)
    requires TellsLife(r, r.orderId) ==> NamesOrder(cfg, s'.hist.accepted, r)
    requires TellsOutcome(r) ==> Asked(s.sent, r.orderId, r.clOrdId)
    requires forall i :: 0 <= i < |s'.reqQ| && s'.reqQ[i].CancelReq? ==>
               s'.reqQ[i] in s.reqQ || IsPending(r, s'.reqQ[i].id, s'.reqQ[i].clOrdId)
    requires forall i :: 0 <= i < |s'.respQ| && s'.respQ[i].CancelResp? ==> s'.respQ[i] in s.respQ
    ensures ReportInv(cfg, s')
  {
    hide FillsTell, AllNamed, OutcomesAsked, QueuesAsked, NamesOrder, TellsOutcome, Asked, TellsLife;
    FillsAppend(s.sent, r);
    assert Fills(s'.sent) == Fills(s.sent);
    FillsTellOn(cfg, s.hist.accepted, s'.hist.accepted, s.hist.settled, Fills(s.sent));
    NamedMore(cfg, s.hist.accepted, s'.hist.accepted, s.sent, r);
    OutcomesMore(s.sent, r);
    QueuesOn(s, s', r);
  }

  /** A step that sends no report. */
  lemma NoneMore(cfg: Config, s: State, s': State)
    requires ReportInv(cfg, s) && s'.sent == s.sent
    requires s'.hist.accepted == s.hist.accepted && s'.hist.settled == s.hist.settled
    requires s'.omUp ==>
               && s.omUp
               && (forall i :: 0 <= i < |s'.reqQ| && s'.reqQ[i].CancelReq? ==> s'.reqQ[i] in s.reqQ)
               && (forall i :: 0 <= i < |s'.respQ| && s'.respQ[i].CancelResp? ==>
                     s'.respQ[i] in s.respQ || Asked(s.sent, s'.respQ[i].id, s'.respQ[i].clOrdId))
    ensures ReportInv(cfg, s')
  {
    hide FillsTell, AllNamed, OutcomesAsked, Asked;
  }

  lemma DecisionReports(cfg: Config, s: State, s': State, id: int, n: NewOrder, cost: Option<int>)
    requires ReportInv(cfg, s) && s.omUp && DecidedBy(cfg, s, s', id, n, cost)
    requires id !in s.hist.accepted && n.sender in cfg.users
    requires s'.respQ == s.respQ && s'.hist == s.hist.(accepted := s'.hist.accepted)
    ensures ReportInv(cfg, s')
  {
    hide ReportInv, Checks, FirstFailure, Charges, Wrap32, Needs;
    var r := s'.sent[|s'.sent| - 1];
    OneMore(cfg, s, s', r);
  }

  lemma SubmitReports(cfg: Config, s: State, n: NewOrder)
    requires ConfigOk(cfg) && Inv(cfg, s) && ReportInv(cfg, s) && s.omUp && s.blocked.None?
    ensures ReportInv(cfg, SubmitStep(cfg, s, n))
  {
    hide Inv, ConfigOk, ReportInv, SubmitStep, DecidedBy, FirstFailure;
    SubmitOf(cfg, s, n);
    NewIdIsUnaccepted(cfg, s);
    var s', checks := SubmitStep(cfg, s, n), IntakeChecks(cfg, s.om, n);
    AllPassIff(checks);
    if FirstFailure(checks).Reject? {
      OneMore(cfg, s, s', s'.sent[|s'.sent| - 1]);
    } else {
      assert checks[0].passes;
      if n.ordType.Market? && n.side == Bid {
        NoneMore(cfg, s, s');
      } else {
        DecisionReports(cfg, s, s', s.om.lastId + 1, n, None);
      }
    }
  }

  lemma ResumeReports(cfg: Config, s: State)
    requires ConfigOk(cfg) && Inv(cfg, s) && ReportInv(cfg, s) && s.omUp && s.blocked.Some? && s.costQ != []
    ensures ReportInv(cfg, ResumeStep(cfg, s))
  {
    hide ReportInv, ResumeStep, DecidedBy;
    hide IdsInv, LedgerInv, AccInv, ReqInv, BooksInv, RespInv, CancelInv, QtyInv, MarketInv, FiguresInv, LifeInv;
    ResumeOf(cfg, s);
    var p := s.blocked.value;
    DecisionReports(cfg, s, ResumeStep(cfg, s), p.id, p.order, s.costQ[0]);
  }

  lemma CancelReports(cfg: Config, s: State, c: CancelRequest)
    requires ReportInv(cfg, s) && s.omUp
    ensures ReportInv(cfg, CancelStep(cfg, s, c))
  {
    hide ReportInv, CancelStep, ResolveCancel;
    CancelOf(cfg, s, c);
    var s', target := CancelStep(cfg, s, c), ResolveCancel(cfg, s.om, c);
    if s'.omUp {
      var r := s'.sent[|s'.sent| - 1];
      RefusalsDiffer(cfg, c, target);
      OneMore(cfg, s, s', r);
    } else {
      NoneMore(cfg, s, s');
    }
  }

  /** A refusal at the door cannot be taken for an outcome. */
  lemma RefusalsDiffer(cfg: Config, c: CancelRequest, target: Option<int>)
    ensures CancelVerdict(cfg, c, target).Ok? ==> target.Some?
    ensures CancelVerdict(cfg, c, target).Reject? ==>
              CancelVerdict(cfg, c, target).reason != "Order had already been matched"
  {
    var known := Check(c.sender in cfg.users, "Cancel request contains unknown username");
    var found := Check(target.Some?, "Cancel request original client order ID not found");
    var checks := [known, found];
    assert known.reason[0] == 'C' && found.reason[0] == 'C' && "Order had already been matched"[0] == 'O';
    AllPassIff(checks);
    hide FirstFailure;
    assert checks[0] == known && checks[1] == found;
    if !known.passes { FailsAt(checks, 0); } else if !found.passes { FailsAt(checks, 1); }
  }

  lemma DeliverReports(cfg: Config, s: State)
    requires ConfigOk(cfg) && Inv(cfg, s) && ReportInv(cfg, s) && s.omUp && s.respQ != []
    ensures ReportInv(cfg, DeliverStep(cfg, s))
  {
    hide Inv, ConfigOk, ReportInv, DeliverTrade, DeliverCancel;
    match s.respQ[0]
    case TradeResp(t) => TradeReports(cfg, s, t);
    case CancelResp(_, _, _) => OutcomeReports(cfg, s);
  }

  lemma OutcomeReports(cfg: Config, s: State)
    requires ConfigOk(cfg) && Inv(cfg, s) && ReportInv(cfg, s) && s.omUp && s.respQ != [] && s.respQ[0].CancelResp?
    ensures ReportInv(cfg, DeliverCancel(cfg, s, s.respQ[0].id, s.respQ[0].clOrdId, s.respQ[0].success))
  {
    hide Inv, ConfigOk, ReportInv, DeliverCancel, NamesOrder, Asked, ShowsOrder, Recovered;
    var c := s.respQ[0];
    var s' := DeliverCancel(cfg, s, c.id, c.clOrdId, c.success);
    DeliverCancelQueues(cfg, s, c.id, c.clOrdId, c.success);
    ToldOf(cfg, s);
    if s'.sent == s.sent {
      NoneMore(cfg, s, s');
    } else {
      var r := s'.sent[|s'.sent| - 1];
      if c.success { CanceledNames(cfg, s, r); }
      NextIsAsked(cfg, s);
      OneMore(cfg, s, s', r);
    }
  }

  lemma NextIsAsked(cfg: Config, s: State)
    requires ReportInv(cfg, s) && s.omUp && s.respQ != [] && s.respQ[0].CancelResp?
    ensures Asked(s.sent, s.respQ[0].id, s.respQ[0].clOrdId)
  {
    hide FillsTell, AllNamed, OutcomesAsked, Asked;
  }

  lemma DeliverCancelQueues(cfg: Config, s: State, id: int, clOrdId: int, success: bool)
    requires s.respQ != []
    ensures var s' := DeliverCancel(cfg, s, id, clOrdId, success);
            s'.reqQ == s.reqQ && (s'.respQ == s.respQ || s'.respQ == s.respQ[1..])
  {
    hide CancelGuards, CancelPersists, SettleCancel, CancelReport;
  }

  lemma CanceledNames(cfg: Config, s: State, r: Report)
    requires ConfigOk(cfg) && Inv(cfg, s) && s.omUp && s.respQ != [] && s.respQ[0].CancelResp? && s.respQ[0].success
    requires TellsCancel(cfg, s.om, s.respQ[0].id, s.respQ[0].clOrdId, true, r)
    ensures NamesOrder(cfg, s.hist.accepted, r)
  {
    hide Inv, ConfigOk, Wrap32, TruncDiv;
    var id := s.respQ[0].id;
    RefundIsDue(cfg, s, id, s.respQ[0].clOrdId);
    AcceptedKey(cfg, s, id);
  }

  lemma AcceptedKey(cfg: Config, s: State, id: int)
    requires Inv(cfg, s) && id in s.hist.accepted
    ensures id in s.om.infos && id in s.om.clients && SameOrder(s.om.infos[id], s.hist.accepted[id].order)
    ensures var n := s.hist.accepted[id].order;
            && n.sender in cfg.users
            && TransformId(s.om.clients[id], cfg.users[n.sender]) == TransformId(n.clOrdId, cfg.users[n.sender])
  {
    hide LedgerInv, ReqInv, BooksInv, RespInv, CancelInv, QtyInv, MarketInv, BlockedInv, FiguresInv, LifeInv, Wrap32;
    assert AccOk(cfg, s.om, id, s.hist.accepted[id]) && OwnerOk(cfg, s.om, id);
  }

  lemma TradeReports(cfg: Config, s: State, t: Trade)
    requires ConfigOk(cfg) && Inv(cfg, s) && ReportInv(cfg, s) && s.omUp && s.respQ != [] && s.respQ[0] == TradeResp(t)
    ensures ReportInv(cfg, DeliverTrade(cfg, s, t))
  {
    hide Inv, ConfigOk, ReportInv, PersistGuards, SettleTrade, FillReport;
    hide UpdateAsserts, CreditStock, CreditImprovement, Improvement, Returned, Keep;
    var s' := DeliverTrade(cfg, s, t);
    if SettleGuards(cfg.width, s.om, t) {
      FillOf(cfg, s, t, true);
      FillOf(cfg, s, t, false);
      var om' := SettleTrade(cfg.width, s.om, t);
      TwoMore(cfg, s, s', t, FillReport(om', t, true), FillReport(om', t, false));
    } else {
      NoneMore(cfg, s, s');
    }
  }

  /** A step that sends the two reports of a trade. */
  lemma TwoMore(cfg: Config, s: State, s': State, t: Trade, r1: Report, r2: Report)
    requires ReportInv(cfg, s) && s.omUp && s'.sent == s.sent + [r1, r2]
    requires s'.hist == s.hist.(settled := s.hist.settled + [t]) && s'.reqQ == s.reqQ && s'.respQ == Dequeued(s.respQ)
    requires TellsFill(cfg, s.hist.accepted, s.hist.settled + [t], t.takerOrder, r1)
    requires TellsFill(cfg, s.hist.accepted, s.hist.settled + [t], t.makerOrder, r2)
    ensures ReportInv(cfg, s')
  {
    var acc, ts := s.hist.accepted, s.hist.settled;
    FillNames(cfg, acc, ts + [t], t.takerOrder, r1);
    FillNames(cfg, acc, ts + [t], t.makerOrder, r2);
    hide TellsFill, FillsTell, AllNamed, OutcomesAsked, QueuesAsked, NamesOrder, TellsOutcome, Asked, TellsLife;
    assert s'.sent == s.sent + [r1] + [r2];
    FillsAppend(s.sent, r1);
    FillsAppend(s.sent + [r1], r2);
    FillsTellMore(cfg, acc, ts, t, Fills(s.sent), r1, r2);
    NamedMore(cfg, acc, acc, s.sent, r1);
    NamedMore(cfg, acc, acc, s.sent + [r1], r2);
    OutcomesMore(s.sent, r1);
    OutcomesMore(s.sent + [r1], r2);
    var s1 := s.(sent := s.sent + [r1]);
    QueuesOn(s, s1, r1);
    QueuesOn(s1, s', r2);
  }

  lemma FillNames(cfg: Config, acc: Orders, ts: seq<Trade>, id: int, r: Report)
    requires TellsFill(cfg, acc, ts, id, r)
    ensures IsFill(r) && NamesOrder(cfg, acc, r) && !TellsOutcome(r)
  {
    hide FiguresOf, Wrap32, TruncDiv;
  }

  lemma EngineReports(cfg: Config, s: State)
    requires ReportInv(cfg, s) && s.reqQ != []
    ensures ReportInv(cfg, ServeStep(cfg.width, s))
  {
    hide FillsTell, AllNamed, OutcomesAsked, Asked;
    hide Takes, AddMatch, Add, TakerOf, InBook, Cancel, BookQty, Quote, Answers;
    var s' := ServeStep(cfg.width, s);
    forall i | s.omUp && 0 <= i < |s'.respQ| && s'.respQ[i].CancelResp?
      ensures Asked(s.sent, s'.respQ[i].id, s'.respQ[i].clOrdId)
    {
      assert s.reqQ[0].CancelReq? ==> Asked(s.sent, s.reqQ[0].id, s.reqQ[0].clOrdId);
    }
    NoneMore(cfg, s, s');
  }

  lemma FlushReports(cfg: Config, s: State)
    requires ReportInv(cfg, s)
    ensures ReportInv(cfg, FlushStep(cfg.width, s))
  {
    hide SnapshotOk, FillsTell, AllNamed, OutcomesAsked, Asked;
  }

  lemma StepKeepsReports(cfg: Config, s: State, e: Event)
    requires ConfigOk(cfg) && Inv(cfg, s) && ReportInv(cfg, s)
    ensures ReportInv(cfg, Next(cfg, s, e))
  {
    hide Inv, ConfigOk, ReportInv, SubmitStep, ResumeStep, CancelStep, DeliverStep, ServeStep, FlushStep;
    if Enabled(s, e) {
      match e
      case Submit(n) => SubmitReports(cfg, s, n);
      case Resume => ResumeReports(cfg, s);
      case RequestCancel(c) => CancelReports(cfg, s, c);
      case Deliver => DeliverReports(cfg, s);
      case Engine => EngineReports(cfg, s);
      case Flush => FlushReports(cfg, s);
    }
  }

  // ---------------------------------------------------------------- every run

  lemma {:induction false} RunKeepsReports(cfg: Config, ledger: Ledger, es: seq<Event>)
    requires ConfigOk(cfg) && NonNegative(ledger)
    ensures ReportInv(cfg, After(cfg, ledger, es))
  {
    hide Inv, ConfigOk, NonNegative, Next;
    if es != [] {
      hide ReportInv;
      var rest := es[..|es| - 1];
      RunKeepsReports(cfg, ledger, rest);
      RunKeeps(cfg, ledger, rest);
      StepKeepsReports(cfg, After(cfg, ledger, rest), es[|es| - 1]);
    }
  }

  /** Over every run the fill reports are exactly those of the settled trades, to the senders of their orders. */
  lemma FillsAreTold(cfg: Config, ledger: Ledger, es: seq<Event>)
    requires ConfigOk(cfg) && NonNegative(ledger)
    ensures var s := After(cfg, ledger, es); FillsTell(cfg, s.hist.accepted, s.hist.settled, Fills(s.sent))
  {
    hide ConfigOk, NonNegative, Run, Init, FillsTell;
    RunKeepsReports(cfg, ledger, es);
  }

  /**
   Over every run each report that tells an order's life goes to the order's sender and shows its
   symbol and side. Fills and cancels name it by the client id recovered from its key, and that is
   the client's own exactly when the key did not overflow and the id is not negative, or the user
   is zero.
   */
  lemma ReportsNameClientIff(cfg: Config, ledger: Ledger, es: seq<Event>, i: int)
    requires ConfigOk(cfg) && NonNegative(ledger)
    requires var s := After(cfg, ledger, es); 0 <= i < |s.sent| && TellsLife(s.sent[i], s.sent[i].orderId)
    ensures var s := After(cfg, ledger, es);
            var r, acc := s.sent[i], s.hist.accepted;
            && NamesOrder(cfg, acc, r)
            && var n := acc[r.orderId].order;
            var named := if r.status == Canceled then r.origClOrdId else Some(r.clOrdId);
            named == Some(n.clOrdId) <==>
            || r.status == StatusNew
            || (KeyFits(n.clOrdId, cfg.users[n.sender]) && (n.clOrdId >= 0 || cfg.users[n.sender] == 0))
  {
    hide NonNegative, Run, Init, FillsTell, OutcomesAsked, QueuesAsked, TellsLife, KeyFits, TruncDiv;
    RunKeepsReports(cfg, ledger, es);
    var s := After(cfg, ledger, es);
    var n := s.hist.accepted[s.sent[i].orderId].order;
    ReportedIdIff(n.clOrdId, cfg.users[n.sender]);
    hide Wrap32;
  }

  /** Over every run each report of a cancel's outcome follows the report that the cancel was pending. */
  lemma OutcomesAreAsked(cfg: Config, ledger: Ledger, es: seq<Event>, i: int)
    requires ConfigOk(cfg) && NonNegative(ledger)
    requires var s := After(cfg, ledger, es); 0 <= i < |s.sent| && TellsOutcome(s.sent[i])
    ensures var s := After(cfg, ledger, es); Asked(s.sent[..i], s.sent[i].orderId, s.sent[i].clOrdId)
  {
    hide ConfigOk, NonNegative, Run, Init, FillsTell, AllNamed, QueuesAsked, TellsOutcome;
    RunKeepsReports(cfg, ledger, es);
  }
}
