/** What the order manager replies to each request, and what it does about it. */
module PipelineReplies {
  import opened Common
  import opened Messages
  import opened BalanceLedger
  import opened OrderManagement
  import opened Validation
  import opened Pipeline
  import opened PipelineInv
  import opened PipelineIntake
  import opened PipelineRuns
  import opened PipelineIds

  /** Exactly one more report has been sent, the one in hand. */
  predicate Replies(s: State, s': State, r: Report) {
    s'.sent == s.sent + [r]
  }

  // ---------------------------------------------------------------- new orders

  /** A report to the sender of a new order about that order, with the verdict on it. */
  predicate AnswersOrder(r: Report, id: int, n: NewOrder, v: Verdict) {
    && r.target == n.sender && r.orderId == id && r.clOrdId == n.clOrdId && r.origClOrdId == None
    && r.symbol == n.symbol && r.side == n.side && r.cum == 0 && r.avg == 0
    && r.price == (if n.ordType.Limit? then Some(n.ordType.price) else None)
    && match v
       case Ok => r.status == StatusNew && r.text == None && r.leaves == n.qty
       case Reject(reason) => r.status == Rejected && r.text == Some(reason) && r.leaves == 0
  }

  /** Exactly what the order needs is taken off the balance it draws on. */
  ghost predicate Charges(l: Ledger, l': Ledger, n: NewOrder, cost: Option<int>) {
    && Needs(n, cost).Some?
    && forall b, t :: Balance(l', b, t) ==
                      Balance(l, b, t) - (if b == n.sender && t == DrawsOn(n) then Needs(n, cost).value else 0)
  }

  /**
   The order is decided by the first check that fails. Its sender is told the verdict. Exactly an
   order that passes is charged, recorded with the USD it was charged, and forwarded.
   */
  ghost predicate DecidedBy(cfg: Config, s: State, s': State, id: int, n: NewOrder, cost: Option<int>) {
    var v := FirstFailure(Checks(cfg.symbols, s.om.ledger, n, cost));
    && |s'.sent| > 0 && Replies(s, s', s'.sent[|s'.sent| - 1]) && AnswersOrder(s'.sent[|s'.sent| - 1], id, n, v)
    && s'.omUp
    && if v.Ok? then
         && s'.reqQ == s.reqQ + [NewReq(id, n)] && Charges(s.om.ledger, s'.om.ledger, n, cost)
         && s'.hist.accepted ==
            s.hist.accepted[id := Accepted(n, if n.side == Bid then Needs(n, cost).value else 0)]
       else
         s'.reqQ == s.reqQ && s'.om.ledger == s.om.ledger && s'.hist.accepted == s.hist.accepted
  }

  lemma DecideOf(cfg: Config, s: State, id: int, n: NewOrder, cost: Option<int>)
    requires Inv(cfg, s) && s.omUp
    ensures DecidedBy(cfg, s, Decide(cfg, s, id, n, cost), id, n, cost)
    ensures var s' := Decide(cfg, s, id, n, cost);
            && s'.om == s.om.(ledger := s'.om.ledger) && s'.hist == s.hist.(accepted := s'.hist.accepted)
            && s'.respQ == s.respQ && s'.blocked == s.blocked && s'.costQ == s.costQ
  {
    hide Inv, Validate, Checks, FirstFailure, ValidateAsserts, Owns;
    BalanceIsReadable(cfg, s, n, cost);
    ValidateIsFirstFailure(cfg.symbols, s.om.ledger, n, cost);
    ValidateTakes(cfg.symbols, s.om.ledger, n, cost);
    var s' := Decide(cfg, s, id, n, cost);
    var v := Validate(cfg.symbols, s.om.ledger, n, cost).verdict;
    assert s'.sent[|s'.sent| - 1] == if v.Ok? then NewReport(n, id) else RejectionReport(n, id, v.reason);
    assert AnswersOrder(s'.sent[|s'.sent| - 1], id, n, v);
    assert v.Ok? ==> Charges(s.om.ledger, s'.om.ledger, n, cost);
    assert v.Ok? ==> Reserved(n, cost) == if n.side == Bid then Needs(n, cost).value else 0;
  }

  /** What is looked at before an order is registered. */
  ghost function IntakeChecks(cfg: Config, om: OmState, n: NewOrder): seq<Check> {
    [Check(n.sender in cfg.users, "Order request contains unknown username"),
     Check(n.sender in cfg.users ==> forall id :: !HoldsKey(cfg, om, id, n.sender, n.clOrdId),
           "Client order id has already been used")]
  }

  lemma IntakeVerdict(cfg: Config, om: OmState, n: NewOrder)
    requires IdsInv(cfg, om)
    ensures PreprocessVerdict(cfg, om, n) == FirstFailure(IntakeChecks(cfg, om, n))
  {
    hide HoldsKey, TransformId, IdsInv, FirstFailure;
    var c := IntakeChecks(cfg, om, n);
    AllPassIff(c);
    if n.sender in cfg.users {
      KeyTakenIff(cfg, om, n.sender, n.clOrdId);
      if !c[1].passes { FailsAt(c, 1); }
    } else {
      FailsAt(c, 0);
    }
  }

  /**
   Over every run: a new order gets the next id. It is refused for the first intake check that
   fails; otherwise a market bid waits for its cost, and any other order is decided at once.
   */
  lemma SubmitIsAnswered(cfg: Config, ledger: Ledger, es: seq<Event>, n: NewOrder)
    requires ConfigOk(cfg) && NonNegative(ledger) && Enabled(After(cfg, ledger, es), Submit(n))
    ensures var s := After(cfg, ledger, es);
            var s', id, v := Next(cfg, s, Submit(n)), s.om.lastId + 1, FirstFailure(IntakeChecks(cfg, s.om, n));
            && s'.om.lastId == id && id !in s.om.infos
            && s'.respQ == s.respQ && s'.hist == s.hist.(accepted := s'.hist.accepted)
            && if v.Reject? then
                 && |s'.sent| > 0 && AnswersOrder(s'.sent[|s'.sent| - 1], id, n, v)
                 && s' == s.(om := s.om.(lastId := id), sent := s.sent + [s'.sent[|s'.sent| - 1]])
               else if n.ordType.Market? && n.side == Bid then
                 && s'.sent == s.sent && s'.blocked == Some(Pending(id, n)) && s'.om.ledger == s.om.ledger
                 && s'.reqQ == s.reqQ + [CostQuery(n.symbol, n.qty, Ask)] && s'.hist == s.hist
               else DecidedBy(cfg, s, s', id, n, None)
  {
    hide Inv, ConfigOk, NonNegative, Run, Init, SubmitStep, DecidedBy, IntakeChecks, FirstFailure;
    RunKeeps(cfg, ledger, es);
    SubmitOf(cfg, After(cfg, ledger, es), n);
  }

  lemma SubmitOf(cfg: Config, s: State, n: NewOrder)
    requires ConfigOk(cfg) && Inv(cfg, s) && s.omUp && s.blocked.None?
    ensures var s', id, v := SubmitStep(cfg, s, n), s.om.lastId + 1, FirstFailure(IntakeChecks(cfg, s.om, n));
            && s'.om.lastId == id && id !in s.om.infos
            && s'.respQ == s.respQ && s'.hist == s.hist.(accepted := s'.hist.accepted)
            && if v.Reject? then
                 && |s'.sent| > 0 && AnswersOrder(s'.sent[|s'.sent| - 1], id, n, v)
                 && s' == s.(om := s.om.(lastId := id), sent := s.sent + [s'.sent[|s'.sent| - 1]])
               else if n.ordType.Market? && n.side == Bid then
                 && s'.sent == s.sent && s'.blocked == Some(Pending(id, n)) && s'.om.ledger == s.om.ledger
                 && s'.reqQ == s.reqQ + [CostQuery(n.symbol, n.qty, Ask)] && s'.hist == s.hist
               else DecidedBy(cfg, s, s', id, n, None)
  {
    hide Inv, ConfigOk, Grown, IdsInv, TransformId, IntakeChecks, FirstFailure, Decide, Checks, Charges;
    IdsOf(cfg, s);
    IntakeVerdict(cfg, s.om, n);
    RegisterFacts(cfg, s.om, n);
    if PreprocessVerdict(cfg, s.om, n).Ok? && !IsMarketBid(n) {
      RegisterKeepsInv(cfg, s, n);
      DecideOf(cfg, s.(om := Preprocess(cfg, s.om, n)), s.om.lastId + 1, n, None);
    }
  }

  /** Over every run: the waiting market bid is decided with the oldest cost answer. */
  lemma ResumeIsAnswered(cfg: Config, ledger: Ledger, es: seq<Event>)
    requires ConfigOk(cfg) && NonNegative(ledger) && Enabled(After(cfg, ledger, es), Resume)
    ensures var s := After(cfg, ledger, es);
            var s', p := Next(cfg, s, Resume), s.blocked.value;
            && DecidedBy(cfg, s, s', p.id, p.order, s.costQ[0])
            && s'.blocked == None && s'.costQ == s.costQ[1..] && s'.om == s.om.(ledger := s'.om.ledger)
  {
    hide Inv, ConfigOk, NonNegative, Run, Init, ResumeStep, DecidedBy;
    RunKeeps(cfg, ledger, es);
    ResumeOf(cfg, After(cfg, ledger, es));
  }

  lemma ResumeOf(cfg: Config, s: State)
    requires ConfigOk(cfg) && Inv(cfg, s) && s.omUp && s.blocked.Some? && s.costQ != []
    ensures var s', p := ResumeStep(cfg, s), s.blocked.value;
            && DecidedBy(cfg, s, s', p.id, p.order, s.costQ[0])
            && s'.blocked == None && s'.costQ == s.costQ[1..] && s'.om == s.om.(ledger := s'.om.ledger)
            && s'.hist == s.hist.(accepted := s'.hist.accepted) && s'.respQ == s.respQ
  {
    hide Inv, ConfigOk, Decide, Checks, Charges, FirstFailure;
    UnblockKeepsInv(cfg, s);
    DecideOf(cfg, s.(blocked := None, costQ := s.costQ[1..]), s.blocked.value.id, s.blocked.value.order, s.costQ[0]);
  }

  // ---------------------------------------------------------------- cancels

  /** What a report says about an order as the order manager knows it. */
  predicate ShowsOrder(r: Report, info: OrderInfo) {
    r.symbol == info.symbol && r.side == info.side && r.price == info.price && r.cum == info.cum && r.avg == info.avg
  }

  /** A report to the sender of a cancel, with the client ids of the cancel. */
  predicate AnswersCancel(r: Report, c: CancelRequest, id: int) {
    r.target == c.sender && r.orderId == id && r.clOrdId == c.clOrdId && r.origClOrdId == Some(c.origClOrdId)
  }

  /** The order a cancel names: the one that holds its key; without one, whatever id it supplies. */
  ghost predicate Names(cfg: Config, om: OmState, c: CancelRequest, target: Option<int>) {
    if c.sender in cfg.users && exists id :: HoldsKey(cfg, om, id, c.sender, c.origClOrdId)
    then target.Some? && HoldsKey(cfg, om, target.value, c.sender, c.origClOrdId)
    else target == c.suppliedId
  }

  /** Why a cancel is refused, if it is. */
  function CancelVerdict(cfg: Config, c: CancelRequest, target: Option<int>): Verdict {
    FirstFailure([Check(c.sender in cfg.users, "Cancel request contains unknown username"),
                  Check(target.Some?, "Cancel request original client order ID not found")])
  }

  /**
   A cancel is forwarded exactly when it is not refused, and its sender is told so. One that names an
   unregistered order stops the order manager before it replies.
   */
  ghost predicate CancelAnswered(cfg: Config, s: State, s': State, c: CancelRequest, target: Option<int>) {
    var v := CancelVerdict(cfg, c, target);
    && s'.om == s.om && s'.hist == s.hist && s'.respQ == s.respQ
    && s'.reqQ == (if v.Ok? && target.Some? then s.reqQ + [CancelReq(target.value, c.clOrdId, c.symbol)] else s.reqQ)
    && if target.Some? && target.value !in s.om.infos then s'.sent == s.sent && !s'.omUp
       else
         && s'.omUp && |s'.sent| > 0
         && var r := s'.sent[|s'.sent| - 1];
         && Replies(s, s', r) && AnswersCancel(r, c, if target.Some? then target.value else -1)
         && (target.Some? ==> ShowsOrder(r, s.om.infos[target.value]))
         && match v
            case Ok => r.status == PendingCancel && r.text == None
                       && (target.Some? ==> r.leaves == s.om.infos[target.value].leaves)
            case Reject(reason) => r.status == Rejected && r.text == Some(reason) && r.leaves == 0
  }

  /** Over every run a cancel is answered so, for the order that it names. */
  lemma CancelIsAnswered(cfg: Config, ledger: Ledger, es: seq<Event>, c: CancelRequest, target: Option<int>)
    requires ConfigOk(cfg) && NonNegative(ledger) && Enabled(After(cfg, ledger, es), RequestCancel(c))
    requires Names(cfg, After(cfg, ledger, es).om, c, target)
    ensures var s := After(cfg, ledger, es); CancelAnswered(cfg, s, Next(cfg, s, RequestCancel(c)), c, target)
  {
    hide Inv, ConfigOk, NonNegative, Run, Init, CancelStep, CancelAnswered, Names;
    RunKeeps(cfg, ledger, es);
    var s := After(cfg, ledger, es);
    ResolvedIsNamed(cfg, s, c, target);
    CancelOf(cfg, s, c);
  }

  lemma ResolvedIsNamed(cfg: Config, s: State, c: CancelRequest, target: Option<int>)
    requires Inv(cfg, s) && Names(cfg, s.om, c, target)
    ensures target == ResolveCancel(cfg, s.om, c)
  {
    IdsOf(cfg, s);
    hide Inv, HoldsKey, TransformId, IdsInv;
    if c.sender in cfg.users { KeyTakenIff(cfg, s.om, c.sender, c.origClOrdId); }
  }

  lemma CancelOf(cfg: Config, s: State, c: CancelRequest)
    requires s.omUp
    ensures CancelAnswered(cfg, s, CancelStep(cfg, s, c), c, ResolveCancel(cfg, s.om, c))
  {
    hide ResolveCancel, FirstFailure;
    var target := ResolveCancel(cfg, s.om, c);
    var checks := [Check(c.sender in cfg.users, "Cancel request contains unknown username"),
                   Check(target.Some?, "Cancel request original client order ID not found")];
    AllPassIff(checks);
    if !checks[0].passes { FailsAt(checks, 0); } else if !checks[1].passes { FailsAt(checks, 1); }
  }
}
