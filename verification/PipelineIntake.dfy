/** Registering, blocking, accepting and forwarding keep the pipeline invariant. */
module PipelineIntake {
  import opened Common
  import opened Messages
  import opened BalanceLedger
  import opened OrderManagement
  import opened Pipeline
  import opened PipelineInv
  import opened PipelineMeasures

  /** Both directions of the bimap grow by one fresh pair. */
  lemma BimapGrows(left: map<int, int>, right: map<int, int>, id: int, key: int)
    requires forall i :: i in left ==> left[i] in right && right[left[i]] == i
    requires forall k :: k in right ==> right[k] in left && left[right[k]] == k
    requires id !in left && key !in right
    ensures var l, r := left[id := key], right[key := id];
            && (forall i :: i in l ==> l[i] in r && r[l[i]] == i)
            && (forall k :: k in r ==> r[k] in l && l[r[k]] == k)
  {
  }

  /** The freshly assigned id is unknown before and, when registered, known after. */
  lemma RegisterFacts(cfg: Config, om: OmState, n: NewOrder)
    requires IdsInv(cfg, om)
    ensures om.lastId + 1 !in om.infos && om.lastId + 1 !in om.idLeft
    ensures var om' := Preprocess(cfg, om, n);
            && Grown(om.infos, om'.infos) && om'.lastId == om.lastId + 1 && om'.ledger == om.ledger
            && (forall id :: id in om.idLeft ==> id in om'.idLeft && om'.idLeft[id] == om.idLeft[id])
            && (PreprocessVerdict(cfg, om, n).Ok? ==>
                  && n.sender in cfg.users && om'.lastId in om'.infos && om'.lastId in om'.idLeft
                  && om'.infos[om'.lastId] == OrderInfo(n.sender, n.symbol, n.side, PriceOf(n), n.qty, 0, 0)
                  && om'.idLeft[om'.lastId] == TransformId(n.clOrdId, cfg.users[n.sender]))
  {
    assert om.lastId + 1 !in om.infos;
  }

  lemma RegisterKeepsOwners(cfg: Config, om: OmState, n: NewOrder)
    requires ConfigOk(cfg) && IdsInv(cfg, om)
    ensures forall id :: id in Preprocess(cfg, om, n).infos ==> OwnerOk(cfg, Preprocess(cfg, om, n), id)
  {
    var om' := Preprocess(cfg, om, n);
    RegisterFacts(cfg, om, n);
    forall id | id in om'.infos ensures OwnerOk(cfg, om', id) {
      if id in om.infos { assert OwnerOk(cfg, om, id); }
    }
  }

  lemma RegisterKeepsIds(cfg: Config, om: OmState, n: NewOrder)
    requires ConfigOk(cfg) && IdsInv(cfg, om)
    ensures IdsInv(cfg, Preprocess(cfg, om, n))
  {
    hide OwnerOk, ConfigOk, Grown, TransformId;
    RegisterFacts(cfg, om, n);
    RegisterKeepsOwners(cfg, om, n);
    if PreprocessVerdict(cfg, om, n).Ok? {
      BimapGrows(om.idLeft, om.idRight, om.lastId + 1, TransformId(n.clOrdId, cfg.users[n.sender]));
    }
  }

  // ---------------------------------------------------------------- frames

  /** Known orders stay as they are; more may be known. */
  ghost predicate Grown(infos: map<int, OrderInfo>, infos': map<int, OrderInfo>) {
    forall id :: id in infos ==> id in infos' && infos'[id] == infos[id]
  }

  lemma AccFrame(cfg: Config, om: OmState, om': OmState, acc: Orders)
    requires AccInv(cfg, om, acc) && Grown(om.infos, om'.infos) && om'.ledger == om.ledger
    requires forall id :: id in om.idLeft ==> id in om'.idLeft && om'.idLeft[id] == om.idLeft[id]
    ensures AccInv(cfg, om', acc)
  {
    forall id | id in acc ensures AccOk(cfg, om', id, acc[id]) { assert AccOk(cfg, om, id, acc[id]); }
  }

  lemma ReqFrame(s: State, s': State)
    requires ReqInv(s) && Grown(s.om.infos, s'.om.infos) && s.om.lastId <= s'.om.lastId
    requires s'.reqQ == s.reqQ && s'.hist == s.hist && (s'.omUp ==> s.omUp)
    ensures ReqInv(s')
  {
    forall i | 0 <= i < |s.reqQ|
      ensures ReqOk(s.reqQ[i], s.hist.accepted, s.hist.frontier, s'.om.infos.Keys, s'.om.lastId, s'.omUp)
    {
      assert ReqOk(s.reqQ[i], s.hist.accepted, s.hist.frontier, s.om.infos.Keys, s.om.lastId, s.omUp);
    }
  }

  lemma RespFrame(s: State, s': State)
    requires RespInv(s) && Grown(s.om.infos, s'.om.infos)
    requires s'.respQ == s.respQ && s'.hist == s.hist && (s'.omUp ==> s.omUp)
    ensures RespInv(s')
  {
    forall i | 0 <= i < |s.respQ| ensures RespOk(s.respQ[i], s.hist, s'.om.infos.Keys, s'.omUp) {
      assert RespOk(s.respQ[i], s.hist, s.om.infos.Keys, s.omUp);
    }
  }

  lemma QtyFrame(s: State, s': State)
    requires QtyInv(s) && Grown(s.om.infos, s'.om.infos)
    requires s'.reqQ == s.reqQ && s'.books == s.books && s'.respQ == s.respQ && s'.hist == s.hist
    ensures QtyInv(s')
  {
    forall id | id in s.hist.accepted ensures QtyOk(s', id) { assert QtyOk(s, id); }
  }

  lemma LifeFrame(s: State, s': State)
    requires LifeInv(s) && Grown(s.om.infos, s'.om.infos) && s'.sent == s.sent && s'.hist == s.hist
    ensures LifeInv(s')
  {
    forall id | id in s.hist.accepted ensures LifeOk(s', id) { assert LifeOk(s, id); }
  }

  lemma FiguresFrame(w: Width, s: State, s': State)
    requires FiguresInv(w, s) && Grown(s.om.infos, s'.om.infos) && s'.hist == s.hist
    ensures FiguresInv(w, s')
  {
  }

  /** Steps that move no message, no book and no money keep everything else. */
  lemma QuietKeepsInv(cfg: Config, s: State, s': State)
    requires Inv(cfg, s) && IdsInv(cfg, s'.om) && BlockedInv(cfg.width, s') && BlockedId(cfg, s') && LifeInv(s')
    requires forall id :: id in s.om.idLeft ==> id in s'.om.idLeft && s'.om.idLeft[id] == s.om.idLeft[id]
    requires Grown(s.om.infos, s'.om.infos) && s.om.lastId <= s'.om.lastId && s'.om.ledger == s.om.ledger
    requires s'.reqQ == s.reqQ && s'.books == s.books && s'.respQ == s.respQ && s'.hist == s.hist
    requires s'.omUp ==> s.omUp
    ensures Inv(cfg, s')
  {
    hide IdsInv, NonNegative, AccInv, ReqInv, BooksInv, RespInv, QtyInv, BlockedInv, FiguresInv, LifeInv, Grown;
    AccFrame(cfg, s.om, s'.om, s.hist.accepted);
    ReqFrame(s, s');
    RespFrame(s, s');
    QtyFrame(s, s');
    FiguresFrame(cfg.width, s, s');
  }

  // ---------------------------------------------------------------- steps

  /** Assigning an id, with or without registering the order, keeps the invariant. */
  lemma RegisterKeepsInv(cfg: Config, s: State, n: NewOrder)
    requires ConfigOk(cfg) && Inv(cfg, s) && s.blocked.None?
    ensures Inv(cfg, s.(om := Preprocess(cfg, s.om, n)))
  {
    hide IdsInv, NonNegative, AccInv, ReqInv, BooksInv, RespInv, CancelInv, QtyInv, MarketInv, FiguresInv, LifeInv;
    hide Grown, Preprocess;
    var s' := s.(om := Preprocess(cfg, s.om, n));
    RegisterKeepsIds(cfg, s.om, n);
    RegisterFacts(cfg, s.om, n);
    LifeFrame(s, s');
    QuietKeepsInv(cfg, s, s');
  }

  lemma ReportKeepsLife(s: State, r: Report)
    requires LifeInv(s) && r.status in {PendingCancel, Rejected}
    ensures LifeInv(s.(sent := s.sent + [r]))
  {
    var s' := s.(sent := s.sent + [r]);
    forall id | id in s.hist.accepted ensures LifeOk(s', id) {
      assert LifeOk(s, id);
      LifeAppend(s.sent, r, id, s.hist.accepted[id].order.qty);
    }
  }

  /** A report that is not part of an order's life changes nothing. */
  lemma ReportKeepsInv(cfg: Config, s: State, r: Report)
    requires Inv(cfg, s) && r.status in {PendingCancel, Rejected}
    ensures Inv(cfg, s.(sent := s.sent + [r]))
  {
    hide IdsInv, NonNegative, AccInv, ReqInv, BooksInv, RespInv, CancelInv, QtyInv, MarketInv, FiguresInv, LifeInv;
    hide Grown;
    GrownSame(s.om.infos);
    ReportKeepsLife(s, r);
    QuietKeepsInv(cfg, s, s.(sent := s.sent + [r]));
  }

  /** A stopped order manager has fewer obligations. */
  lemma StopKeepsInv(cfg: Config, s: State)
    requires Inv(cfg, s)
    ensures Inv(cfg, s.(omUp := false))
  {
    hide IdsInv, NonNegative, AccInv, ReqInv, BooksInv, RespInv, CancelInv, QtyInv, MarketInv, FiguresInv, LifeInv;
    hide Grown;
    GrownSame(s.om.infos);
    LifeFrame(s, s.(omUp := false));
    QuietKeepsInv(cfg, s, s.(omUp := false));
  }

  lemma StopEngineKeepsInv(cfg: Config, s: State)
    requires Inv(cfg, s)
    ensures Inv(cfg, s.(meUp := false))
  {
    hide IdsInv, NonNegative, AccInv, ReqInv, BooksInv, RespInv, CancelInv, QtyInv, MarketInv, FiguresInv, LifeInv;
    hide Grown;
    GrownSame(s.om.infos);
    LifeFrame(s, s.(meUp := false));
    QuietKeepsInv(cfg, s, s.(meUp := false));
  }

  lemma QueueKeepsReq(s: State, r: Request, s': State)
    requires ReqInv(s) && !r.NewReq?
    requires ReqOk(r, s.hist.accepted, s.hist.frontier, s.om.infos.Keys, s.om.lastId, s.omUp)
    requires s' == s.(reqQ := s.reqQ + [r], blocked := s'.blocked)
    ensures ReqInv(s')
  {
    forall i | 0 <= i < |s'.reqQ|
      ensures ReqOk(s'.reqQ[i], s.hist.accepted, s.hist.frontier, s.om.infos.Keys, s.om.lastId, s.omUp)
    {
      if i < |s.reqQ| {
        assert ReqOk(s.reqQ[i], s.hist.accepted, s.hist.frontier, s.om.infos.Keys, s.om.lastId, s.omUp);
      }
    }
  }

  lemma QueueKeepsMarket(w: Width, s: State, r: Request, s': State)
    requires MarketInv(w, s) && QtyInv(s) && !r.NewReq?
    requires s' == s.(reqQ := s.reqQ + [r], blocked := s'.blocked)
    ensures MarketInv(w, s') && QtyInv(s')
  {
    forall i | 0 < i < |s'.reqQ| ensures !IsMarketReq(s'.reqQ[i]) {
      if i < |s.reqQ| { assert !IsMarketReq(s.reqQ[i]); }
    }
    if s.reqQ != [] { assert s'.reqQ[0] == s.reqQ[0]; }
    forall id | id in s.hist.accepted ensures QtyOk(s', id) {
      assert QtyOk(s, id);
      AheadAppend(s.reqQ, r, id);
    }
  }

  /** Queueing a message that is not a new order keeps the invariant. */
  lemma QueueKeepsInv(cfg: Config, s: State, r: Request, s': State)
    requires Inv(cfg, s) && BlockedInv(cfg.width, s') && BlockedId(cfg, s') && !r.NewReq?
    requires ReqOk(r, s.hist.accepted, s.hist.frontier, s.om.infos.Keys, s.om.lastId, s.omUp)
    requires s' == s.(reqQ := s.reqQ + [r], blocked := s'.blocked)
    ensures Inv(cfg, s')
  {
    hide IdsInv, NonNegative, AccInv, ReqInv, BooksInv, QtyInv, MarketInv, BlockedInv, ReqOk, LifeInv, RespInv;
    hide FiguresInv, CancelInv, Grown;
    QueueKeepsReq(s, r, s');
    QueueKeepsMarket(cfg.width, s, r, s');
    GrownSame(s.om.infos);
    LifeFrame(s, s');
    RespFrame(s, s');
    FiguresFrame(cfg.width, s, s');
    CancelFrame(s, s');
  }

  lemma GrownSame(infos: map<int, OrderInfo>)
    ensures Grown(infos, infos)
  {
  }

  lemma CancelFrame(s: State, s': State)
    requires CancelInv(s) && s'.hist == s.hist && s'.respQ == s.respQ
    ensures CancelInv(s')
  {
  }

  /** Sending the cost query blocks the order manager behind its own last message. */
  lemma BlockKeepsInv(cfg: Config, s: State, n: NewOrder)
    requires Inv(cfg, s) && s.blocked.None? && IsMarketBid(n)
    requires s.om.lastId in s.om.infos && s.om.lastId !in s.hist.accepted
    requires s.om.infos[s.om.lastId] == OrderInfo(n.sender, n.symbol, n.side, PriceOf(n), n.qty, 0, 0)
    requires n.sender in cfg.users && s.om.lastId in s.om.idLeft
    requires s.om.idLeft[s.om.lastId] == TransformId(n.clOrdId, cfg.users[n.sender])
    ensures Inv(cfg, s.(blocked := Some(Pending(s.om.lastId, n)), reqQ := s.reqQ + [CostQuery(n.symbol, n.qty, Ask)]))
  {
    hide IdsInv, NonNegative, AccInv, ReqInv, BooksInv, RespInv, CancelInv, QtyInv, MarketInv, FiguresInv, LifeInv;
    hide Grown;
    var r := CostQuery(n.symbol, n.qty, Ask);
    QueueKeepsInv(cfg, s, r, s.(blocked := Some(Pending(s.om.lastId, n)), reqQ := s.reqQ + [r]));
  }

  /** Taking the cost answer unblocks the order manager. */
  lemma UnblockKeepsInv(cfg: Config, s: State)
    requires Inv(cfg, s) && s.blocked.Some? && s.costQ != []
    ensures Inv(cfg, s.(blocked := None, costQ := s.costQ[1..]))
  {
    hide IdsInv, NonNegative, AccInv, ReqInv, BooksInv, RespInv, CancelInv, QtyInv, MarketInv, FiguresInv, LifeInv;
    hide Grown;
    GrownSame(s.om.infos);
    LifeFrame(s, s.(blocked := None, costQ := s.costQ[1..]));
    QuietKeepsInv(cfg, s, s.(blocked := None, costQ := s.costQ[1..]));
  }

  /** Forwarding a cancel, whether or not the order manager survives the lookup. */
  lemma ForwardCancelKeepsInv(cfg: Config, s: State, id: int, clOrdId: int, symbol: string)
    requires Inv(cfg, s) && s.blocked.None?
    ensures Inv(cfg, s.(reqQ := s.reqQ + [CancelReq(id, clOrdId, symbol)], omUp := s.omUp && id in s.om.infos))
  {
    hide IdsInv, NonNegative, AccInv, ReqInv, BooksInv, RespInv, CancelInv, QtyInv, MarketInv, FiguresInv, LifeInv;
    hide Grown;
    var r := CancelReq(id, clOrdId, symbol);
    var s1 := s.(omUp := s.omUp && id in s.om.infos);
    if !s1.omUp { StopKeepsInv(cfg, s); }
    QueueKeepsInv(cfg, s1, r, s1.(reqQ := s.reqQ + [r]));
  }
}
