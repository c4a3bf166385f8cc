/**
 Both process objects and the connections between them, driven by events. Whatever the events, the
 objects stay at the state those events lead to in the pipeline with the amounts of the code.
 */
module Exchange {
  import opened Common
  import opened BookSpec
  import opened BookCost
  import opened Messages
  import opened BalanceLedger
  import opened OrderManagement
  import opened Pipeline
  import opened PipelineMeasures
  import opened OrderManagerProcess
  import opened MatchingEngineProcess

  // ---------------------------------------------------------------- what a step leaves alone

  ghost predicate SameEngineSide(s: State, t: State) {
    t.books == s.books && t.respQ == s.respQ && t.costQ == s.costQ && t.meUp == s.meUp
  }

  ghost predicate SameManagerSide(s: State, t: State) {
    t.om == s.om && t.omUp == s.omUp && t.blocked == s.blocked && t.reqQ == s.reqQ && t.sent == s.sent
  }

  lemma SubmitFrame(cfg: Config, s: State, n: NewOrder)
    ensures SameEngineSide(s, SubmitStep(cfg, s, n))
  {
    hide Preprocess, PreprocessVerdict, Validate, ValidateAsserts;
  }

  lemma CancelFrame(cfg: Config, s: State, c: CancelRequest)
    ensures SameEngineSide(s, CancelStep(cfg, s, c))
  {
    hide ResolveCancel, CancelRejection, PendingCancelReport;
  }

  lemma ResumeFrame(cfg: Config, s: State)
    requires s.blocked.Some? && s.costQ != []
    ensures SameEngineSide(s.(costQ := s.costQ[1..]), ResumeStep(cfg, s))
  {
    hide Validate, ValidateAsserts;
  }

  /** A response is taken off the connection, unless the order manager stops before it has reported on it. */
  lemma DeliverFrame(cfg: Config, s: State)
    requires s.omUp && s.respQ != []
    ensures var t := DeliverStep(cfg, s);
            SameEngineSide(if |t.sent| > |s.sent| then s.(respQ := s.respQ[1..]) else s, t)
  {
    hide SettleGuards, PersistGuards, SettleTrade, CancelGuards, CancelPersists, SettleCancel, FillReport, CancelReport;
  }

  /** A request is taken off the connection, unless the engine stops on it. */
  lemma ServeFrame(s: State)
    requires s.meUp && s.reqQ != []
    ensures var t := ServeStep(Bits32, s);
            SameManagerSide(if t.meUp then s.(reqQ := s.reqQ[1..]) else s, t)
  {
    hide Takes, Add, AddMatch, TakerOf, Cancel, InBook, BookQty, Answers, Quote, Rests, TradeResps;
  }

  lemma EngineShowsSame(engine: MatchingEngine, s: State, t: State)
    requires engine.Shows(s) && SameEngineSide(s, t)
    ensures engine.Shows(t)
  {
  }

  lemma ManagerShowsSame(manager: OrderManager, s: State, t: State)
    requires manager.Shows(s) && SameManagerSide(s, t)
    ensures manager.Shows(t)
  {
  }

  lemma InitShows(engine: MatchingEngine, cfg: Config, symbols: seq<string>, ledger: Ledger)
    requires engine.ShowsBooks(map s | s in symbols :: EMPTY_BOOK)
    requires engine.responses == [] && engine.costs == [] && engine.up && cfg.symbols == set s | s in symbols
    ensures engine.Shows(Init(cfg, ledger))
  {
    assert Init(cfg, ledger).books == map s | s in symbols :: EMPTY_BOOK;
  }

  lemma ManagerSees(manager: OrderManager, s: State)
    requires manager.Shows(s)
    ensures manager.waiting == s.blocked && manager.up == s.omUp
    ensures manager.requests == s.reqQ && manager.reports == s.sent
  {
  }

  lemma EngineSees(engine: MatchingEngine, s: State)
    requires engine.Valid() && engine.Shows(s)
    ensures engine.costs == s.costQ && engine.responses == s.respQ && engine.up == s.meUp && PositiveTrades(s.respQ)
  {
  }

  class System {
    const manager: OrderManager
    const engine: MatchingEngine
    /** The pipeline state the objects are at. */
    ghost var state: State

    ghost predicate Valid()
      reads this, manager, manager.checker, engine, engine.tradeEvents, engine.books.Values
    {
      && manager.Shows(state) && engine.Valid() && engine.Shows(state)
      && "" !in manager.cfg.symbols && manager.cfg.width.Bits32?
    }

    constructor (cfg: Config, symbols: seq<string>, checker: BalanceChecker)
      requires "" !in symbols && cfg.symbols == (set s | s in symbols) && cfg.width.Bits32?
      ensures Valid() && manager.cfg == cfg && manager.checker == checker
      ensures state == Init(cfg, checker.balanceMap)
    {
      hide Init, OrderManager.Shows, MatchingEngine.Shows, MatchingEngine.Valid, MatchingEngine.ShowsBooks;
      manager := new OrderManager(cfg, checker);
      engine := new MatchingEngine(symbols);
      state := Init(cfg, checker.balanceMap);
      new;
      InitShows(engine, cfg, symbols, checker.balanceMap);
    }

    // -------------------------------------------------------------- order manager events

    method TakeOrder(n: NewOrder)
      requires Valid()
      modifies this, manager, manager.checker
      ensures Valid() && state == SubmitStep(manager.cfg, old(state), n)
    {
      hide OrderManager.Shows, MatchingEngine.Shows, MatchingEngine.Valid, SubmitStep, SameEngineSide;
      manager.OnNewOrder(n, state);
      SubmitFrame(manager.cfg, state, n);
      EngineShowsSame(engine, state, SubmitStep(manager.cfg, state, n));
      state := SubmitStep(manager.cfg, state, n);
    }

    method TakeCancel(c: CancelRequest)
      requires Valid()
      modifies this, manager
      ensures Valid() && state == CancelStep(manager.cfg, old(state), c)
    {
      hide OrderManager.Shows, MatchingEngine.Shows, MatchingEngine.Valid, CancelStep, SameEngineSide;
      manager.OnCancelRequest(c, state);
      CancelFrame(manager.cfg, state, c);
      EngineShowsSame(engine, state, CancelStep(manager.cfg, state, c));
      state := CancelStep(manager.cfg, state, c);
    }

    method TakeCost()
      requires Valid() && state.blocked.Some? && state.costQ != []
      modifies this, manager, manager.checker, engine`costs
      ensures Valid() && state == ResumeStep(manager.cfg, old(state))
    {
      hide OrderManager.Shows, MatchingEngine.Shows, MatchingEngine.Valid, ResumeStep, SameEngineSide;
      ManagerSees(manager, state);
      var cost := engine.TakeCost(state);
      manager.OnCostResponse(cost, state);
      ResumeFrame(manager.cfg, state);
      EngineShowsSame(engine, state.(costQ := state.costQ[1..]), ResumeStep(manager.cfg, state));
      state := ResumeStep(manager.cfg, state);
    }

    method TakeResponse()
      requires Valid() && state.omUp && state.respQ != []
      modifies this, manager, manager.checker, engine`responses
      ensures Valid() && state == DeliverStep(manager.cfg, old(state))
    {
      hide OrderManager.Shows, MatchingEngine.Shows, MatchingEngine.Valid, SameEngineSide;
      hide DeliverTrade, DeliverCancel;
      EngineSees(engine, state);
      ghost var next := DeliverStep(manager.cfg, state);
      var response, reported := engine.responses[0], |manager.reports|;
      ManagerSees(manager, state);
      match response {
        case TradeResp(t) => manager.OnTrade(t, state);
        case CancelResp(id, clOrdId, success) => manager.OnCancelResponse(id, clOrdId, success, state);
      }
      DeliverFrame(manager.cfg, state);
      ManagerSees(manager, next);
      ghost var before := state;
      if |manager.reports| > reported {
        var taken := engine.TakeResponse(state);
        before := state.(respQ := state.respQ[1..]);
      }
      EngineShowsSame(engine, before, next);
      state := next;
    }

    // -------------------------------------------------------------- engine events

    method ServeRequest()
      requires Valid() && state.meUp && state.reqQ != []
      modifies this, manager`requests, engine`up, engine`responses, engine`costs, engine.tradeEvents,
          engine.books.Values
      ensures Valid() && state == ServeStep(manager.cfg.width, old(state))
    {
      hide OrderManager.Shows, MatchingEngine.Shows, MatchingEngine.Valid, SameManagerSide, ServeStep;
      ManagerSees(manager, state);
      ghost var next := ServeStep(Bits32, state);
      engine.ProcessContainer(manager.requests[0], state);
      ServeFrame(state);
      EngineSees(engine, next);
      ghost var before := state;
      if engine.up {
        var taken := manager.TakeRequest(state);
        before := state.(reqQ := state.reqQ[1..]);
      }
      ManagerShowsSame(manager, before, next);
      state := next;
    }

    method TakeSnapshots()
      requires Valid() && state.meUp
      modifies this, engine`up
      ensures Valid() && state == FlushStep(manager.cfg.width, old(state))
    {
      hide OrderManager.Shows, MatchingEngine.Shows, MatchingEngine.Valid, SnapshotOk;
      EngineSees(engine, state);
      var snapshots := engine.FlushSnapshots(state);
      ManagerShowsSame(manager, state, FlushStep(Bits32, state));
      state := FlushStep(Bits32, state);
    }

    // -------------------------------------------------------------- runs

    /** One event, if the process it is for can take it. */
    method Step(e: Event)
      requires Valid()
      modifies this, manager, manager.checker, engine, engine.tradeEvents, engine.books.Values
      ensures Valid() && engine.books == old(engine.books) && state == Next(manager.cfg, old(state), e)
    {
      hide Valid, SubmitStep, ResumeStep, CancelStep, DeliverStep, ServeStep, FlushStep;
      var ready := Ready(e);
      if ready {
        match e {
          case Submit(n) => TakeOrder(n);
          case Resume => TakeCost();
          case RequestCancel(c) => TakeCancel(c);
          case Deliver => TakeResponse();
          case Engine => ServeRequest();
          case Flush => TakeSnapshots();
        }
      }
    }

    method Ready(e: Event) returns (ready: bool)
      requires Valid()
      ensures ready <==> Enabled(state, e)
    {
      hide OrderManager.Shows, MatchingEngine.Shows, MatchingEngine.Valid;
      ManagerSees(manager, state);
      EngineSees(engine, state);
      match e {
        case Submit(_) => ready := manager.up && manager.waiting.None?;
        case Resume => ready := manager.up && manager.waiting.Some? && engine.costs != [];
        case RequestCancel(_) => ready := manager.up && manager.waiting.None?;
        case Deliver => ready := manager.up && manager.waiting.None? && engine.responses != [];
        case Engine => ready := engine.up && manager.requests != [];
        case Flush => ready := engine.up;
      }
    }

    /** The objects follow the pipeline through any sequence of events. */
    method Follow(es: seq<Event>)
      requires Valid()
      modifies this, manager, manager.checker, engine, engine.tradeEvents, engine.books.Values
      ensures Valid() && state == Run(manager.cfg, old(state), es)
    {
      hide Next, Valid;
      for i := 0 to |es|
        invariant Valid() && engine.books == old(engine.books) && state == Run(manager.cfg, old(state), es[..i])
      {
        assert es[..i + 1][..i] == es[..i];
        Step(es[i]);
      }
      assert es[..|es|] == es;
    }
  }
}
