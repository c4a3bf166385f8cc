/** Which order a client id names, in every reachable state. */
module PipelineIds {
  import opened Common
  import opened Messages
  import opened BalanceLedger
  import opened OrderManagement
  import opened ClientIds
  import opened Pipeline
  import opened PipelineInv
  import opened PipelineIntake
  import opened PipelineRuns

  /** Order `id` was registered by this user under this client id. */
  ghost predicate Registered(om: OmState, id: int, user: string, clOrdId: int) {
    id in om.infos && id in om.clients && om.infos[id].sender == user && om.clients[id] == clOrdId
  }

  /** Order `id` was registered under a key that this user and client id also make. */
  ghost predicate HoldsKey(cfg: Config, om: OmState, id: int, user: string, clOrdId: int)
    requires user in cfg.users
  {
    && id in om.infos && id in om.clients && om.infos[id].sender in cfg.users
    && SameKey(om.clients[id], cfg.users[om.infos[id].sender], clOrdId, cfg.users[user])
  }

  /** No key of a registered order, nor the one asked about, overflowed. */
  ghost predicate AllKeysFit(cfg: Config, om: OmState, user: string, clOrdId: int)
    requires user in cfg.users
  {
    && KeyFits(clOrdId, cfg.users[user])
    && forall id :: id in om.infos && id in om.clients && om.infos[id].sender in cfg.users ==>
         KeyFits(om.clients[id], cfg.users[om.infos[id].sender])
  }

  /** A key is taken exactly by an order registered under the same 32 bits, and it leads to that order. */
  lemma KeyTakenIff(cfg: Config, om: OmState, user: string, clOrdId: int)
    requires IdsInv(cfg, om) && user in cfg.users
    ensures var key := TransformId(clOrdId, cfg.users[user]);
            && (key in om.idRight <==> exists id :: HoldsKey(cfg, om, id, user, clOrdId))
            && (forall id :: HoldsKey(cfg, om, id, user, clOrdId) ==> key in om.idRight && om.idRight[key] == id)
  {
    hide TransformId, SameKey;
    var key := TransformId(clOrdId, cfg.users[user]);
    forall id | HoldsKey(cfg, om, id, user, clOrdId) ensures om.idLeft[id] == key {
      assert OwnerOk(cfg, om, id);
      KeysEqualIff(om.clients[id], cfg.users[om.infos[id].sender], clOrdId, cfg.users[user]);
    }
    if key in om.idRight {
      var id := om.idRight[key];
      assert OwnerOk(cfg, om, id);
      KeysEqualIff(om.clients[id], cfg.users[om.infos[id].sender], clOrdId, cfg.users[user]);
      assert HoldsKey(cfg, om, id, user, clOrdId);
    }
  }

  /** Without overflow, the key of a user and client id is held exactly by that user's order of that id. */
  lemma HeldByOwnerIff(cfg: Config, om: OmState, id: int, user: string, clOrdId: int)
    requires ConfigOk(cfg) && IdsInv(cfg, om) && user in cfg.users && AllKeysFit(cfg, om, user, clOrdId)
    ensures HoldsKey(cfg, om, id, user, clOrdId) <==> Registered(om, id, user, clOrdId)
  {
    if id in om.infos {
      assert OwnerOk(cfg, om, id);
      var owner := om.infos[id].sender;
      KeysEqualIff(om.clients[id], cfg.users[owner], clOrdId, cfg.users[user]);
      FittingKeysInjective(om.clients[id], cfg.users[owner], clOrdId, cfg.users[user]);
    }
  }

  /**
   A known user's new order is refused exactly when an order is registered under the same 32 bits,
   and otherwise gets an id no order had before. Without overflow that is exactly a client id which
   the same user has used.
   */
  lemma RefusedIff(cfg: Config, ledger: Ledger, es: seq<Event>, n: NewOrder)
    requires ConfigOk(cfg) && NonNegative(ledger) && n.sender in cfg.users
    ensures var om := After(cfg, ledger, es).om;
            var refused := PreprocessVerdict(cfg, om, n).Reject?;
            && (refused <==> exists id :: HoldsKey(cfg, om, id, n.sender, n.clOrdId))
            && (AllKeysFit(cfg, om, n.sender, n.clOrdId) ==>
                  (refused <==> exists id :: Registered(om, id, n.sender, n.clOrdId)))
            && om.lastId + 1 !in om.infos && om.idLeft.Keys == om.infos.Keys
  {
    RunKeeps(cfg, ledger, es);
    var om := After(cfg, ledger, es).om;
    IdsOf(cfg, After(cfg, ledger, es));
    hide Inv, ConfigOk, HoldsKey, Registered, AllKeysFit, TransformId;
    KeyTakenIff(cfg, om, n.sender, n.clOrdId);
    RegisterFacts(cfg, om, n);
    if AllKeysFit(cfg, om, n.sender, n.clOrdId) {
      forall id ensures HoldsKey(cfg, om, id, n.sender, n.clOrdId) <==> Registered(om, id, n.sender, n.clOrdId) {
        HeldByOwnerIff(cfg, om, id, n.sender, n.clOrdId);
      }
    }
  }

  /**
   A cancel names the order that holds its key when there is one; only when there is none does the
   id in the message decide. Without overflow the holder is the sender's own order of that client id.
   */
  lemma CancelResolves(cfg: Config, ledger: Ledger, es: seq<Event>, c: CancelRequest)
    requires ConfigOk(cfg) && NonNegative(ledger) && c.sender in cfg.users
    ensures var om := After(cfg, ledger, es).om;
            var target := ResolveCancel(cfg, om, c);
            && (forall id :: HoldsKey(cfg, om, id, c.sender, c.origClOrdId) ==> target == Some(id))
            && ((forall id :: !HoldsKey(cfg, om, id, c.sender, c.origClOrdId)) ==> target == c.suppliedId)
            && (AllKeysFit(cfg, om, c.sender, c.origClOrdId) ==>
                  forall id :: HoldsKey(cfg, om, id, c.sender, c.origClOrdId) <==>
                               Registered(om, id, c.sender, c.origClOrdId))
  {
    RunKeeps(cfg, ledger, es);
    var om := After(cfg, ledger, es).om;
    IdsOf(cfg, After(cfg, ledger, es));
    hide Inv, ConfigOk, HoldsKey, Registered, AllKeysFit, TransformId;
    KeyTakenIff(cfg, om, c.sender, c.origClOrdId);
    if AllKeysFit(cfg, om, c.sender, c.origClOrdId) {
      forall id
        ensures HoldsKey(cfg, om, id, c.sender, c.origClOrdId) <==> Registered(om, id, c.sender, c.origClOrdId)
      {
        HeldByOwnerIff(cfg, om, id, c.sender, c.origClOrdId);
      }
    }
  }

  /** Another user's order, known to the order manager. */
  ghost predicate Foreign(om: OmState, id: int, user: string) {
    id in om.infos && om.infos[id].sender != user
  }

  /**
   A cancel is forwarded for another user's order exactly when such an order holds its key, or when
   none does and the message itself supplies the id of such an order.
   */
  lemma ForeignCancelIff(cfg: Config, ledger: Ledger, es: seq<Event>, c: CancelRequest)
    requires ConfigOk(cfg) && NonNegative(ledger) && c.sender in cfg.users
    ensures var om := After(cfg, ledger, es).om;
            var target := ResolveCancel(cfg, om, c);
            target.Some? && Foreign(om, target.value, c.sender) <==>
            || (exists id :: HoldsKey(cfg, om, id, c.sender, c.origClOrdId) && Foreign(om, id, c.sender))
            || ((forall id :: !HoldsKey(cfg, om, id, c.sender, c.origClOrdId))
                && c.suppliedId.Some? && Foreign(om, c.suppliedId.value, c.sender))
  {
    hide ConfigOk, HoldsKey, Foreign, ResolveCancel;
    CancelResolves(cfg, ledger, es, c);
  }
}
