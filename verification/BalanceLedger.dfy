/** The order manager's balance ledger: broker, then ticker, then amount. */
module BalanceLedger {
  import opened Common

  type Ledger = map<string, map<string, int>>

  const USD_SYMBOL := "USD"

  predicate Owns(l: Ledger, broker: string, ticker: string) {
    broker in l && ticker in l[broker]
  }

  /** The recorded amount, zero without a record. */
  function Balance(l: Ledger, broker: string, ticker: string): int {
    if Owns(l, broker, ticker) then l[broker][ticker] else 0
  }

  /** Add `delta` to a record, creating the broker or the record when it is missing. */
  function Update(l: Ledger, broker: string, ticker: string, delta: int): Ledger {
    if broker in l then l[broker := l[broker][ticker := Balance(l, broker, ticker) + delta]]
    else l[broker := map[ticker := delta]]
  }

  /** The assertions inside `update_balance`: they look at an existing record only. */
  predicate UpdateAsserts(l: Ledger, broker: string, ticker: string, delta: int) {
    && ticker != ""
    && (Owns(l, broker, ticker) ==> Balance(l, broker, ticker) >= 0 && Balance(l, broker, ticker) + delta >= 0)
  }

  /** The contract of `get_balance`. */
  predicate GetAsserts(l: Ledger, broker: string, ticker: string) {
    Owns(l, broker, ticker) && Balance(l, broker, ticker) >= 0
  }

  ghost predicate NonNegative(l: Ledger) {
    forall broker, ticker :: Owns(l, broker, ticker) ==> Balance(l, broker, ticker) >= 0
  }

  function Column(l: Ledger, ticker: string): map<string, int> {
    map broker | broker in l :: Balance(l, broker, ticker)
  }

  /** Everything the brokers hold of one ticker. */
  ghost function Total(l: Ledger, ticker: string): int {
    SumMap(Column(l, ticker))
  }

  /** A ledger update touches one cell. */
  lemma UpdateCells(l: Ledger, broker: string, ticker: string, delta: int)
    ensures forall b, t :: Owns(Update(l, broker, ticker, delta), b, t) <==>
        Owns(l, b, t) || (b == broker && t == ticker)
    ensures forall b, t :: Balance(Update(l, broker, ticker, delta), b, t) ==
                           Balance(l, b, t) + (if b == broker && t == ticker then delta else 0)
  {
  }

  /** A ledger update moves one total by exactly its delta and no other total. */
  lemma UpdateTotal(l: Ledger, broker: string, ticker: string, delta: int, t: string)
    ensures Total(Update(l, broker, ticker, delta), t) == Total(l, t) + (if t == ticker then delta else 0)
  {
    var l' := Update(l, broker, ticker, delta);
    UpdateCells(l, broker, ticker, delta);
    assert Column(l', t) == Column(l, t)[broker := Balance(l', broker, t)];
    SumMapUpdate(Column(l, t), broker, Balance(l', broker, t));
  }

  /** Exactly when an update keeps every balance non-negative. */
  lemma UpdateNonNegativeIff(l: Ledger, broker: string, ticker: string, delta: int)
    requires NonNegative(l)
    ensures NonNegative(Update(l, broker, ticker, delta)) <==> Balance(l, broker, ticker) + delta >= 0
  {
    UpdateCells(l, broker, ticker, delta);
    assert Owns(Update(l, broker, ticker, delta), broker, ticker);
  }

  /**
   The assertions of `update_balance` are weaker than that: a debit on a missing record passes
   them and leaves a negative balance, so callers must ask for the record first.
   */
  lemma AssertsMissNewRecord(broker: string, ticker: string)
    requires ticker != ""
    ensures UpdateAsserts(map[], broker, ticker, -1) && !NonNegative(Update(map[], broker, ticker, -1))
  {
    assert Owns(Update(map[], broker, ticker, -1), broker, ticker);
  }

  /** A single balance never exceeds the total of its ticker. */
  lemma BalanceWithinTotal(l: Ledger, broker: string, ticker: string)
    requires NonNegative(l)
    ensures 0 <= Balance(l, broker, ticker) <= Total(l, ticker)
  {
    assert forall b :: b in l ==> Balance(l, b, ticker) >= 0;
    SumMapNonNegative(Column(l, ticker));
    if broker in l { assert Column(l, ticker)[broker] == Balance(l, broker, ticker); }
  }

  class BalanceChecker {
    var balanceMap: Ledger

    constructor ()
      ensures balanceMap == map[]
    {
      balanceMap := map[];
    }

    predicate BrokerIdExists(brokerId: string)
      reads this
    {
      brokerId in balanceMap
    }

    predicate BrokerOwnsTicker(brokerId: string, ticker: string)
      requires BrokerIdExists(brokerId) && ticker != ""
      reads this
    {
      ticker in balanceMap[brokerId]
    }

    method UpdateBalance(brokerId: string, ticker: string, delta: int)
      requires UpdateAsserts(balanceMap, brokerId, ticker, delta)
      modifies this
      ensures balanceMap == Update(old(balanceMap), brokerId, ticker, delta)
    {
      if brokerId in balanceMap {
        var record := balanceMap[brokerId];
        if ticker in record {
          var sufficient := HasSufficientBalance(brokerId, ticker, delta);
          assert sufficient;
          balanceMap := balanceMap[brokerId := record[ticker := record[ticker] + delta]];
        } else {
          balanceMap := balanceMap[brokerId := record[ticker := delta]];
        }
      } else {
        balanceMap := balanceMap[brokerId := map[ticker := delta]];
      }
    }

    method GetBalance(brokerId: string, ticker: string) returns (balance: int)
      requires GetAsserts(balanceMap, brokerId, ticker)
      ensures balance == Balance(balanceMap, brokerId, ticker) && balance >= 0
    {
      balance := balanceMap[brokerId][ticker];
    }

    method HasSufficientBalance(brokerId: string, ticker: string, delta: int) returns (r: bool)
      requires GetAsserts(balanceMap, brokerId, ticker)
      ensures r <==> Balance(balanceMap, brokerId, ticker) + delta >= 0
    {
      var balance := GetBalance(brokerId, ticker);
      r := balance + delta >= 0;
    }
  }
}
