/** Validation of a new order against a list of checks, each with the reason it gives. */
module Validation {
  import opened Common
  import opened Messages
  import opened BalanceLedger
  import opened OrderManagement

  datatype Check = Check(passes: bool, reason: string)

  /** The reason of the first check that fails, if one does. */
  function FirstFailure(checks: seq<Check>): Verdict {
    if checks == [] then Ok
    else if !checks[0].passes then Reject(checks[0].reason)
    else FirstFailure(checks[1..])
  }

  lemma {:induction false} AllPassIff(checks: seq<Check>)
    ensures FirstFailure(checks).Ok? <==> forall i :: 0 <= i < |checks| ==> checks[i].passes
  {
    if checks != [] {
      AllPassIff(checks[1..]);
      assert forall i :: 1 <= i < |checks| ==> checks[i] == checks[1..][i - 1];
    }
  }

  lemma {:induction false} FailsAt(checks: seq<Check>, k: nat)
    requires k < |checks| && !checks[k].passes && forall i :: 0 <= i < k ==> checks[i].passes
    ensures FirstFailure(checks) == Reject(checks[k].reason)
  {
    if k > 0 { FailsAt(checks[1..], k - 1); }
  }

  /** The balance an order draws on, and how much of it; a market bid without a cost has no amount. */
  function DrawsOn(n: NewOrder): string {
    if n.side == Bid then "USD" else n.symbol
  }

  function Needs(n: NewOrder, cost: Option<int>): Option<int> {
    if n.side == Ask then Some(n.qty)
    else if n.ordType.Limit? then Some(n.ordType.price * n.qty)
    else cost
  }

  predicate Affords(l: Ledger, n: NewOrder, cost: Option<int>) {
    Needs(n, cost).Some? && Balance(l, n.sender, DrawsOn(n)) >= Needs(n, cost).value
  }

  /** What validation looks at, in this order. */
  function Checks(symbols: set<string>, l: Ledger, n: NewOrder, cost: Option<int>): seq<Check> {
    [Check(n.symbol in symbols, "Unrecognized symbol"),
     Check(n.ordType.Limit? ==> n.ordType.price > 0, "Price is not positive"),
     Check(n.qty > 0, "Quantity is not positive"),
     Check(n.sender in l, "Balance record for not found during validation"),
     Check(Owns(l, n.sender, DrawsOn(n)),
           if n.side == Bid then "User has no USD balance record" else "User has no " + n.symbol + " record"),
     Check(Affords(l, n, cost), "User has insufficient " + DrawsOn(n) + " balance")]
  }

  /** The verdict is Ok, or the reason of the first check that fails. */
  lemma ValidateIsFirstFailure(symbols: set<string>, l: Ledger, n: NewOrder, cost: Option<int>)
    ensures Validate(symbols, l, n, cost).verdict == FirstFailure(Checks(symbols, l, n, cost))
  {
    hide FirstFailure, Update;
    var c := Checks(symbols, l, n, cost);
    AllPassIff(c);
    if !c[0].passes { FailsAt(c, 0); }
    else if !c[1].passes { FailsAt(c, 1); }
    else if !c[2].passes { FailsAt(c, 2); }
    else if !c[3].passes { FailsAt(c, 3); }
    else if !c[4].passes { FailsAt(c, 4); }
    else if !c[5].passes { FailsAt(c, 5); }
    assert "User has insufficient " + "USD" + " balance" == "User has insufficient USD balance";
  }

  /** An order is accepted exactly when every check passes. */
  lemma ValidateOkIff(symbols: set<string>, l: Ledger, n: NewOrder, cost: Option<int>)
    ensures Validate(symbols, l, n, cost).verdict.Ok? <==>
            && n.symbol in symbols && n.qty > 0 && (n.ordType.Limit? ==> n.ordType.price > 0)
            && Owns(l, n.sender, DrawsOn(n)) && Affords(l, n, cost)
  {
    hide Update;
  }

  /** Exactly what an accepted order needs is taken off the one balance it draws on; a rejection changes none. */
  lemma ValidateTakes(symbols: set<string>, l: Ledger, n: NewOrder, cost: Option<int>)
    ensures var v := Validate(symbols, l, n, cost);
            if v.verdict.Reject? then v.ledger == l
            else
              && Needs(n, cost).Some?
              && forall b, t ::
                   && (Owns(v.ledger, b, t) <==> Owns(l, b, t))
                   && Balance(v.ledger, b, t) ==
                      Balance(l, b, t) - (if b == n.sender && t == DrawsOn(n) then Needs(n, cost).value else 0)
  {
    hide Update;
    if Validate(symbols, l, n, cost).verdict.Ok? {
      ValidateOkIff(symbols, l, n, cost);
      UpdateCells(l, n.sender, DrawsOn(n), -Needs(n, cost).value);
    }
  }
}
