/** The cost of taking from one side: exact, and as the engine computes it in 32 bits from level sums. */
module BookCost {
  import opened Arithmetic
  import opened Common
  import opened BookSpec

  // ---------------------------------------------------------------- level aggregates

  /** Units resting at one price, read off the flat side. */
  function QtyAtPrice(s: seq<Order>, p: int): int {
    if s == [] then 0 else (if s[0].price == p then s[0].qty else 0) + QtyAtPrice(s[1..], p)
  }

  lemma {:induction false} TotalQtyConcat(a: seq<Order>, b: seq<Order>)
    ensures TotalQty(a + b) == TotalQty(a) + TotalQty(b)
  {
    if a == [] {
      assert a + b == b;
    } else {
      assert (a + b)[1..] == a[1..] + b;
      TotalQtyConcat(a[1..], b);
    }
  }

  lemma {:induction false} QtyAtPriceConcat(a: seq<Order>, b: seq<Order>, p: int)
    ensures QtyAtPrice(a + b, p) == QtyAtPrice(a, p) + QtyAtPrice(b, p)
  {
    if a == [] {
      assert a + b == b;
    } else {
      assert (a + b)[1..] == a[1..] + b;
      QtyAtPriceConcat(a[1..], b, p);
    }
  }

  lemma {:induction false} QtyAtPriceUniform(s: seq<Order>, p: int, here: bool)
    requires forall i :: 0 <= i < |s| ==> (s[i].price == p) == here
    ensures QtyAtPrice(s, p) == if here then TotalQty(s) else 0
  {
    if s != [] { QtyAtPriceUniform(s[1..], p, here); }
  }

  /** Paying for a level of one price needs only its aggregate. */
  lemma {:induction false} CostOfLevel(orders: seq<Order>, rest: seq<Order>, p: int, qty: int)
    requires PositiveQty(orders) && qty >= 0
    requires forall i :: 0 <= i < |orders| ==> orders[i].price == p
    ensures CostOf(orders + rest, qty) ==
            if TotalQty(orders) <= qty then p * TotalQty(orders) + CostOf(rest, qty - TotalQty(orders))
            else p * qty
  {
    TotalQtyPositive(orders);
    if orders == [] {
      assert orders + rest == rest;
    } else {
      assert (orders + rest)[1..] == orders[1..] + rest;
      TotalQtyPositive(orders[1..]);
      if qty >= orders[0].qty {
        CostOfLevel(orders[1..], rest, p, qty - orders[0].qty);
        Distribute(p, orders[0].qty, TotalQty(orders[1..]));
        Distribute(p, orders[0].qty, qty - orders[0].qty);
      }
    }
  }

  // ---------------------------------------------------------------- the 32-bit answer

  /** How many orders at the front share price `p`. */
  function Leading(s: seq<Order>, p: int): (n: nat)
    ensures n <= |s| && forall i :: 0 <= i < n ==> s[i].price == p
  {
    if s == [] || s[0].price != p then 0 else 1 + Leading(s[1..], p)
  }

  /** The postcondition on a cost: it must be positive, or the engine stops. */
  function Checked(cost: int): Option<int> {
    if cost > 0 then Some(cost) else None
  }

  /**
   The running cost over level sums, every sum and product kept to 32 bits. None is a failed
   contract: a level sum or the final cost is not positive.
   */
  function Answer32(s: seq<Order>, qty: int, total: int): Option<int>
    decreases |s|
  {
    if s == [] || qty == 0 then Checked(total)
    else
      var n := Leading(s, s[0].price);
      assert n > 0;
      var sum := Wrap32(TotalQty(s[..n]));
      if sum <= 0 then None
      else if sum <= qty then Answer32(s[n..], qty - sum, Wrap32(total + Wrap32(s[0].price * sum)))
      else Checked(Wrap32(total + Wrap32(s[0].price * qty)))
  }

  /** The answer to a query of a side that has orders; None is a failed contract. */
  function Answer(w: Width, s: seq<Order>, qty: int): Option<int> {
    if w.Exact? then Checked(CostOf(s, qty)) else Answer32(s, qty, 0)
  }

  /** What the engine answers; None without orders on the side. */
  function Quote(w: Width, b: Book, qty: int, side: Side): Option<int> {
    if SideOf(b, side) == [] then None else Answer(w, SideOf(b, side), qty)
  }

  /** The sums of the first `k` levels pass the contract of an aggregate. */
  predicate TopSumsOk(s: seq<Order>, k: nat)
    decreases k
  {
    if s == [] || k == 0 then true
    else
      var n := Leading(s, s[0].price);
      Wrap32(TotalQty(s[..n])) > 0 && TopSumsOk(s[n..], k - 1)
  }

  lemma {:induction false} FittingSumsAreOk(s: seq<Order>, k: nat)
    requires PositiveQty(s) && LevelsFit(s)
    ensures TopSumsOk(s, k)
    decreases k
  {
    if s != [] && k > 0 {
      FrontFits(s);
      var n := Leading(s, s[0].price);
      WrapKeepsIff(TotalQty(s[..n]));
      FittingSumsAreOk(s[n..], k - 1);
    }
  }

  const ORDER_BOOK_AGGREGATE_LEVELS := 50

  /** A snapshot can be built: the ticker fits its buffer and no level sum fails; an exact sum never does. */
  predicate SnapshotOk(w: Width, b: Book, ticker: string) {
    && TickerFits(ticker)
    && (w.Exact? ||
        (TopSumsOk(b.bids, ORDER_BOOK_AGGREGATE_LEVELS) && TopSumsOk(b.asks, ORDER_BOOK_AGGREGATE_LEVELS)))
  }

  /** No price holds more units than 32 bits can count. */
  ghost predicate LevelsFit(s: seq<Order>) {
    forall p :: QtyAtPrice(s, p) <= MAX_INT
  }

  lemma {:induction false} QtyAtPriceBounds(s: seq<Order>, p: int)
    requires PositiveQty(s)
    ensures 0 <= QtyAtPrice(s, p) <= TotalQty(s)
  {
    if s != [] { QtyAtPriceBounds(s[1..], p); }
  }

  /** Everything at the front price is within its level sum; what is beyond fits too. */
  lemma FrontFits(s: seq<Order>)
    requires PositiveQty(s) && LevelsFit(s) && s != []
    ensures var n := Leading(s, s[0].price);
            n > 0 && 0 < TotalQty(s[..n]) <= MAX_INT && PositiveQty(s[..n]) && PositiveQty(s[n..]) && LevelsFit(s[n..])
  {
    var p := s[0].price;
    var n := Leading(s, p);
    assert s == s[..n] + s[n..];
    TotalQtyPositive(s[..n]);
    QtyAtPriceUniform(s[..n], p, true);
    forall q ensures QtyAtPrice(s[n..], q) <= MAX_INT {
      QtyAtPriceConcat(s[..n], s[n..], q);
      QtyAtPriceBounds(s[..n], q);
      QtyAtPriceBounds(s[n..], q);
    }
    QtyAtPriceConcat(s[..n], s[n..], p);
    QtyAtPriceBounds(s[n..], p);
  }

  lemma WrapTwice(total: int, product: int, rest: int)
    ensures Wrap32(Wrap32(total + Wrap32(product)) + rest) == Wrap32(total + (product + rest))
    ensures Wrap32(total + Wrap32(product)) == Wrap32(total + product)
  {
    WrapSum(total, product);
    WrapSum(rest, total + product);
  }

  // ---------------------------------------------------------------- when the answer is right

  /**
   The level at which the quantity runs out counts, in 32 bits, for at least what is left of it.
   Only that level can be too large to count, since the ones before it hold less than was asked for.
   */
  predicate Served(s: seq<Order>, qty: int)
    decreases |s|
  {
    if s == [] || qty <= 0 then true
    else
      var n := Leading(s, s[0].price);
      var sum := TotalQty(s[..n]);
      if sum < qty then Served(s[n..], qty - sum) else Wrap32(sum) >= qty
  }

  /** That level counts for something, but for less than what is left. */
  predicate Understated(s: seq<Order>, qty: int)
    decreases |s|
  {
    if s == [] || qty <= 0 then false
    else
      var n := Leading(s, s[0].price);
      var sum := TotalQty(s[..n]);
      if sum < qty then Understated(s[n..], qty - sum) else 0 < Wrap32(sum) < qty
  }

  lemma FrontLevel(s: seq<Order>)
    requires PositiveQty(s) && s != []
    ensures var n := Leading(s, s[0].price);
            n > 0 && TotalQty(s[..n]) > 0 && PositiveQty(s[..n]) && PositiveQty(s[n..])
  {
    TotalQtyPositive(s[..Leading(s, s[0].price)]);
  }

  /** Every level the answer passes or stops at counts for something. */
  predicate Counts(s: seq<Order>, qty: int)
    decreases |s|
  {
    if s == [] || qty <= 0 then true
    else
      var n := Leading(s, s[0].price);
      var sum := Wrap32(TotalQty(s[..n]));
      sum > 0 && (sum <= qty ==> Counts(s[n..], qty - sum))
  }

  /** The cost of taking what the levels count for, without losing any of it. */
  function Counted(s: seq<Order>, qty: int): int
    decreases |s|
  {
    if s == [] || qty <= 0 then 0
    else
      var n := Leading(s, s[0].price);
      assert n > 0;
      var sum := Wrap32(TotalQty(s[..n]));
      if sum <= qty then s[0].price * sum + Counted(s[n..], qty - sum) else s[0].price * qty
  }

  /** For every side: the running 32-bit cost is that of what the levels count for, kept to 32 bits at the end. */
  lemma {:induction false} AnswerIsCounted(s: seq<Order>, qty: int, total: Int32)
    requires qty >= 0
    ensures Answer32(s, qty, total) ==
            if Counts(s, qty) then Checked(Wrap32(total + Counted(s, qty))) else None
    decreases |s|
  {
    hide Wrap32, TotalQty, Checked;
    if s == [] || qty == 0 {
      WrapKeepsIff(total);
    } else {
      var p, n := s[0].price, Leading(s, s[0].price);
      var sum := Wrap32(TotalQty(s[..n]));
      if 0 < sum <= qty {
        AnswerIsCounted(s[n..], qty - sum, Wrap32(total + Wrap32(p * sum)));
        WrapTwice(total, p * sum, Counted(s[n..], qty - sum));
      } else {
        WrapTwice(total, p * qty, 0);
      }
    }
  }

  lemma NothingToTake(s: seq<Order>, qty: int)
    requires s == [] || qty <= 0
    ensures CostOf(s, qty) == 0
  {
  }

  /** A quantity that is served is counted right; one that is counted is served or understated. */
  lemma {:induction false} ServedIsCounted(s: seq<Order>, qty: int)
    requires PositiveQty(s) && 0 <= qty <= MAX_INT
    ensures Served(s, qty) ==> Counts(s, qty) && Counted(s, qty) == CostOf(s, qty)
    ensures Counts(s, qty) ==> Served(s, qty) || Understated(s, qty)
    decreases |s|
  {
    hide Wrap32, TotalQty, CostOf;
    if s == [] || qty == 0 {
      NothingToTake(s, qty);
    } else {
      var n := Leading(s, s[0].price);
      var sum := TotalQty(s[..n]);
      FrontLevel(s);
      WrapKeepsIff(sum);
      assert s == s[..n] + s[n..];
      CostOfLevel(s[..n], s[n..], s[0].price, qty);
      if sum < qty {
        ServedIsCounted(s[n..], qty - sum);
      } else {
        NothingToTake(s[n..], qty - sum);
      }
    }
  }

  /** The answer is the exact cost. */
  predicate QuoteRight(w: Width, s: seq<Order>, qty: int) {
    Answer(w, s, qty) == Some(CostOf(s, qty))
  }

  /** What the levels count for costs, as far as the width keeps it, what the quantity costs. */
  predicate QuoteFits(w: Width, s: seq<Order>, qty: int) {
    w.Exact? || (Counts(s, qty) && Wrap32(Counted(s, qty)) == CostOf(s, qty))
  }

  /**
   The answer is right exactly then. Unless the level at which the quantity runs out is understated,
   that is, in 32 bits, when the level counts for enough and the cost fits.
   */
  lemma AnswerExactIff(w: Width, s: seq<Order>, side: Side, qty: int)
    requires SideInv(s, side) && s != [] && 0 < qty <= MAX_INT
    ensures QuoteRight(w, s, qty) <==> QuoteFits(w, s, qty)
    ensures w.Bits32? && !Understated(s, qty) ==>
              (QuoteFits(w, s, qty) <==> Served(s, qty) && CostOf(s, qty) <= MAX_INT)
  {
    hide Wrap32, Answer32, Counts, Counted, CostOf;
    CostPositive(s, qty);
    AnswerIsCounted(s, qty, 0);
    ServedIsCounted(s, qty);
    WrapKeepsIff(CostOf(s, qty));
  }

  /**
   The query fails its contracts exactly when a level counts for nothing or the cost, kept to 32 bits,
   is not positive.
   */
  lemma AnswerFailsIff(s: seq<Order>, side: Side, qty: int)
    requires SideInv(s, side) && s != [] && 0 < qty <= MAX_INT
    ensures Answer(Bits32, s, qty).None? <==> !Counts(s, qty) || Wrap32(Counted(s, qty)) <= 0
    ensures !Understated(s, qty) ==>
              (Answer(Bits32, s, qty).None? <==> !Served(s, qty) || Wrap32(CostOf(s, qty)) <= 0)
  {
    hide Wrap32, Answer32, Counts, Counted, CostOf;
    AnswerIsCounted(s, qty, 0);
    ServedIsCounted(s, qty);
  }

  /** An exact answer is always right. */
  lemma ExactQuoteIsRight(s: seq<Order>, side: Side, qty: int)
    requires SideInv(s, side) && s != [] && qty > 0
    ensures QuoteRight(Exact, s, qty)
  {
    CostPositive(s, qty);
  }

  /** Where no price holds more than 32 bits can count, every quantity is served. */
  lemma {:induction false} FittingLevelsServe(s: seq<Order>, qty: int)
    requires PositiveQty(s) && LevelsFit(s)
    ensures Served(s, qty) && !Understated(s, qty)
    decreases |s|
  {
    hide Wrap32, LevelsFit;
    if s != [] && qty > 0 {
      FrontFits(s);
      var n := Leading(s, s[0].price);
      WrapKeepsIff(TotalQty(s[..n]));
      FittingLevelsServe(s[n..], qty - TotalQty(s[..n]));
    }
  }

  /** An answer that is given is positive. */
  lemma {:induction false} AnswerPositive(s: seq<Order>, qty: int, total: int)
    ensures Answer32(s, qty, total).Some? ==> Answer32(s, qty, total).value > 0
    decreases |s|
  {
    hide Wrap32;
    if s != [] && qty != 0 {
      var n := Leading(s, s[0].price);
      var sum := Wrap32(TotalQty(s[..n]));
      AnswerPositive(s[n..], qty - sum, Wrap32(total + Wrap32(s[0].price * sum)));
    }
  }

  lemma QuotePositive(w: Width, b: Book, qty: int, side: Side)
    ensures Quote(w, b, qty, side).Some? ==> Quote(w, b, qty, side).value > 0
  {
    AnswerPositive(SideOf(b, side), qty, 0);
  }

  // ---------------------------------------------------------------- inputs

  /** Four shares at 2^30 + 1 cost 2^32 + 4; the answer is 4. */
  lemma AnswerWraps()
    ensures var s := [Order(0, 0x4000_0001, 4, Ask, "ann")];
            && SideInv(s, Ask) && LevelsFit(s)
            && CostOf(s, 4) == 0x1_0000_0004 && Answer32(s, 4, 0) == Some(4)
  {
    var s := [Order(0, 0x4000_0001, 4, Ask, "ann")];
    assert s[1..] == [];
    forall p ensures QtyAtPrice(s, p) <= MAX_INT {}
    assert Leading(s, 0x4000_0001) == 1 && s[..1] == s && TotalQty(s) == 4;
    assert Answer32(s[1..], 0, 4) == Some(4);
  }

  /** Two asks that fill 32 bits each at one price: the level sum turns negative and the engine stops. */
  lemma LevelSumWraps()
    ensures var s := [Order(0, 1, MAX_INT, Ask, "ann"), Order(1, 1, MAX_INT, Ask, "ann")];
            SideInv(s, Ask) && CostOf(s, 5) == 5 && Answer32(s, 5, 0) == None
  {
    var s := [Order(0, 1, MAX_INT, Ask, "ann"), Order(1, 1, MAX_INT, Ask, "ann")];
    assert s[1..] == [s[1]] && s[1..][1..] == [];
    assert TotalQty(s[1..]) == MAX_INT;
    assert Leading(s, 1) == 2 && s[..2] == s && TotalQty(s) == 2 * MAX_INT;
  }

  /** One price that holds 2^32 + 1 units counts for one. A query for two is answered with half its cost. */
  lemma UnderstatedIsWrong()
    ensures var s := Crowd(1);
            SideInv(s, Ask) && Understated(s, 2) && CostOf(s, 2) == 2 && Answer32(s, 2, 0) == Some(1)
  {
    var s := Crowd(1);
    CrowdIsOne([]);
    assert s + [] == s && s[3..] == [];
  }

  /** With one more unit at twice the price behind it, a query for three is answered right by accident. */
  lemma UnderstatedByAccident()
    ensures var s := Crowd(1) + [Order(3, 2, 1, Ask, "ann")];
            SideInv(s, Ask) && Understated(s, 3) && QuoteRight(Bits32, s, 3)
  {
    var last := [Order(3, 2, 1, Ask, "ann")];
    var s := Crowd(1) + last;
    CrowdIsOne(last);
    assert s[3..] == last && last[1..] == [] && last[..1] == last;
    assert Leading(last, 2) == 1 && TotalQty(last) == 1;
    assert Answer32(last, 2, 1) == Answer32([], 1, 3);
    assert CostOf(s, 3) == 3;
  }

  /** Three asks at one price, 2^32 + 1 units together. */
  function Crowd(price: int): seq<Order> {
    [Order(0, price, MAX_INT, Ask, "ann"), Order(1, price, MAX_INT, Ask, "ann"), Order(2, price, 3, Ask, "ann")]
  }

  lemma CrowdIsOne(rest: seq<Order>)
    requires rest != [] ==> rest[0].price != 1
    ensures var s := Crowd(1) + rest;
            && Leading(s, 1) == 3 && s[..3] == Crowd(1) && s[3..] == rest
            && TotalQty(Crowd(1)) == 0x1_0000_0001 && Wrap32(TotalQty(Crowd(1))) == 1
  {
    var c, s := Crowd(1), Crowd(1) + rest;
    assert c[1..] == [c[1], c[2]] && c[1..][1..] == [c[2]] && c[1..][1..][1..] == [];
    assert TotalQty([c[2]]) == 3 && TotalQty([c[1], c[2]]) == MAX_INT + 3;
    assert s[1..] == [c[1], c[2]] + rest && s[1..][1..] == [c[2]] + rest && s[1..][1..][1..] == rest;
    assert Leading(rest, 1) == 0 && Leading([c[2]] + rest, 1) == 1 && Leading([c[1], c[2]] + rest, 1) == 2;
  }
}
