/**
 The order book as the matching engine stores it: price levels in ascending order, each a FIFO
 list, and an id index into those lists. Every operation is proved against the flat book.
 */
module OrderBook {
  import opened Common
  import opened BookSpec
  import opened BookCost

  datatype Level = Level(price: int, orders: seq<Order>)

  /** What the index reads through a list iterator before it unlinks the node. */
  datatype Location = Location(side: Side, price: int)

  datatype LevelAggregate = LevelAggregate(price: int, quantity: int)

  datatype TopLevels = TopLevels(bids: seq<LevelAggregate>, asks: seq<LevelAggregate>)


  // ---------------------------------------------------------------- levels and priority

  /** The orders of one side, best first: low prices first for asks, high prices first for bids. */
  function Priority(ls: seq<Level>, side: Side): seq<Order> {
    if ls == [] then []
    else if side == Ask then ls[0].orders + Priority(ls[1..], side)
    else Priority(ls[1..], side) + ls[0].orders
  }

  predicate LevelOk(l: Level, side: Side) {
    && l.orders != []
    && forall i :: 0 <= i < |l.orders| ==> OrderOk(l.orders[i], side) && l.orders[i].price == l.price
  }

  predicate LevelsOk(ls: seq<Level>, side: Side) {
    && (forall i :: 0 <= i < |ls| ==> LevelOk(ls[i], side))
    && (forall i, j :: 0 <= i < j < |ls| ==> ls[i].price < ls[j].price)
  }

  /** Where the level of a given rank sits: `std::next(begin, rank)` or `std::prev(end, rank + 1)`. */
  function RankIndex(ls: seq<Level>, side: Side, rank: int): (i: int)
    requires 0 <= rank < |ls|
    ensures 0 <= i < |ls|
  {
    if side == Ask then rank else |ls| - 1 - rank
  }

  /** The levels of rank `rank` and worse. */
  function FromRank(ls: seq<Level>, side: Side, rank: int): seq<Level>
    requires 0 <= rank <= |ls|
  {
    if side == Ask then ls[rank..] else ls[..|ls| - rank]
  }

  lemma {:induction false} PriorityConcat(a: seq<Level>, b: seq<Level>, side: Side)
    ensures side == Ask ==> Priority(a + b, side) == Priority(a, side) + Priority(b, side)
    ensures side == Bid ==> Priority(a + b, side) == Priority(b, side) + Priority(a, side)
  {
    if a == [] {
      assert a + b == b;
    } else {
      PriorityConcat(a[1..], b, side);
      assert (a + b)[1..] == a[1..] + b;
      var h, x, y := a[0].orders, Priority(a[1..], side), Priority(b, side);
      if side == Ask {
        assert h + (x + y) == (h + x) + y;
      } else {
        assert (y + x) + h == y + (x + h);
      }
    }
  }

  lemma {:induction false} PriorityOne(l: Level, side: Side)
    ensures Priority([l], side) == l.orders
  {
    assert [l][1..] == [];
  }

  /** The queue around one level. */
  lemma {:induction false} PrioritySplit(lo: seq<Level>, l: Level, hi: seq<Level>, side: Side)
    ensures side == Ask ==>
              Priority(lo + [l] + hi, side) == Priority(lo, side) + (l.orders + Priority(hi, side))
    ensures side == Bid ==>
              Priority(lo + [l] + hi, side) == Priority(hi, side) + (l.orders + Priority(lo, side))
  {
    PriorityConcat(lo + [l], hi, side);
    PriorityConcat(lo, [l], side);
    PriorityOne(l, side);
    var a, b, c := Priority(lo, side), l.orders, Priority(hi, side);
    assert (a + b) + c == a + (b + c);
    assert c + (b + a) == c + b + a;
  }

  /** The queue from a rank on starts with the level of that rank. */
  lemma {:induction false} PriorityFromRank(ls: seq<Level>, side: Side, rank: int)
    requires 0 <= rank < |ls|
    ensures Priority(FromRank(ls, side, rank), side) ==
            ls[RankIndex(ls, side, rank)].orders + Priority(FromRank(ls, side, rank + 1), side)
  {
    var f, i := FromRank(ls, side, rank), RankIndex(ls, side, rank);
    if side == Ask {
      assert f[1..] == ls[rank + 1..];
    } else {
      assert f == FromRank(ls, side, rank + 1) + [ls[i]];
      PriorityConcat(FromRank(ls, side, rank + 1), [ls[i]], side);
      PriorityOne(ls[i], side);
    }
  }

  /** Replacing the best level replaces the front of the queue. */
  lemma {:induction false} PriorityBest(ls: seq<Level>, side: Side, l: Level)
    requires ls != []
    ensures Priority(ls, side) == ls[RankIndex(ls, side, 0)].orders + Priority(FromRank(ls, side, 1), side)
    ensures Priority(ls[RankIndex(ls, side, 0) := l], side) == l.orders + Priority(FromRank(ls, side, 1), side)
  {
    var ls' := ls[RankIndex(ls, side, 0) := l];
    PriorityFromRank(ls, side, 0);
    PriorityFromRank(ls', side, 0);
    assert FromRank(ls, side, 0) == ls && FromRank(ls', side, 0) == ls';
    assert FromRank(ls, side, 1) == FromRank(ls', side, 1);
  }

  /** Every order of the queue sits in some level, and the other way round. */
  lemma {:induction false} PriorityMembers(ls: seq<Level>, side: Side, o: Order)
    ensures o in Priority(ls, side) <==> exists i :: 0 <= i < |ls| && o in ls[i].orders
  {
    if ls != [] {
      PriorityMembers(ls[1..], side, o);
      if o in Priority(ls[1..], side) {
        var i :| 0 <= i < |ls[1..]| && o in ls[1..][i].orders;
        assert o in ls[i + 1].orders;
      }
      if i :| 0 <= i < |ls| && o in ls[i].orders {
        if i > 0 { assert o in ls[1..][i - 1].orders; }
      }
    }
  }

  /** A level bound is a bound on the orders of the queue. */
  lemma {:induction false} PriorityAbove(ls: seq<Level>, side: Side, p: int)
    requires LevelsOk(ls, side) && forall i :: 0 <= i < |ls| ==> p < ls[i].price
    ensures forall k :: 0 <= k < |Priority(ls, side)| ==> p < Priority(ls, side)[k].price
  {
    var s := Priority(ls, side);
    forall k | 0 <= k < |s| ensures p < s[k].price {
      assert s[k] in s;
      PriorityMembers(ls, side, s[k]);
      var i :| 0 <= i < |ls| && s[k] in ls[i].orders;
      assert LevelOk(ls[i], side);
    }
  }

  // ---------------------------------------------------------------- resting at a level

  /** `near_side[price].emplace(end)`: extend the level of that price, or create it in place. */
  function Emplace(ls: seq<Level>, o: Order): seq<Level> {
    if ls == [] || o.price < ls[0].price then [Level(o.price, [o])] + ls
    else if ls[0].price == o.price then [Level(o.price, ls[0].orders + [o])] + ls[1..]
    else [ls[0]] + Emplace(ls[1..], o)
  }

  lemma {:induction false} RestSkips(a: seq<Order>, b: seq<Order>, o: Order)
    requires forall i :: 0 <= i < |a| ==> AtLeastAsGood(o.side, a[i].price, o.price)
    ensures Rest(a + b, o) == a + Rest(b, o)
  {
    if a == [] {
      assert a + b == b;
    } else {
      assert (a + b)[1..] == a[1..] + b;
      RestSkips(a[1..], b, o);
    }
  }

  lemma {:induction false} RestStopsBefore(a: seq<Order>, b: seq<Order>, o: Order)
    requires b == [] || !AtLeastAsGood(o.side, b[0].price, o.price)
    ensures Rest(a + b, o) == Rest(a, o) + b
  {
    if a == [] {
      assert a + b == b;
    } else if AtLeastAsGood(o.side, a[0].price, o.price) {
      assert (a + b)[1..] == a[1..] + b;
      RestStopsBefore(a[1..], b, o);
    }
  }

  lemma {:induction false} LevelsTail(ls: seq<Level>, side: Side)
    requires LevelsOk(ls, side) && ls != []
    ensures LevelsOk(ls[1..], side) && forall i :: 0 <= i < |ls[1..]| ==> ls[0].price < ls[1..][i].price
  {
    assert forall i :: 0 <= i < |ls[1..]| ==> ls[1..][i] == ls[i + 1];
  }

  predicate AllAbove(ls: seq<Level>, p: int) {
    forall i :: 0 <= i < |ls| ==> p < ls[i].price
  }

  lemma {:induction false} LevelsPositive(ls: seq<Level>, side: Side)
    requires LevelsOk(ls, side)
    ensures AllAbove(ls, 0)
  {
    forall i | 0 <= i < |ls| ensures 0 < ls[i].price {
      assert LevelOk(ls[i], side);
      assert OrderOk(ls[i].orders[0], side);
    }
  }

  lemma {:induction false} EmplaceKeepsLevels(ls: seq<Level>, o: Order, p: int)
    requires LevelsOk(ls, o.side) && OrderOk(o, o.side) && AllAbove(ls, p) && p < o.price
    ensures LevelsOk(Emplace(ls, o), o.side) && AllAbove(Emplace(ls, o), p)
  {
    if ls != [] {
      LevelsTail(ls, o.side);
      assert LevelOk(ls[0], o.side);
      if ls[0].price < o.price { EmplaceKeepsLevels(ls[1..], o, ls[0].price); }
    }
  }

  /** Emplacing in the ordered map is queueing behind equal or better prices in the flat book. */
  lemma {:induction false} EmplaceIsRest(ls: seq<Level>, o: Order)
    requires LevelsOk(ls, o.side) && OrderOk(o, o.side)
    ensures Priority(Emplace(ls, o), o.side) == Rest(Priority(ls, o.side), o)
    decreases |ls|, 1
  {
    var ls' := Emplace(ls, o);
    if ls == [] {
      assert ls'[1..] == [];
    } else {
      LevelsTail(ls, o.side);
      PriorityAbove(ls[1..], o.side, ls[0].price);
      assert LevelOk(ls[0], o.side);
      var head, tail := ls[0].orders, Priority(ls[1..], o.side);
      if o.side == Bid {
        EmplaceIsRestBid(ls, o, head, tail);
      } else if o.price < ls[0].price {
        assert ls'[1..] == ls;
      } else {
        assert ls'[1..] == if o.price == ls[0].price then ls[1..] else Emplace(ls[1..], o);
        RestSkips(head, tail, o);
        if o.price > ls[0].price { EmplaceIsRest(ls[1..], o); }
      }
    }
  }

  lemma {:induction false} EmplaceIsRestBid(ls: seq<Level>, o: Order, head: seq<Order>, tail: seq<Order>)
    requires LevelsOk(ls, o.side) && OrderOk(o, o.side) && o.side == Bid && ls != []
    requires head == ls[0].orders && tail == Priority(ls[1..], Bid)
    requires forall i :: 0 <= i < |tail| ==> ls[0].price < tail[i].price
    ensures Priority(Emplace(ls, o), Bid) == Rest(Priority(ls, Bid), o)
    decreases |ls|, 0
  {
    var ls' := Emplace(ls, o);
    assert LevelOk(ls[0], Bid);
    if o.price <= ls[0].price {
      assert ls'[1..] == if o.price < ls[0].price then ls else ls[1..];
      RestSkips(tail + head, [], o);
      assert tail + head + [] == tail + head;
      assert tail + (head + [o]) == tail + head + [o];
    } else {
      assert ls'[1..] == Emplace(ls[1..], o);
      LevelsTail(ls, Bid);
      EmplaceIsRest(ls[1..], o);
      RestStopsBefore(tail, head, o);
    }
  }

  // ---------------------------------------------------------------- unlinking from a level

  /** Unlink node `j` of level `i`, and the level with it when it becomes empty. */
  function Unlink(ls: seq<Level>, i: int, j: int): seq<Level>
    requires 0 <= i < |ls| && 0 <= j < |ls[i].orders|
  {
    var orders := ls[i].orders[..j] + ls[i].orders[j + 1..];
    if orders == [] then ls[..i] + ls[i + 1..] else ls[i := Level(ls[i].price, orders)]
  }

  lemma {:induction false} RemoveConcat(a: seq<Order>, b: seq<Order>, id: int)
    ensures Remove(a + b, id) == Remove(a, id) + Remove(b, id)
  {
    if a == [] {
      assert a + b == b;
    } else {
      assert (a + b)[1..] == a[1..] + b;
      RemoveConcat(a[1..], b, id);
    }
  }

  lemma {:induction false} RemoveAbsent(s: seq<Order>, id: int)
    requires forall i :: 0 <= i < |s| ==> s[i].id != id
    ensures Remove(s, id) == s
  {
    if s != [] { RemoveAbsent(s[1..], id); }
  }

  lemma {:induction false} RemoveUnique(s: seq<Order>, j: int)
    requires UniqueIds(s) && 0 <= j < |s|
    ensures Remove(s, s[j].id) == s[..j] + s[j + 1..]
  {
    assert s == s[..j] + ([s[j]] + s[j + 1..]);
    RemoveConcat(s[..j], [s[j]] + s[j + 1..], s[j].id);
    RemoveAbsent(s[..j], s[j].id);
    assert ([s[j]] + s[j + 1..])[1..] == s[j + 1..];
    RemoveAbsent(s[j + 1..], s[j].id);
  }

  lemma {:induction false} UnlinkKeepsLevels(ls: seq<Level>, side: Side, i: int, j: int)
    requires LevelsOk(ls, side) && 0 <= i < |ls| && 0 <= j < |ls[i].orders|
    ensures LevelsOk(Unlink(ls, i, j), side)
  {
    var orders := ls[i].orders[..j] + ls[i].orders[j + 1..];
    assert LevelOk(ls[i], side);
    if orders == [] {
      var r := ls[..i] + ls[i + 1..];
      assert forall k :: 0 <= k < |r| ==> r[k] == if k < i then ls[k] else ls[k + 1];
    } else {
      assert forall k :: 0 <= k < |orders| ==> orders[k] == ls[i].orders[if k < j then k else k + 1];
      assert LevelOk(Level(ls[i].price, orders), side);
    }
  }

  lemma {:induction false} AbsentElsewhere(ls: seq<Level>, side: Side, id: int)
    requires forall k, o :: 0 <= k < |ls| && o in ls[k].orders ==> o.id != id
    ensures Remove(Priority(ls, side), id) == Priority(ls, side)
  {
    var s := Priority(ls, side);
    forall k | 0 <= k < |s| ensures s[k].id != id {
      assert s[k] in s;
      PriorityMembers(ls, side, s[k]);
    }
    RemoveAbsent(s, id);
  }

  lemma {:induction false} RemoveMiddle(a: seq<Order>, b: seq<Order>, c: seq<Order>, id: int)
    requires Remove(a, id) == a && Remove(c, id) == c
    ensures Remove(a + (b + c), id) == a + (Remove(b, id) + c)
  {
    RemoveConcat(a, b + c, id);
    RemoveConcat(b, c, id);
  }

  /** Unlinking one node is removing its id from the flat side, if no other level holds that id. */
  lemma {:induction false} UnlinkIsRemove(ls: seq<Level>, side: Side, i: int, j: int)
    requires 0 <= i < |ls| && 0 <= j < |ls[i].orders| && UniqueIds(ls[i].orders)
    requires forall k, o :: 0 <= k < |ls| && k != i && o in ls[k].orders ==> o.id != ls[i].orders[j].id
    ensures Priority(Unlink(ls, i, j), side) == Remove(Priority(ls, side), ls[i].orders[j].id)
  {
    hide Priority, Remove;
    var id := ls[i].orders[j].id;
    var orders := ls[i].orders[..j] + ls[i].orders[j + 1..];
    var lo, hi, mid := ls[..i], ls[i + 1..], Level(ls[i].price, orders);
    assert ls == lo + [ls[i]] + hi;
    RemoveUnique(ls[i].orders, j);
    AbsentElsewhere(lo, side, id);
    AbsentElsewhere(hi, side, id);
    var a, c := Priority(lo, side), Priority(hi, side);
    PrioritySplit(lo, ls[i], hi, side);
    RemoveMiddle(a, ls[i].orders, c, id);
    RemoveMiddle(c, ls[i].orders, a, id);
    PrioritySplit(lo, mid, hi, side);
    if orders == [] {
      PriorityConcat(lo, hi, side);
      assert [] + c == c && [] + a == a;
    } else {
      assert ls[i := mid] == lo + [mid] + hi;
    }
  }

  // ---------------------------------------------------------------- level aggregates

  lemma {:induction false} NoneAtPrice(ls: seq<Level>, side: Side, p: int)
    requires forall k, o :: 0 <= k < |ls| && o in ls[k].orders ==> o.price != p
    ensures QtyAtPrice(Priority(ls, side), p) == 0
  {
    var s := Priority(ls, side);
    forall k | 0 <= k < |s| ensures s[k].price != p {
      assert s[k] in s;
      PriorityMembers(ls, side, s[k]);
    }
    QtyAtPriceUniform(s, p, false);
  }

  /** The units in a level are all the units the flat side has at that price. */
  lemma {:induction false} LevelHoldsPrice(ls: seq<Level>, side: Side, i: int)
    requires LevelsOk(ls, side) && 0 <= i < |ls|
    ensures QtyAtPrice(Priority(ls, side), ls[i].price) == TotalQty(ls[i].orders) > 0
  {
    var lo, hi, p := ls[..i], ls[i + 1..], ls[i].price;
    assert LevelOk(ls[i], side);
    assert ls == lo + [ls[i]] + hi;
    PrioritySplit(lo, ls[i], hi, side);
    var a, b, c := Priority(lo, side), ls[i].orders, Priority(hi, side);
    forall k, o | 0 <= k < |ls| && k != i && o in ls[k].orders ensures o.price != p {
      assert LevelOk(ls[k], side);
    }
    NoneAtPrice(lo, side, p);
    NoneAtPrice(hi, side, p);
    QtyAtPriceUniform(b, p, true);
    TotalQtyPositive(b);
    QtyAtPriceConcat(a, b + c, p);
    QtyAtPriceConcat(b, c, p);
    QtyAtPriceConcat(c, b + a, p);
    QtyAtPriceConcat(b, a, p);
  }

  // ---------------------------------------------------------------- the matching loop

  /** Matching from the start equals what is done so far followed by matching what is left. */
  ghost predicate Progress(all: seq<Order>, t: Taker, qty: int, done: seq<Trade>, far: seq<Order>, left: int) {
    var r := Match(far, t, left);
    Match(all, t, qty) == MatchResult(done + r.trades, r.far, r.left)
  }

  /** The next trade is one of the trades of the whole match. */
  lemma NextTradeFits(all: seq<Order>, t: Taker, qty: int, done: seq<Trade>, far: seq<Order>, left: int)
    requires Progress(all, t, qty, done, far, left) && AllFit(Match(all, t, qty).trades)
    requires far != [] && left > 0 && Crosses(t.side, t.limit, far[0].price)
    ensures TickerFits(t.ticker) && NameFits(t.trader) && NameFits(far[0].trader)
  {
    var r := Match(far, t, left);
    assert Match(all, t, qty).trades[|done|] == r.trades[0];
    assert r.trades[0] == MakeTrade(t, far[0], r.trades[0].qty);
  }

  lemma {:induction false} ProgressStart(all: seq<Order>, t: Taker, qty: int)
    ensures Progress(all, t, qty, [], all, qty)
  {
    assert [] + Match(all, t, qty).trades == Match(all, t, qty).trades;
  }

  lemma {:induction false} ProgressFull(
    all: seq<Order>, t: Taker, qty: int, done: seq<Trade>, far: seq<Order>, left: int)
    requires Progress(all, t, qty, done, far, left)
    requires far != [] && left > 0 && Crosses(t.side, t.limit, far[0].price) && left >= far[0].qty
    ensures Progress(all, t, qty, done + [MakeTrade(t, far[0], far[0].qty)], far[1..], left - far[0].qty)
  {
    var r := Match(far[1..], t, left - far[0].qty);
    var tr := MakeTrade(t, far[0], far[0].qty);
    assert done + ([tr] + r.trades) == (done + [tr]) + r.trades;
  }

  lemma {:induction false} ProgressPartial(
    all: seq<Order>, t: Taker, qty: int, done: seq<Trade>, far: seq<Order>, left: int)
    requires Progress(all, t, qty, done, far, left)
    requires far != [] && left > 0 && Crosses(t.side, t.limit, far[0].price) && left < far[0].qty
    ensures Progress(all, t, qty, done + [MakeTrade(t, far[0], left)],
                     [far[0].(qty := far[0].qty - left)] + far[1..], 0)
  {
    var tr := MakeTrade(t, far[0], left);
    assert (done + [tr]) + [] == done + [tr];
  }

  lemma {:induction false} ProgressDone(
    all: seq<Order>, t: Taker, qty: int, done: seq<Trade>, far: seq<Order>, left: int)
    requires Progress(all, t, qty, done, far, left)
    requires far == [] || left <= 0 || !Crosses(t.side, t.limit, far[0].price)
    ensures Match(all, t, qty) == MatchResult(done, far, left)
  {
    assert done + [] == done;
  }

  /** The index holds exactly the ids of two queues, each with its order's side and price. */
  ghost predicate Indexes(m: map<int, Location>, near: seq<Order>, far: seq<Order>) {
    && (forall id :: id in m <==> HasId(near, id) || HasId(far, id))
    && (forall i :: 0 <= i < |near| ==> near[i].id in m && m[near[i].id] == Location(near[i].side, near[i].price))
    && (forall i :: 0 <= i < |far| ==> far[i].id in m && m[far[i].id] == Location(far[i].side, far[i].price))
  }

  ghost predicate Distinct(near: seq<Order>, far: seq<Order>) {
    UniqueIds(near) && UniqueIds(far) && Disjoint(near, far)
  }

  lemma {:induction false} IndexDropFirst(m: map<int, Location>, near: seq<Order>, far: seq<Order>)
    requires Indexes(m, near, far) && Distinct(near, far) && far != []
    ensures Indexes(m - {far[0].id}, near, far[1..]) && Distinct(near, far[1..])
  {
    var rest := far[1..];
    assert forall i :: 0 <= i < |rest| ==> rest[i] == far[i + 1];
    forall id
      ensures HasId(rest, id) <==> HasId(far, id) && id != far[0].id
    {
      if i :| 0 <= i < |far| && far[i].id == id { if i > 0 { assert rest[i - 1].id == id; } }
      if i :| 0 <= i < |rest| && rest[i].id == id { assert far[i + 1].id == id; }
    }
    forall i | 0 <= i < |near| ensures near[i].id != far[0].id {}
    assert !HasId(near, far[0].id);
  }

  lemma {:induction false} IndexHasFirst(m: map<int, Location>, near: seq<Order>, far: seq<Order>)
    requires Indexes(m, near, far) && far != []
    ensures far[0].id in m
  {
  }

  lemma {:induction false} IndexShrinkFirst(m: map<int, Location>, near: seq<Order>, far: seq<Order>, q: int)
    requires Indexes(m, near, far) && Distinct(near, far) && far != []
    ensures var far' := [far[0].(qty := q)] + far[1..];
            Indexes(m, near, far') && Distinct(near, far')
  {
    var far' := [far[0].(qty := q)] + far[1..];
    assert forall i :: 0 <= i < |far| ==> far'[i] == if i == 0 then far[0].(qty := q) else far[i];
    forall id
      ensures HasId(far', id) <==> HasId(far, id)
    {
      if i :| 0 <= i < |far| && far[i].id == id { assert far'[i].id == id; }
      if i :| 0 <= i < |far'| && far'[i].id == id { assert far[i].id == id; }
    }
  }

  lemma {:induction false} IndexRest(m: map<int, Location>, near: seq<Order>, far: seq<Order>, o: Order)
    requires Indexes(m, near, far) && Distinct(near, far) && o.id !in m
    requires SideInv(near, o.side) && OrderOk(o, o.side)
    ensures Indexes(m[o.id := Location(o.side, o.price)], Rest(near, o), far)
    ensures Distinct(Rest(near, o), far)
  {
    RestKeepsNear(near, o);
    var n := Rest(near, o);
    assert !HasId(far, o.id);
    RestDisjoint(near, o, far);
    forall id ensures HasId(n, id) <==> HasId(near, id) || id == o.id { RestHasId(near, o, id); }
    forall i | 0 <= i < |n|
      ensures n[i] == o || (n[i] in near && n[i].id != o.id)
    { assert n[i] in n; if n[i] in near { var k :| 0 <= k < |near| && near[k] == n[i]; } }
    forall i | 0 <= i < |far| ensures far[i].id != o.id {}
  }

  lemma {:induction false} RemoveHasId(s: seq<Order>, id: int, j: int)
    ensures HasId(Remove(s, id), j) <==> HasId(s, j) && j != id
    ensures forall i :: 0 <= i < |Remove(s, id)| ==> Remove(s, id)[i] in s && Remove(s, id)[i].id != id
  {
    RemoveKeeps(s, id);
    var r := Remove(s, id);
    forall i | 0 <= i < |r| ensures r[i] in s && r[i].id != id { assert r[i] in r; }
    if HasId(s, j) && j != id {
      var i :| 0 <= i < |s| && s[i].id == j;
      assert s[i] in r;
    }
  }

  lemma {:induction false} IndexCancel(m: map<int, Location>, bids: seq<Order>, asks: seq<Order>, id: int)
    requires Indexes(m, bids, asks)
    ensures Indexes(m - {id}, Remove(bids, id), Remove(asks, id))
  {
    forall j
      ensures HasId(Remove(bids, id), j) <==> HasId(bids, j) && j != id
      ensures HasId(Remove(asks, id), j) <==> HasId(asks, j) && j != id
    {
      RemoveHasId(bids, id, j);
      RemoveHasId(asks, id, j);
    }
    RemoveHasId(bids, id, id);
    RemoveHasId(asks, id, id);
  }

  lemma {:induction false} IndexSwap(m: map<int, Location>, a: seq<Order>, b: seq<Order>)
    requires Indexes(m, a, b)
    ensures Indexes(m, b, a)
  {
    assert forall id :: id in m <==> HasId(b, id) || HasId(a, id);
  }

  // ---------------------------------------------------------------- the book object

  /** The trade queue that every book of one engine appends to. */
  class TradeQueue {
    var items: seq<Trade>

    constructor ()
      ensures items == []
    {
      items := [];
    }
  }

  class LimitOrderBook {
    const ticker: string
    const tradeEvents: TradeQueue
    var bids: seq<Level>
    var asks: seq<Level>
    var orderIdMap: map<int, Location>

    function Contents(): Book
      reads this
    {
      Book(Priority(bids, Bid), Priority(asks, Ask))
    }

    /**
     No empty level, levels strictly ascending, every order in the level of its price and on its
     side, the index a bijection onto the resting orders, and the flat book in order and uncrossed.
     */
    ghost predicate Valid()
      reads this
    {
      && ticker != ""
      && LevelsOk(bids, Bid) && LevelsOk(asks, Ask)
      && BookInv(Contents())
      && Indexes(orderIdMap, Contents().bids, Contents().asks)
    }

    constructor (ticker: string, tradeEvents: TradeQueue)
      requires ticker != ""
      ensures Valid() && Contents() == EMPTY_BOOK
      ensures this.ticker == ticker && this.tradeEvents == tradeEvents
    {
      this.ticker, this.tradeEvents := ticker, tradeEvents;
      bids, asks, orderIdMap := [], [], map[];
    }

    method AddOrder(orderId: int, price: int, quantity: int, side: Side, brokerId: string)
      requires Valid()
      requires Takes(Contents(), Taker(orderId, side, price, brokerId, ticker), quantity)
      modifies this`bids, this`asks, this`orderIdMap, tradeEvents
      ensures Valid()
      ensures Contents() == Add(old(Contents()), Taker(orderId, side, price, brokerId, ticker), quantity)
      ensures tradeEvents.items ==
              old(tradeEvents.items)
              + AddMatch(old(Contents()), Taker(orderId, side, price, brokerId, ticker), quantity).trades
    {
      ghost var t := Taker(orderId, side, price, brokerId, ticker);
      AddKeepsInv(Contents(), t, quantity);
      if side == Bid {
        bids, asks := MatchOrder(bids, asks, price, quantity, orderId, side, brokerId);
      } else {
        IndexSwap(orderIdMap, Contents().bids, Contents().asks);
        var near, far := MatchOrder(asks, bids, price, quantity, orderId, side, brokerId);
        asks, bids := near, far;
        IndexSwap(orderIdMap, Contents().asks, Contents().bids);
      }
    }

    /** The inner loop: eat one price level from its front. The last five arguments are the proof's. */
    method MatchLevel(levelOrders: seq<Order>, bestPrice: int, quantity: int, t: Taker,
                      ghost all: seq<Order>, ghost total: int, ghost queue: seq<Order>,
                      ghost rest: seq<Order>, ghost queued: seq<Trade>, ghost before: seq<Trade>)
      returns (orders: seq<Order>, remaining: int, ghost done: seq<Trade>)
      requires quantity > 0 && levelOrders != []
      requires t.id >= 0 && t.id !in orderIdMap && t.trader != "" && t.ticker == ticker && ticker != ""
      requires Crosses(t.side, t.limit, bestPrice)
      requires LevelOk(Level(bestPrice, levelOrders), Opposite(t.side))
      requires tradeEvents.items == queued + before && AllFit(Match(all, t, total).trades)
      requires Progress(all, t, total, before, levelOrders + rest, quantity)
      requires Distinct(queue, levelOrders + rest) && Indexes(orderIdMap, queue, levelOrders + rest)
      modifies this`orderIdMap, tradeEvents
      ensures 0 <= remaining < quantity && t.id !in orderIdMap
      ensures orders == [] || (remaining == 0 && LevelOk(Level(bestPrice, orders), Opposite(t.side)))
      ensures tradeEvents.items == queued + done
      ensures Progress(all, t, total, done, orders + rest, remaining)
      ensures Distinct(queue, orders + rest) && Indexes(orderIdMap, queue, orders + rest)
    {
      hide Progress, Indexes, Distinct;
      orders, remaining, done := levelOrders, quantity, before;
      while remaining > 0 && orders != []
        invariant 0 <= remaining <= quantity && (remaining == quantity ==> orders != [])
        invariant forall i :: 0 <= i < |orders| ==> OrderOk(orders[i], Opposite(t.side)) && orders[i].price == bestPrice
        invariant tradeEvents.items == queued + done
        invariant Progress(all, t, total, done, orders + rest, remaining)
        invariant Distinct(queue, orders + rest)
        invariant Indexes(orderIdMap, queue, orders + rest) && t.id !in orderIdMap
        decreases |orders|, remaining
      {
        var front := orders[0];
        ghost var f := orders + rest;
        assert f[0] == front && f[1..] == orders[1..] + rest;
        IndexHasFirst(orderIdMap, queue, f);
        NextTradeFits(all, t, total, done, f, remaining);
        if remaining >= front.qty {
          ProgressFull(all, t, total, done, f, remaining);
          IndexDropFirst(orderIdMap, queue, f);
          remaining := remaining - front.qty;
          var trade := CreateTrade(t.id, front.id, t.trader, front.trader, ticker, front.price, front.qty, t.side);
          tradeEvents.items := tradeEvents.items + [trade];
          done := done + [trade];
          orderIdMap := orderIdMap - {front.id};
          orders := orders[1..];
        } else {
          ProgressPartial(all, t, total, done, f, remaining);
          IndexShrinkFirst(orderIdMap, queue, f, front.qty - remaining);
          var trade := CreateTrade(t.id, front.id, t.trader, front.trader, ticker, front.price, remaining, t.side);
          tradeEvents.items := tradeEvents.items + [trade];
          done := done + [trade];
          orders := [front.(qty := front.qty - remaining)] + orders[1..];
          assert orders + rest == [front.(qty := front.qty - remaining)] + f[1..];
          remaining := 0;
        }
      }
    }

    method MatchOrder(nearSide: seq<Level>, farSide: seq<Level>, price: int, quantity: int,
                      orderId: int, side: Side, brokerId: string)
      returns (near: seq<Level>, far: seq<Level>)
      requires orderId >= 0 && orderId !in orderIdMap && quantity > 0 && brokerId != "" && ticker != ""
      requires price == MARKET_ASK_ORDER_PRICE || 0 < price <= MAX_INT
      requires LevelsOk(nearSide, side) && LevelsOk(farSide, Opposite(side))
      requires SideInv(Priority(nearSide, side), side)
      requires Distinct(Priority(nearSide, side), Priority(farSide, Opposite(side)))
      requires var t := Taker(orderId, side, price, brokerId, ticker);
               AllFit(Match(Priority(farSide, Opposite(side)), t, quantity).trades)
      requires Indexes(orderIdMap, Priority(nearSide, side), Priority(farSide, Opposite(side)))
      modifies this`orderIdMap, tradeEvents
      ensures LevelsOk(near, side) && LevelsOk(far, Opposite(side))
      ensures var t := Taker(orderId, side, price, brokerId, ticker);
              var r := Match(Priority(farSide, Opposite(side)), t, quantity);
              && tradeEvents.items == old(tradeEvents.items) + r.trades
              && Priority(far, Opposite(side)) == r.far
              && Priority(near, side) ==
                 if Rests(r.left, price)
                 then Rest(Priority(nearSide, side), Order(orderId, price, r.left, side, brokerId))
                 else Priority(nearSide, side)
      ensures Indexes(orderIdMap, Priority(near, side), Priority(far, Opposite(side)))
    {
      hide Progress, Indexes, Distinct, LevelsOk, Priority, SideInv;
      near, far := nearSide, farSide;
      var remaining := quantity;
      var t := Taker(orderId, side, price, brokerId, ticker);
      ghost var farSd := Opposite(side);
      ghost var all := Priority(farSide, farSd);
      ghost var queue := Priority(nearSide, side);
      ghost var done: seq<Trade> := [];
      ghost var queued := tradeEvents.items;
      ProgressStart(all, t, quantity);
      while far != [] && remaining > 0
        invariant 0 <= remaining
        invariant LevelsOk(far, farSd)
        invariant tradeEvents.items == queued + done
        invariant Progress(all, t, quantity, done, Priority(far, farSd), remaining)
        invariant Distinct(queue, Priority(far, farSd))
        invariant Indexes(orderIdMap, queue, Priority(far, farSd)) && orderId !in orderIdMap
        decreases |far|, remaining
      {
        var best := if side == Bid then 0 else |far| - 1;
        var bestPrice := far[best].price;
        LevelAt(far, farSd, best);
        PriorityBest(far, farSd, far[best]);
        if (side == Bid && price < bestPrice) || (side == Ask && price > bestPrice) {
          break;
        }
        ghost var rest := Priority(FromRank(far, farSd, 1), farSd);
        var orders;
        orders, remaining, done := MatchLevel(far[best].orders, bestPrice, remaining, t, all, quantity, queue,
            rest, queued, done);
        PriorityBest(far, farSd, Level(bestPrice, orders));
        if orders == [] {
          assert orders + rest == rest;
          WithoutBestOk(far, farSd);
          far := if side == Bid then far[1..] else far[..best];
        } else {
          WithBestOk(far, farSd, Level(bestPrice, orders));
          far := far[best := Level(bestPrice, orders)];
        }
      }
      if far != [] {
        PriorityBest(far, farSd, far[0]);
        LevelAt(far, farSd, RankIndex(far, farSd, 0));
      } else {
        NoLevels(farSd);
      }
      ProgressDone(all, t, quantity, done, Priority(far, farSd), remaining);
      if remaining > 0 && price != MARKET_BID_ORDER_PRICE && price != MARKET_ASK_ORDER_PRICE {
        var o := Order(orderId, price, remaining, side, brokerId);
        EmplaceIsRest(near, o);
        LevelsPositive(near, side);
        EmplaceKeepsLevels(near, o, 0);
        IndexRest(orderIdMap, queue, Priority(far, farSd), o);
        near := Emplace(near, o);
        orderIdMap := orderIdMap[orderId := Location(side, price)];
      }
    }

    predicate OrderIdExists(orderId: int)
      reads this
    {
      orderId in orderIdMap
    }

    /** The index answers for the flat book. */
    lemma OrderIdExistsIffResting(orderId: int)
      requires Valid()
      ensures OrderIdExists(orderId) <==> InBook(Contents(), orderId)
    {
    }

    method CancelOrder(orderId: int)
      requires Valid() && OrderIdExists(orderId)
      modifies this`bids, this`asks, this`orderIdMap
      ensures Valid() && !OrderIdExists(orderId)
      ensures Contents() == Cancel(old(Contents()), orderId)
    {
      hide LevelsOk, BookInv, Indexes, Cancel;
      var loc := orderIdMap[orderId];
      ghost var book := Contents();
      var i, j := FindNode(orderId, loc);
      CancelIsUnlink(orderIdMap, bids, asks, loc, orderId, i, j);
      if loc.side == Bid {
        bids := Unlink(bids, i, j);
      } else {
        asks := Unlink(asks, i, j);
      }
      orderIdMap := orderIdMap - {orderId};
    }

    /** Follow the index to the level of the order's price and to its node there. */
    method FindNode(orderId: int, loc: Location) returns (i: int, j: int)
      requires Valid() && orderId in orderIdMap && orderIdMap[orderId] == loc
      ensures 0 <= i < |GetSide(loc.side)| && GetSide(loc.side)[i].price == loc.price
      ensures 0 <= j < |GetSide(loc.side)[i].orders| && GetSide(loc.side)[i].orders[j].id == orderId
    {
      var levels := GetSide(loc.side);
      LocateOrder(orderIdMap, levels, GetSide(Opposite(loc.side)), loc, orderId);
      i :| 0 <= i < |levels| && levels[i].price == loc.price;
      j :| 0 <= j < |levels[i].orders| && levels[i].orders[j].id == orderId;
    }

    function GetSide(side: Side): seq<Level>
      reads this
    {
      if side == Bid then bids else asks
    }

    /** The best order is the head of the flat side. */
    method GetBestOrder(side: Side) returns (best: Option<Order>)
      requires Valid()
      ensures best == if SideOf(Contents(), side) == [] then None else Some(SideOf(Contents(), side)[0])
    {
      var levels := GetSide(side);
      if levels == [] {
        return None;
      }
      var i := if side == Bid then |levels| - 1 else 0;
      PriorityBest(levels, side, levels[i]);
      assert LevelOk(levels[i], side);
      return Some(levels[i].orders[0]);
    }

    /** None when the sum of the level, kept to 32 bits, fails the contract by not being positive. */
    method GetLevelAggregate(side: Side, level: int) returns (agg: Option<LevelAggregate>)
      requires Valid() && 0 <= level < |GetSide(side)|
      ensures agg == AggregateOf(GetSide(side), side, level)
    {
      hide LevelsOk, BookInv, Indexes, QtyAtPrice, Priority, Wrap32;
      var levels := GetSide(side);
      var i := if side == Bid then |levels| - (level + 1) else level;
      var orders := levels[i].orders;
      var quantity := 0;
      WrapKeepsIff(0);
      for k := 0 to |orders|
        invariant quantity == Wrap32(TotalQty(orders[..k]))
      {
        TotalQtyConcat(orders[..k], [orders[k]]);
        assert orders[..k + 1] == orders[..k] + [orders[k]];
        WrapSum(orders[k].qty, TotalQty(orders[..k]));
        quantity := Wrap32(quantity + orders[k].qty);
      }
      assert orders[..|orders|] == orders;
      LevelHoldsPrice(levels, side, i);
      LevelsPositive(levels, side);
      agg := if quantity > 0 then Some(LevelAggregate(levels[i].price, quantity)) else None;
    }

    /**
     The snapshot lists the best levels of each side, at most fifty, each with its quantity. An
     overlong ticker or a level sum that is not positive stops the engine instead.
     */
    method GetTopOrderBookLevelAggregate() returns (top: Option<TopLevels>)
      requires Valid()
      ensures top.Some? <==> SnapshotOk(Bits32, Contents(), ticker)
      ensures top.Some? ==> TopOf(top.value.bids, bids, Bid) && TopOf(top.value.asks, asks, Ask)
    {
      hide LevelsOk, BookInv, Indexes, Priority, TopSumsOk, TopOf;
      if !TickerFits(ticker) { return None; }
      var bidTop := GetTopLevels(Bid);
      var askTop := GetTopLevels(Ask);
      if bidTop.None? || askTop.None? { return None; }
      top := Some(TopLevels(bidTop.value, askTop.value));
    }

    method GetTopLevels(side: Side) returns (top: Option<seq<LevelAggregate>>)
      requires Valid()
      ensures top.Some? <==> TopSumsOk(SideOf(Contents(), side), ORDER_BOOK_AGGREGATE_LEVELS)
      ensures top.Some? ==> TopOf(top.value, GetSide(side), side)
    {
      hide LevelsOk, BookInv, Indexes, QtyAtPrice, Priority, TotalQty, FromRank, RankIndex, AggregateOf, TopSumsOk;
      var levels := GetSide(side);
      var list: seq<LevelAggregate> := [];
      var i := 0;
      WholeFromRank(levels, side);
      while i < ORDER_BOOK_AGGREGATE_LEVELS && i < |levels|
        invariant 0 <= i == |list| <= Min(ORDER_BOOK_AGGREGATE_LEVELS, |levels|)
        invariant forall k :: 0 <= k < i ==> AggregateOf(levels, side, k) == Some(list[k])
        invariant TopSumsOk(SideOf(Contents(), side), ORDER_BOOK_AGGREGATE_LEVELS) <==>
                  TopSumsOk(Priority(FromRank(levels, side, i), side), ORDER_BOOK_AGGREGATE_LEVELS - i)
      {
        var agg := GetLevelAggregate(side, i);
        TopFromRank(levels, side, i, ORDER_BOOK_AGGREGATE_LEVELS - i);
        if agg.None? { return None; }
        list := list + [agg.value];
        i := i + 1;
      }
      TopEnds(levels, side, i, ORDER_BOOK_AGGREGATE_LEVELS - i);
      top := Some(list);
    }

    /** The loop over level aggregates, in 32 bits. `stopped` is a failed contract on the way. */
    method GetFillCost(quantity: int, side: Side) returns (stopped: bool, cost: Option<int>)
      requires Valid() && quantity > 0
      ensures var s := SideOf(Contents(), side);
              && (stopped <==> s != [] && Answer32(s, quantity, 0).None?)
              && (!stopped ==> cost == if s == [] then None else Answer32(s, quantity, 0))
    {
      hide LevelsOk, BookInv, Indexes, QtyAtPrice, Answer32, Priority, TotalQty, FromRank, RankIndex, AggregateOf;
      hide Checked, Wrap32;
      var levels := GetSide(side);
      ghost var flat := SideOf(Contents(), side);
      WholeFromRank(levels, side);
      if levels == [] {
        return false, None;
      }
      var total, left := 0, quantity;
      var i := 0;
      while i < |levels|
        invariant 0 <= i <= |levels| && 0 <= left
        invariant Answer32(flat, quantity, 0) == Answer32(Priority(FromRank(levels, side, i), side), left, total)
      {
        if left == 0 {
          break;
        }
        var agg := GetLevelAggregate(side, i);
        AnswerFromRank(levels, side, i, left, total);
        if agg.None? {
          return true, None;
        }
        if agg.value.quantity <= left {
          total := Wrap32(total + Wrap32(agg.value.price * agg.value.quantity));
          left := left - agg.value.quantity;
        } else {
          total := Wrap32(total + Wrap32(agg.value.price * left));
          left := 0;
          AnswerEnds(Priority(FromRank(levels, side, i + 1), side), left, total, levels, side, i + 1);
        }
        i := i + 1;
      }
      AnswerEnds(Priority(FromRank(levels, side, i), side), left, total, levels, side, i);
      var checked := Checked(total);
      return checked.None?, checked;
    }
  }

  // ---------------------------------------------------------------- aggregates by rank

  /** The level of rank `k` with everything at its price, if the 32-bit sum passes the contract. */
  function AggregateOf(ls: seq<Level>, side: Side, k: int): Option<LevelAggregate>
    requires 0 <= k < |ls|
  {
    var l := ls[RankIndex(ls, side, k)];
    var sum := Wrap32(TotalQty(l.orders));
    if sum > 0 then Some(LevelAggregate(l.price, sum)) else None
  }

  /** The front level of the flat side from one rank on. */
  lemma FrontOfRank(ls: seq<Level>, side: Side, i: int)
    requires LevelsOk(ls, side) && 0 <= i < |ls|
    ensures var s := Priority(FromRank(ls, side, i), side);
            var l := ls[RankIndex(ls, side, i)];
            var n := |l.orders|;
            && 0 < n <= |s| && s[0].price == l.price && Leading(s, s[0].price) == n
            && s[..n] == l.orders && s[n..] == Priority(FromRank(ls, side, i + 1), side)
  {
    hide Priority;
    var l := ls[RankIndex(ls, side, i)];
    var rest := Priority(FromRank(ls, side, i + 1), side);
    PriorityFromRank(ls, side, i);
    assert LevelOk(l, side);
    if i + 1 < |ls| {
      PriorityFromRank(ls, side, i + 1);
      assert LevelOk(ls[RankIndex(ls, side, i + 1)], side);
      assert rest[0].price != l.price;
    } else {
      NoLevels(side);
      assert FromRank(ls, side, i + 1) == [];
    }
    LeadingLevel(l.orders, rest, l.price);
  }

  lemma {:induction false} LeadingLevel(orders: seq<Order>, rest: seq<Order>, p: int)
    requires forall i :: 0 <= i < |orders| ==> orders[i].price == p
    requires rest != [] ==> rest[0].price != p
    ensures Leading(orders + rest, p) == |orders|
  {
    if orders == [] {
      assert orders + rest == rest;
    } else {
      assert (orders + rest)[1..] == orders[1..] + rest;
      LeadingLevel(orders[1..], rest, p);
    }
  }

  lemma WholeFromRank(ls: seq<Level>, side: Side)
    requires LevelsOk(ls, side)
    ensures FromRank(ls, side, 0) == ls && (ls == [] <==> Priority(ls, side) == [])
  {
    if ls != [] {
      PriorityFromRank(ls, side, 0);
      assert LevelOk(ls[RankIndex(ls, side, 0)], side);
    }
  }

  /** One turn of the cost loop. */
  lemma AnswerFromRank(ls: seq<Level>, side: Side, i: int, qty: int, total: int)
    requires LevelsOk(ls, side) && 0 <= i < |ls| && qty > 0
    ensures var rest := Priority(FromRank(ls, side, i + 1), side);
            Answer32(Priority(FromRank(ls, side, i), side), qty, total) ==
            match AggregateOf(ls, side, i)
            case None => None
            case Some(a) =>
              if a.quantity <= qty then
                Answer32(rest, qty - a.quantity, Wrap32(total + Wrap32(a.price * a.quantity)))
              else Checked(Wrap32(total + Wrap32(a.price * qty)))
  {
    hide LevelsOk, Priority, FromRank, RankIndex, Wrap32, Checked, TotalQty;
    FrontOfRank(ls, side, i);
  }

  lemma AnswerEnds(s: seq<Order>, qty: int, total: int, ls: seq<Level>, side: Side, i: int)
    requires 0 <= i <= |ls| && s == Priority(FromRank(ls, side, i), side) && (qty == 0 || i == |ls|)
    ensures Answer32(s, qty, total) == Checked(total)
  {
  }

  lemma TopFromRank(ls: seq<Level>, side: Side, i: int, k: nat)
    requires LevelsOk(ls, side) && 0 <= i < |ls| && k > 0
    ensures TopSumsOk(Priority(FromRank(ls, side, i), side), k) <==>
            AggregateOf(ls, side, i).Some? && TopSumsOk(Priority(FromRank(ls, side, i + 1), side), k - 1)
  {
    hide LevelsOk, Priority, FromRank, RankIndex, Wrap32, TotalQty;
    FrontOfRank(ls, side, i);
  }

  lemma TopEnds(ls: seq<Level>, side: Side, i: int, k: nat)
    requires 0 <= i <= |ls| && (k == 0 || i == |ls|)
    ensures TopSumsOk(Priority(FromRank(ls, side, i), side), k)
  {
  }

  lemma NoLevels(side: Side)
    ensures Priority([], side) == []
  {
  }

  lemma WithoutBestOk(ls: seq<Level>, side: Side)
    requires LevelsOk(ls, side) && ls != []
    ensures LevelsOk(FromRank(ls, side, 1), side)
  {
  }

  lemma WithBestOk(ls: seq<Level>, side: Side, l: Level)
    requires LevelsOk(ls, side) && ls != [] && LevelOk(l, side) && l.price == ls[RankIndex(ls, side, 0)].price
    ensures LevelsOk(ls[RankIndex(ls, side, 0) := l], side)
  {
  }

  lemma LevelAt(ls: seq<Level>, side: Side, i: int)
    requires LevelsOk(ls, side) && 0 <= i < |ls|
    ensures LevelOk(ls[i], side)
  {
  }

  predicate TopOf(top: seq<LevelAggregate>, ls: seq<Level>, side: Side) {
    && |top| == Min(ORDER_BOOK_AGGREGATE_LEVELS, |ls|)
    && forall k :: 0 <= k < |top| ==> AggregateOf(ls, side, k) == Some(top[k])
  }

  /**
   A snapshot lists strictly worsening prices, each with everything resting there as far as 32 bits
   count. It skips none: an order it does not list is behind fifty prices that it does.
   */
  lemma {:induction false} TopOrdered(top: seq<LevelAggregate>, ls: seq<Level>, side: Side)
    requires LevelsOk(ls, side) && TopOf(top, ls, side)
    ensures forall i, j :: 0 <= i < j < |top| ==>
              AtLeastAsGood(side, top[i].price, top[j].price) && top[i].price != top[j].price
    ensures forall i :: 0 <= i < |top| ==> top[i].quantity == Wrap32(QtyAtPrice(Priority(ls, side), top[i].price)) > 0
    ensures forall o :: o in Priority(ls, side) ==>
              || (exists i :: 0 <= i < |top| && top[i].price == o.price)
              || (|top| == 50 && forall i :: 0 <= i < |top| ==> AtLeastAsGood(side, top[i].price, o.price))
  {
    hide Wrap32, Priority, QtyAtPrice, TotalQty;
    forall o | o in Priority(ls, side)
      ensures || (exists i :: 0 <= i < |top| && top[i].price == o.price)
              || (|top| == 50 && forall i :: 0 <= i < |top| ==> AtLeastAsGood(side, top[i].price, o.price))
    {
      TopSkipsNone(top, ls, side, o);
    }
    forall i, j | 0 <= i < j < |top|
      ensures AtLeastAsGood(side, top[i].price, top[j].price) && top[i].price != top[j].price
    {
      assert AggregateOf(ls, side, i) == Some(top[i]) && AggregateOf(ls, side, j) == Some(top[j]);
    }
    forall i | 0 <= i < |top|
      ensures top[i].quantity == Wrap32(QtyAtPrice(Priority(ls, side), top[i].price)) > 0
    {
      assert AggregateOf(ls, side, i) == Some(top[i]);
      LevelHoldsPrice(ls, side, RankIndex(ls, side, i));
    }
  }

  lemma TopSkipsNone(top: seq<LevelAggregate>, ls: seq<Level>, side: Side, o: Order)
    requires LevelsOk(ls, side) && TopOf(top, ls, side) && o in Priority(ls, side)
    ensures || (exists i :: 0 <= i < |top| && top[i].price == o.price)
            || (|top| == 50 && forall i :: 0 <= i < |top| ==> AtLeastAsGood(side, top[i].price, o.price))
  {
    hide Wrap32, Priority, TotalQty;
    PriorityMembers(ls, side, o);
    var m :| 0 <= m < |ls| && o in ls[m].orders;
    assert LevelOk(ls[m], side);
    var k := if side == Ask then m else |ls| - 1 - m;
    assert RankIndex(ls, side, k) == m;
    if k < |top| {
      assert AggregateOf(ls, side, k) == Some(top[k]);
    } else {
      forall i | 0 <= i < |top| ensures AtLeastAsGood(side, top[i].price, o.price) {
        assert AggregateOf(ls, side, i) == Some(top[i]);
      }
    }
  }

  /** An indexed id is in the level its location names, and in no other level of that side. */
  lemma {:induction false} LocateOrder(m: map<int, Location>, ls: seq<Level>, other: seq<Level>, loc: Location, id: int)
    requires LevelsOk(ls, loc.side) && LevelsOk(other, Opposite(loc.side)) && id in m && m[id] == loc
    requires loc.side == Bid ==> Indexes(m, Priority(ls, Bid), Priority(other, Ask))
    requires loc.side == Ask ==> Indexes(m, Priority(other, Bid), Priority(ls, Ask))
    ensures exists i :: 0 <= i < |ls| && ls[i].price == loc.price
                        && exists j :: 0 <= j < |ls[i].orders| && ls[i].orders[j].id == id
    ensures forall k, o :: 0 <= k < |ls| && o in ls[k].orders && o.id == id ==> ls[k].price == loc.price
    ensures Remove(Priority(other, Opposite(loc.side)), id) == Priority(other, Opposite(loc.side))
  {
    var s, u := Priority(ls, loc.side), Priority(other, Opposite(loc.side));
    forall k | 0 <= k < |u| ensures u[k].id != id {
      assert u[k] in u;
      PriorityMembers(other, Opposite(loc.side), u[k]);
      var i :| 0 <= i < |other| && u[k] in other[i].orders;
      assert LevelOk(other[i], Opposite(loc.side));
    }
    RemoveAbsent(u, id);
    assert !HasId(u, id);
    var n :| 0 <= n < |s| && s[n].id == id;
    assert s[n] in s;
    PriorityMembers(ls, loc.side, s[n]);
    var i :| 0 <= i < |ls| && s[n] in ls[i].orders;
    assert LevelOk(ls[i], loc.side);
    var j :| 0 <= j < |ls[i].orders| && ls[i].orders[j] == s[n];
    assert ls[i].orders[j].id == id;
    forall k, o | 0 <= k < |ls| && o in ls[k].orders && o.id == id
      ensures ls[k].price == loc.price
    {
      PriorityMembers(ls, loc.side, o);
      assert LevelOk(ls[k], loc.side);
      assert o in s;
    }
  }

  /** Unlinking the located node is cancelling in the flat book, and everything stays in order. */
  lemma {:induction false} CancelIsUnlink(m: map<int, Location>, bids: seq<Level>, asks: seq<Level>, loc: Location,
      id: int, i: int, j: int)
    requires LevelsOk(bids, Bid) && LevelsOk(asks, Ask) && id in m && m[id] == loc
    requires BookInv(Book(Priority(bids, Bid), Priority(asks, Ask)))
    requires Indexes(m, Priority(bids, Bid), Priority(asks, Ask))
    requires var ls := if loc.side == Bid then bids else asks;
             0 <= i < |ls| && ls[i].price == loc.price && 0 <= j < |ls[i].orders| && ls[i].orders[j].id == id
    ensures var b := Book(Priority(bids, Bid), Priority(asks, Ask));
            var bids' := if loc.side == Bid then Unlink(bids, i, j) else bids;
            var asks' := if loc.side == Ask then Unlink(asks, i, j) else asks;
            && LevelsOk(bids', Bid) && LevelsOk(asks', Ask)
            && Book(Priority(bids', Bid), Priority(asks', Ask)) == Cancel(b, id)
            && BookInv(Cancel(b, id)) && Indexes(m - {id}, Priority(bids', Bid), Priority(asks', Ask))
  {
    hide LevelsOk, BookInv, Indexes, Unlink;
    var b := Book(Priority(bids, Bid), Priority(asks, Ask));
    var ls := if loc.side == Bid then bids else asks;
    CancelKeepsInv(b, id);
    IndexCancel(m, b.bids, b.asks, id);
    LocateOrder(m, ls, if loc.side == Bid then asks else bids, loc, id);
    UnlinkKeepsLevels(ls, loc.side, i, j);
    FlatUnique(b, loc.side);
    LevelUnique(ls, loc.side, i);
    DistinctPrices(ls, loc.side, i);
    UnlinkIsRemove(ls, loc.side, i, j);
  }

  lemma FlatUnique(b: Book, side: Side)
    requires BookInv(b)
    ensures UniqueIds(SideOf(b, side))
  {
  }

  lemma DistinctPrices(ls: seq<Level>, side: Side, i: int)
    requires LevelsOk(ls, side) && 0 <= i < |ls|
    ensures forall k :: 0 <= k < |ls| && k != i ==> ls[k].price != ls[i].price
  {
  }

  lemma {:induction false} UniqueMiddle(a: seq<Order>, b: seq<Order>, c: seq<Order>)
    requires UniqueIds(a + (b + c))
    ensures UniqueIds(b)
  {
    var s := a + (b + c);
    forall i, j | 0 <= i < j < |b| ensures b[i].id != b[j].id {
      assert b[i] == s[|a| + i] && b[j] == s[|a| + j];
    }
  }

  lemma {:induction false} LevelUnique(ls: seq<Level>, side: Side, i: int)
    requires UniqueIds(Priority(ls, side)) && 0 <= i < |ls|
    ensures UniqueIds(ls[i].orders)
  {
    hide UniqueIds, Priority;
    var lo, hi := ls[..i], ls[i + 1..];
    assert ls == lo + [ls[i]] + hi;
    PrioritySplit(lo, ls[i], hi, side);
    if side == Ask { UniqueMiddle(Priority(lo, side), ls[i].orders, Priority(hi, side)); }
    else { UniqueMiddle(Priority(hi, side), ls[i].orders, Priority(lo, side)); }
  }

  /** The checked constructor of a trade. */
  function CreateTrade(takerOrderId: int, makerOrderId: int, takerId: string, makerId: string,
                       ticker: string, price: int, quantity: int, takerSide: Side): (r: Trade)
    requires takerOrderId >= 0 && makerOrderId >= 0 && takerOrderId != makerOrderId
    requires takerId != "" && makerId != "" && ticker != "" && price > 0 && quantity > 0
    requires TickerFits(ticker) && NameFits(takerId) && NameFits(makerId)
    ensures TradeOk(r)
  {
    Trade(ticker, price, quantity, takerId, makerId, takerOrderId, makerOrderId, takerSide == Bid)
  }
}
