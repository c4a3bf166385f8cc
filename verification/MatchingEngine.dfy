/**
 The matching engine as the object its thread works on: one book per symbol, all pushing into one
 trade queue. Each handler takes one engine step of the pipeline.
 */
module MatchingEngineProcess {
  import opened Common
  import opened BookSpec
  import opened BookCost
  import opened Messages
  import opened Pipeline
  import opened PipelineMeasures
  import opened OrderBook

  class MatchingEngine {
    const tradeEvents: TradeQueue
    var books: map<string, LimitOrderBook>
    /** The response connection, and the cost answers on the request connection. */
    var responses: seq<Response>
    var costs: seq<Option<int>>
    var up: bool

    /** Between two containers the trade queue is empty: every trade has been sent on. */
    ghost predicate Valid()
      reads this, tradeEvents, books.Values
    {
      && tradeEvents.items == [] && PositiveTrades(responses)
      && BooksOk()
    }

    ghost predicate BooksOk()
      reads `books, books.Values
    {
      && (forall a, b :: a in books && b in books && a != b ==> books[a] != books[b])
      && forall symbol :: symbol in books ==>
           books[symbol].Valid() && books[symbol].ticker == symbol && books[symbol].tradeEvents == tradeEvents
    }

    ghost predicate ShowsBooks(m: map<string, Book>)
      reads `books, books.Values
    {
      books.Keys == m.Keys && forall symbol :: symbol in books ==> books[symbol].Contents() == m[symbol]
    }

    ghost predicate Shows(s: State)
      reads this, books.Values
    {
      ShowsBooks(s.books) && responses == s.respQ && costs == s.costQ && up == s.meUp
    }

    constructor (symbols: seq<string>)
      requires "" !in symbols
      ensures Valid() && fresh(tradeEvents) && fresh(books.Values)
      ensures ShowsBooks(map s | s in symbols :: EMPTY_BOOK) && responses == [] && costs == [] && up
    {
      hide *;
      tradeEvents := new TradeQueue();
      books, responses, costs, up := map[], [], [], true;
      new;
      CreateBooks(symbols);
    }

    /** One empty book per symbol; a symbol listed twice keeps its first book. */
    method CreateBooks(symbols: seq<string>)
      requires "" !in symbols && books == map[] && tradeEvents.items == [] && responses == []
      modifies `books
      ensures Valid() && ShowsBooks(map s | s in symbols :: EMPTY_BOOK) && fresh(books.Values)
    {
      NoBooks();
      hide *;
      for i := 0 to |symbols|
        invariant forall symbol :: symbol in books <==> symbol in symbols[..i]
        invariant Valid() && AllEmpty() && fresh(books.Values)
      {
        assert symbols[..i + 1] == symbols[..i] + [symbols[i]];
        if symbols[i] !in books {
          AddBook(symbols[i]);
        }
      }
      assert symbols[..|symbols|] == symbols;
      EmptyShows(symbols);
    }

    lemma NoBooks()
      requires books == map[] && tradeEvents.items == [] && responses == []
      ensures Valid() && AllEmpty()
    {
    }

    lemma EmptyShows(symbols: seq<string>)
      requires (forall symbol :: symbol in books <==> symbol in symbols) && AllEmpty()
      ensures ShowsBooks(map s | s in symbols :: EMPTY_BOOK)
    {
    }

    ghost predicate AllEmpty()
      reads `books, books.Values
    {
      forall symbol :: symbol in books ==> books[symbol].Contents() == EMPTY_BOOK
    }

    method AddBook(symbol: string)
      requires symbol != "" && symbol !in books && Valid() && AllEmpty()
      modifies `books
      ensures Valid() && AllEmpty()
      ensures books.Keys == old(books.Keys) + {symbol} && fresh(books.Values - old(books.Values))
    {
      hide LimitOrderBook.Valid;
      hide LimitOrderBook.Contents;
      var book := new LimitOrderBook(symbol, tradeEvents);
      books := books[symbol := book];
    }

    /**
     Send queued trades on, oldest first, until one cannot be sent; that one and those behind it
     stay queued. `sendable` is how many sends succeed before one fails.
     */
    method DrainTrades(sendable: nat)
      modifies `responses, tradeEvents
      ensures var all := old(tradeEvents.items);
              var sent := if sendable < |all| then sendable else |all|;
              responses == old(responses) + TradeResps(all[..sent]) && tradeEvents.items == all[sent..]
    {
      ghost var all := tradeEvents.items;
      var sent := 0;
      while tradeEvents.items != []
        invariant 0 <= sent <= |all| && sent <= sendable && tradeEvents.items == all[sent..]
        invariant responses == old(responses) + TradeResps(all[..sent])
        decreases |tradeEvents.items|
      {
        if sent == sendable { break; }
        assert TradeResps(all[..sent + 1]) == TradeResps(all[..sent]) + [TradeResp(all[sent])];
        responses := responses + [TradeResp(tradeEvents.items[0])];
        tradeEvents.items := tradeEvents.items[1..];
        sent := sent + 1;
      }
    }

    /** The book of the symbol takes the order; the other books are untouched. */
    method AddToBook(id: int, n: NewOrder, ghost m: map<string, Book>)
      requires BooksOk() && ShowsBooks(m)
      requires n.symbol in m && Takes(m[n.symbol], TakerOf(id, n), n.qty)
      modifies books.Values, tradeEvents
      ensures BooksOk() && ShowsBooks(m[n.symbol := Add(m[n.symbol], TakerOf(id, n), n.qty)])
      ensures tradeEvents.items == old(tradeEvents.items) + AddMatch(m[n.symbol], TakerOf(id, n), n.qty).trades
    {
      hide LimitOrderBook.Valid, LimitOrderBook.Contents, Add, AddMatch, Takes, EngineLimit;
      var book := books[n.symbol];
      assert book in books.Values;
      book.AddOrder(id, EngineLimit(n), n.qty, n.side, n.sender);
      assert forall other :: other in books && other != n.symbol ==> books[other] != book;
    }

    lemma BookOf(symbol: string, m: map<string, Book>)
      requires BooksOk() && ShowsBooks(m) && symbol in books
      ensures symbol in m && books[symbol].Contents() == m[symbol] && BookInv(m[symbol])
      ensures books[symbol].Valid() && books[symbol].ticker == symbol
    {
    }

    /** A missing book, a failed contract of adding, or one of a trade it makes stops the engine. */
    method OnNewOrder(id: int, n: NewOrder, ghost s: State)
      requires Valid() && Shows(s) && s.reqQ != []
      modifies `up, `responses, books.Values, tradeEvents
      ensures Valid() && Shows(EngineNew(s, id, n))
    {
      hide BooksOk, ShowsBooks, Add, AddMatch, Takes, TakerOf, TradeResps, EngineLimit, BookInv, AddOk;
      hide LimitOrderBook.Valid, LimitOrderBook.Contents;
      SameKeys(s.books);
      if n.symbol !in books {
        up := false;
        return;
      }
      BookOf(n.symbol, s.books);
      if !Takes(books[n.symbol].Contents(), TakerOf(id, n), n.qty) {
        up := false;
        return;
      }
      TakenTradesArePositive(s.books[n.symbol], TakerOf(id, n), n.qty);
      AddToBook(id, n, s.books);
      DrainTrades(|tradeEvents.items|);
    }

    lemma SameKeys(m: map<string, Book>)
      requires ShowsBooks(m)
      ensures books.Keys == m.Keys
    {
    }

    /** The book of the symbol gives the order up, if it has it; the other books are untouched. */
    method RemoveFromBook(id: int, symbol: string, ghost m: map<string, Book>) returns (success: bool)
      requires BooksOk() && ShowsBooks(m) && symbol in m
      modifies books.Values
      ensures success <==> InBook(m[symbol], id)
      ensures BooksOk() && ShowsBooks(if success then m[symbol := Cancel(m[symbol], id)] else m)
    {
      hide LimitOrderBook.Valid, LimitOrderBook.Contents, LimitOrderBook.OrderIdExists, Cancel, InBook;
      var book := books[symbol];
      assert book in books.Values;
      book.OrderIdExistsIffResting(id);
      success := book.OrderIdExists(id);
      if success {
        book.CancelOrder(id);
        assert forall other :: other in books && other != symbol ==> books[other] != book;
      }
    }

    method OnCancel(id: int, clOrdId: int, symbol: string, ghost s: State)
      requires Valid() && Shows(s) && s.reqQ != []
      modifies `up, `responses, books.Values
      ensures Valid() && Shows(EngineCancel(s, id, clOrdId, symbol))
    {
      hide BooksOk, ShowsBooks, Cancel, InBook, BookQty;
      SameKeys(s.books);
      if symbol !in books {
        up := false;
        return;
      }
      var success := RemoveFromBook(id, symbol, s.books);
      responses := responses + [CancelResp(id, clOrdId, success)];
    }

    /** The answer is computed in 32 bits; a failed contract on the way stops the engine. */
    method OnCostQuery(symbol: string, qty: int, side: Side, ghost s: State)
      requires Valid() && Shows(s) && s.reqQ != []
      modifies `up, `costs
      ensures Valid() && Shows(EngineQuery(Bits32, s, symbol, qty, side))
    {
      hide LimitOrderBook.Valid, LimitOrderBook.Contents, Answer32;
      if symbol !in books || qty <= 0 {
        up := false;
        return;
      }
      var stopped, cost := books[symbol].GetFillCost(qty, side);
      if stopped {
        up := false;
        return;
      }
      costs := costs + [cost];
    }

    /** Dispatch on the kind of container. */
    method ProcessContainer(r: Request, ghost s: State)
      requires Valid() && Shows(s) && s.reqQ != [] && r == s.reqQ[0]
      modifies `up, `responses, `costs, books.Values, tradeEvents
      ensures Valid() && Shows(ServeStep(Bits32, s))
    {
      hide BooksOk, ShowsBooks, EngineNew, EngineCancel, EngineQuery, Shows, Valid;
      match r {
        case NewReq(id, n) => OnNewOrder(id, n, s);
        case CancelReq(id, clOrdId, symbol) => OnCancel(id, clOrdId, symbol, s);
        case CostQuery(symbol, qty, side) => OnCostQuery(symbol, qty, side, s);
      }
    }

    /** The periodic snapshots, until one of them fails a contract and stops the engine. */
    method FlushSnapshots(ghost s: State) returns (snapshots: map<string, TopLevels>)
      requires Valid() && Shows(s) && up
      modifies `up
      ensures Valid() && Shows(FlushStep(Bits32, s))
      ensures forall symbol :: symbol in snapshots && symbol in books ==>
                && TopOf(snapshots[symbol].bids, books[symbol].bids, Bid)
                && TopOf(snapshots[symbol].asks, books[symbol].asks, Ask)
      ensures up ==> forall symbol :: symbol in books ==> symbol in snapshots
    {
      hide LimitOrderBook.Valid, LimitOrderBook.Contents, SnapshotOk, TopOf;
      snapshots := map[];
      var left := books.Keys;
      while left != {}
        invariant up && left <= books.Keys
        invariant forall symbol :: symbol in snapshots <==> symbol in books && symbol !in left
        invariant forall symbol :: symbol in snapshots ==>
                    && SnapshotOk(Bits32, s.books[symbol], symbol)
                    && TopOf(snapshots[symbol].bids, books[symbol].bids, Bid)
                    && TopOf(snapshots[symbol].asks, books[symbol].asks, Ask)
      {
        var symbol :| symbol in left;
        var top := books[symbol].GetTopOrderBookLevelAggregate();
        if top.None? {
          up := false;
          return;
        }
        snapshots := snapshots[symbol := top.value];
        left := left - {symbol};
      }
      assert forall symbol :: symbol in s.books ==> symbol in snapshots;
    }

    // -------------------------------------------------------------- the far ends of the connections

    /** The order manager receives the oldest cost answer. */
    method TakeCost(ghost s: State) returns (cost: Option<int>)
      requires Valid() && Shows(s) && s.costQ != []
      modifies `costs
      ensures Valid() && Shows(s.(costQ := s.costQ[1..])) && cost == s.costQ[0]
    {
      hide LimitOrderBook.Valid, LimitOrderBook.Contents;
      cost, costs := costs[0], costs[1..];
    }

    /** The order manager receives the oldest response. */
    method TakeResponse(ghost s: State) returns (response: Response)
      requires Valid() && Shows(s) && s.respQ != []
      modifies `responses
      ensures Valid() && Shows(s.(respQ := s.respQ[1..])) && response == s.respQ[0]
    {
      hide LimitOrderBook.Valid, LimitOrderBook.Contents;
      response, responses := responses[0], responses[1..];
    }
  }

  lemma TakenTradesArePositive(b: Book, t: Taker, qty: int)
    requires BookInv(b) && Takes(b, t, qty)
    ensures PositiveTrades(TradeResps(AddMatch(b, t, qty).trades))
  {
    AddTradesOk(b, t, qty);
  }
}
