/** The mock broker (brokers/mock.py) as a value, and the class whose methods update it in place. */
module Broker {
  import opened Sums
  import opened Arithmetic
  import opened Domain
  import opened Tables
  import opened Risk

  datatype Request = Request(ticker: string, side: OrderSide, quantity: int, orderType: OrderType, price: Option<int>)

  /** Cash, holdings in the order they were first bought, prices and the requests seen so far. */
  datatype Account = Account(cash: real, holdings: seq<Holding>, prices: map<string, int>, defaultPrice: int,
                             submitted: seq<Request>) {
    function QuoteOf(ticker: string): int { if ticker in prices then prices[ticker] else defaultPrice }

    function Balance(): Snapshot { Snapshot(cash, holdings) }
  }

  function Find(holdings: seq<Holding>, ticker: string): Option<Holding> {
    if holdings == [] then None
    else if holdings[0].ticker == ticker then Some(holdings[0])
    else Find(holdings[1..], ticker)
  }

  /** Assigning to a dictionary key: in place when present, at the end when new. */
  function Put(holdings: seq<Holding>, h: Holding): seq<Holding> {
    if holdings == [] then [h]
    else if holdings[0].ticker == h.ticker then [h] + holdings[1..]
    else [holdings[0]] + Put(holdings[1..], h)
  }

  function Drop(holdings: seq<Holding>, ticker: string): seq<Holding> {
    if holdings == [] then []
    else if holdings[0].ticker == ticker then holdings[1..]
    else [holdings[0]] + Drop(holdings[1..], ticker)
  }

  function QuantityOf(holdings: seq<Holding>, ticker: string): int {
    match Find(holdings, ticker)
    case None => 0
    case Some(h) => h.quantity
  }

  function AverageOf(holdings: seq<Holding>, ticker: string): real {
    match Find(holdings, ticker)
    case None => 0.0
    case Some(h) => h.avgPrice
  }

  /** `request.price or quote`: a missing or zero price fills at the quote. */
  function FillPrice(a: Account, r: Request): int {
    if r.price.Some? && r.price.value != 0 then r.price.value else a.QuoteOf(r.ticker)
  }

  function Cost(average: real, quantity: int): real { average * quantity as real }

  function CostOf(holdings: seq<Holding>, ticker: string): real {
    match Find(holdings, ticker)
    case None => 0.0
    case Some(h) => Cost(h.avgPrice, h.quantity)
  }

  datatype Fill = Fill(account: Account, error: Option<Error>)

  function Average(cost: real, quantity: int): real
    requires quantity != 0
  {
    cost / quantity as real
  }

  /** Buying averages the cost; a resulting quantity of zero makes the average undefined, after the request is logged. */
  function Bought(a: Account, r: Request): Fill {
    var price := FillPrice(a, r);
    var prevQty := QuantityOf(a.holdings, r.ticker);
    var prevCost := CostOf(a.holdings, r.ticker);
    var newQty := prevQty + r.quantity;
    if newQty == 0 then Fill(a, Some(BadValue))
    else
      var average := Average(prevCost + Scaled(price, r.quantity) as real, newQty);
      Fill(a.(holdings := Put(a.holdings, Holding(r.ticker, newQty, average, None)),
              cash := a.cash - Scaled(price, r.quantity) as real), None)
  }

  function Clamped(n: int): int { if n > 0 then n else 0 }

  /** Selling more than is held sells out; the cash comes in for the whole requested quantity all the same. */
  function Sold(a: Account, r: Request): Account {
    var price := FillPrice(a, r);
    var newQty := Clamped(QuantityOf(a.holdings, r.ticker) - r.quantity);
    a.(holdings := if newQty == 0 then Drop(a.holdings, r.ticker)
                   else Put(a.holdings, Holding(r.ticker, newQty, AverageOf(a.holdings, r.ticker), None)),
       cash := a.cash + Scaled(price, r.quantity) as real)
  }

  function Placed(a: Account, r: Request): Fill {
    var logged := a.(submitted := a.submitted + [r]);
    if r.side == BuySide then Bought(logged, r) else Fill(Sold(logged, r), None)
  }

  class MockBroker {
    var cash: real
    var holdings: seq<Holding>
    var prices: map<string, int>
    var submitted: seq<Request>
    const defaultPrice: int

    ghost function Book(): Account
      reads this
    {
      Account(cash, holdings, prices, defaultPrice, submitted)
    }

    constructor (prices: map<string, int>, defaultPrice: int, cash: real)
      ensures Book() == Account(cash, [], prices, defaultPrice, [])
    {
      this.prices := prices;
      this.defaultPrice := defaultPrice;
      this.cash := cash;
      holdings := [];
      submitted := [];
    }

    method SetPrice(ticker: string, price: int)
      modifies this`prices
      ensures Book() == old(Book()).(prices := old(prices)[ticker := price])
      ensures forall t: string :: Book().QuoteOf(t) == if t == ticker then price else old(Book().QuoteOf(t))
    {
      prices := prices[ticker := price];
    }

    method GetQuote(ticker: string) returns (price: int)
      ensures price == Book().QuoteOf(ticker)
    {
      price := if ticker in prices then prices[ticker] else defaultPrice;
    }

    method GetBalance() returns (snapshot: Snapshot)
      ensures snapshot == Book().Balance()
    {
      snapshot := Snapshot(cash, holdings);
    }

    method PlaceOrder(request: Request) returns (error: Option<Error>)
      modifies this
      ensures Book() == Placed(old(Book()), request).account
      ensures error == Placed(old(Book()), request).error
    {
      submitted := submitted + [request];
      var fillPrice;
      if request.price.Some? && request.price.value != 0 {
        fillPrice := request.price.value;
      } else {
        fillPrice := GetQuote(request.ticker);
      }
      var existing := Find(holdings, request.ticker);
      var prevQty := if existing.Some? then existing.value.quantity else 0;
      if request.side == BuySide {
        var prevCost := if existing.Some? then Cost(existing.value.avgPrice, prevQty) else 0.0;
        var newQty := prevQty + request.quantity;
        if newQty == 0 {
          return Some(BadValue);
        }
        var newAvg := Average(prevCost + Scaled(fillPrice, request.quantity) as real, newQty);
        holdings := Put(holdings, Holding(request.ticker, newQty, newAvg, None));
        cash := cash - Scaled(fillPrice, request.quantity) as real;
      } else {
        var newQty := if prevQty - request.quantity > 0 then prevQty - request.quantity else 0;
        if newQty == 0 {
          holdings := Drop(holdings, request.ticker);
        } else {
          var average := if existing.Some? then existing.value.avgPrice else 0.0;
          holdings := Put(holdings, Holding(request.ticker, newQty, average, None));
        }
        cash := cash + Scaled(fillPrice, request.quantity) as real;
      }
      error := None;
    }
  }

  // ------------------------------------------------------------------ holdings as a dictionary

  ghost predicate DistinctTickers(holdings: seq<Holding>) {
    forall i, j :: 0 <= i < j < |holdings| ==> holdings[i].ticker != holdings[j].ticker
  }

  predicate Holds(holdings: seq<Holding>, ticker: string) { Find(holdings, ticker).Some? }

  lemma {:induction false} FindMeaning(holdings: seq<Holding>, ticker: string)
    ensures Holds(holdings, ticker) <==> exists i :: 0 <= i < |holdings| && holdings[i].ticker == ticker
    ensures Holds(holdings, ticker) ==>
      Find(holdings, ticker).value.ticker == ticker && Find(holdings, ticker).value in holdings
  {
    if holdings != [] {
      FindMeaning(holdings[1..], ticker);
      forall i | 0 <= i < |holdings[1..]| ensures holdings[1..][i] == holdings[i + 1] {
      }
      forall i | 1 <= i < |holdings| ensures holdings[i] == holdings[1..][i - 1] {
      }
    }
  }

  lemma {:induction false} FindAt(holdings: seq<Holding>, i: nat)
    requires DistinctTickers(holdings) && i < |holdings|
    ensures Find(holdings, holdings[i].ticker) == Some(holdings[i])
  {
    if i > 0 {
      FindAt(holdings[1..], i - 1);
    }
  }

  /** The dictionary laws of assignment. */
  lemma {:induction false} PutMeaning(holdings: seq<Holding>, h: Holding)
    requires DistinctTickers(holdings)
    ensures DistinctTickers(Put(holdings, h))
    ensures forall t: string :: Find(Put(holdings, h), t) == if t == h.ticker then Some(h) else Find(holdings, t)
    ensures forall x :: x in Put(holdings, h) ==> x == h || (x in holdings && x.ticker != h.ticker)
  {
    if holdings != [] {
      var first, rest := holdings[0], holdings[1..];
      forall x | x in rest ensures x.ticker != first.ticker {
      }
      if first.ticker != h.ticker {
        PutMeaning(rest, h);
      } else {
        assert Put(holdings, h)[1..] == rest;
      }
    }
  }

  /** What assignment does to the book value. */
  lemma {:induction false} PutValue(holdings: seq<Holding>, h: Holding)
    ensures SumReal(Value(), Put(holdings, h)) == SumReal(Value(), holdings) - ValueOf(holdings, h.ticker) + Value()(h)
  {
    if holdings == [] {
      assert [h][..0] == [];
    } else if holdings[0].ticker == h.ticker {
      assert Put(holdings, h) == holdings[0 := h];
      SumRealUpdate(Value(), holdings, 0, h);
    } else {
      var first, rest := [holdings[0]], holdings[1..];
      PutValue(rest, h);
      SumRealAppend(Value(), first, rest);
      SumRealAppend(Value(), first, Put(rest, h));
      assert holdings == first + rest;
    }
  }

  lemma {:induction false} DropMeaning(holdings: seq<Holding>, ticker: string)
    requires DistinctTickers(holdings)
    ensures DistinctTickers(Drop(holdings, ticker))
    ensures forall t: string :: Find(Drop(holdings, ticker), t) == if t == ticker then None else Find(holdings, t)
    ensures forall x :: x in Drop(holdings, ticker) <==> x in holdings && x.ticker != ticker
  {
    if holdings != [] {
      var first, rest := holdings[0], holdings[1..];
      FindMeaning(rest, ticker);
      forall x | x in rest ensures x.ticker != first.ticker {
      }
      if first.ticker != ticker {
        DropMeaning(rest, ticker);
        DistinctCons(first, Drop(rest, ticker));
      }
    }
  }

  lemma {:induction false} DistinctCons(first: Holding, rest: seq<Holding>)
    requires DistinctTickers(rest) && forall x :: x in rest ==> x.ticker != first.ticker
    ensures DistinctTickers([first] + rest)
    ensures forall t: string :: Find([first] + rest, t) == if t == first.ticker then Some(first) else Find(rest, t)
  {
    assert ([first] + rest)[1..] == rest;
  }

  lemma {:induction false} ValueIsFound(holdings: seq<Holding>, ticker: string)
    ensures ValueOf(holdings, ticker) == match Find(holdings, ticker) { case None => 0.0 case Some(h) => Value()(h) }
  {
    if holdings != [] {
      ValueIsFound(holdings[1..], ticker);
    }
  }

  // ------------------------------------------------------------------ one fill

  /** What an order is filled at: its own price if that is given and not zero, else the listed or the default price. */
  ghost function PaidPer(a: Account, r: Request): int {
    if r.price.Some? && r.price.value != 0 then r.price.value
    else if r.ticker in a.prices then a.prices[r.ticker] else a.defaultPrice
  }

  /** Nothing but the holding of one ticker and the cash differs, and the request is logged last. */
  ghost predicate OnlyMoves(a: Account, b: Account, r: Request) {
    && b.prices == a.prices && b.defaultPrice == a.defaultPrice && b.submitted == a.submitted + [r]
    && forall t: string :: t != r.ticker ==> Find(b.holdings, t) == Find(a.holdings, t)
  }

  lemma {:induction false} QuotientTimes(cost: real, n: int)
    requires n != 0
    ensures Average(cost, n) * n as real == cost
  {
  }

  lemma {:induction false} HeldCost(holdings: seq<Holding>, ticker: string)
    ensures CostOf(holdings, ticker) == AverageOf(holdings, ticker) * QuantityOf(holdings, ticker) as real
  {
  }

  /**
   * A BUY adds its quantity to the holding and pays for it; cost carries over, so the average is total cost over total
   * quantity. Where that quantity is zero the average is undefined: the call fails, and only the request is logged.
   */
  lemma {:induction false} BuyFill(a: Account, r: Request)
    requires DistinctTickers(a.holdings) && r.side == BuySide
    ensures var f, held := Placed(a, r), QuantityOf(a.holdings, r.ticker);
      var b := f.account;
      && OnlyMoves(a, b, r)
      && (held + r.quantity == 0 ==> f.error == Some(BadValue) && b.holdings == a.holdings && b.cash == a.cash)
      && (held + r.quantity != 0 ==>
            && f.error == None
            && b.cash == a.cash - (PaidPer(a, r) * r.quantity) as real
            && QuantityOf(b.holdings, r.ticker) == held + r.quantity
            && AverageOf(b.holdings, r.ticker) * (held + r.quantity) as real
               == AverageOf(a.holdings, r.ticker) * held as real + (PaidPer(a, r) * r.quantity) as real)
  {
    var held := QuantityOf(a.holdings, r.ticker);
    assert FillPrice(a.(submitted := a.submitted + [r]), r) == PaidPer(a, r);
    if held + r.quantity != 0 {
      var spent := Scaled(PaidPer(a, r), r.quantity);
      var average := Average(CostOf(a.holdings, r.ticker) + spent as real, held + r.quantity);
      hide Average;
      PutMeaning(a.holdings, Holding(r.ticker, held + r.quantity, average, None));
      QuotientTimes(CostOf(a.holdings, r.ticker) + spent as real, held + r.quantity);
      HeldCost(a.holdings, r.ticker);
    }
  }

  /**
   * A SELL takes its quantity from the holding at an unchanged average; at zero or below the holding is gone. The cash
   * comes in for the whole quantity asked for, held or not.
   */
  lemma {:induction false} SellFill(a: Account, r: Request)
    requires DistinctTickers(a.holdings) && r.side == SellSide
    ensures var f, left := Placed(a, r), QuantityOf(a.holdings, r.ticker) - r.quantity;
      var b := f.account;
      && f.error == None && OnlyMoves(a, b, r)
      && b.cash == a.cash + (PaidPer(a, r) * r.quantity) as real
      && (left <= 0 ==> Find(b.holdings, r.ticker) == None)
      && (left > 0 ==>
            && Find(b.holdings, r.ticker).Some? && QuantityOf(b.holdings, r.ticker) == left
            && AverageOf(b.holdings, r.ticker) == AverageOf(a.holdings, r.ticker))
  {
    var left := QuantityOf(a.holdings, r.ticker) - r.quantity;
    assert FillPrice(a.(submitted := a.submitted + [r]), r) == PaidPer(a, r);
    DropMeaning(a.holdings, r.ticker);
    if left > 0 {
      PutMeaning(a.holdings, Holding(r.ticker, left, AverageOf(a.holdings, r.ticker), None));
    }
  }
}
