/**
 * The vending machine engine (app/Models/VendingMachine.php): a till of coins that is
 * the only record of the customer's money, a catalogue of drinks, and the operations
 * putCoin, buyDrink, getCoins and viewAmount with their private helpers.
 * Money is in integer cents. Messages for the display become outcome values.
 */
module Machine {
  import opened Options
  import opened Denominations
  import opened Till

  datatype DepositOutcome =
    | Accepted(coin: int, balance: int)     // the coin went in; the new balance
    | Rejected(accepted: seq<int>)          // not a legal coin; the coins the machine takes

  datatype PurchaseOutcome =
    | Sold(name: string, price: int, balance: int)
    | NotFound
    | InsufficientFunds

  datatype ChangeOutcome =
    | Returned(total: int, coins: seq<(int, nat)>)
    | NothingToReturn

  /** initializeDrinks: name to price, a later entry for the same name replacing an earlier one. */
  function Catalogue(entries: seq<(string, int)>): (c: map<string, int>)
    ensures forall name :: name in c <==> exists i :: 0 <= i < |entries| && entries[i].0 == name
    decreases |entries|
  {
    if entries == [] then map[]
    else
      var last := entries[|entries| - 1];
      Catalogue(entries[..|entries| - 1])[last.0 := last.1]
  }

  /** A name's price is the one given by the last entry that carries the name. */
  lemma {:induction false} CatalogueLastEntry(entries: seq<(string, int)>, i: nat)
    requires i < |entries|
    requires forall j :: i < j < |entries| ==> entries[j].0 != entries[i].0
    ensures entries[i].0 in Catalogue(entries)
    ensures Catalogue(entries)[entries[i].0] == entries[i].1
    decreases |entries|
  {
    if i < |entries| - 1 {
      var pre := entries[..|entries| - 1];
      assert forall j :: i < j < |pre| ==> pre[j] == entries[j];
      CatalogueLastEntry(pre, i);
    }
  }

  /** isValidCoin: exactly the cent values of the denomination cases are accepted. */
  function IsValidCoin(coin: int): (b: bool)
    ensures b <==> exists d :: Cents(d) == coin
  {
    assert Cents(PointFive) == 5 && Cents(PointTen) == 10 && Cents(PointTwenty) == 20;
    assert Cents(PointFifty) == 50 && Cents(One) == 100;
    coin in Values()
  }

  /** The loop that sets every denomination to 0 in an empty array, in case order. */
  method ZeroFilled() returns (coins: Coins, order: seq<int>)
    ensures coins == ZeroTill() && order == Values()
  {
    coins, order := map[], [];
    var cases := Cases();
    var i := 0;
    while i < |cases|
      invariant 0 <= i <= |cases|
      invariant order == Values()[..i]
      invariant coins == map k | k in Values()[..i] :: 0
    {
      var value := Cents(cases[i]);
      assert Values()[..i + 1] == Values()[..i] + [value];
      coins := coins[value := 0];
      order := order + [value];
      i := i + 1;
    }
    assert Values()[..i] == Values();
  }

  /** calculateChange: the greedy decomposition, largest coin first, on a fresh all-zero array. */
  method CalculateChange(amount: int) returns (result: Coins, order: seq<int>)
    ensures result == Change(amount) && order == ChangeOrder(amount)
    ensures amount <= 0 ==> TillValue(result) == 0
    ensures amount > 0 ==> TillValue(result) <= amount < TillValue(result) + Values()[0]
  {
    result, order := ZeroFilled();
    if amount <= 0 {
      ChangeOfNothing(amount);
      return;
    }
    ZeroTillEmpty();
    var cents := amount;
    var denominations := Descending();
    var i := 0;
    while i < |denominations|
      invariant 0 <= i <= |denominations|
      invariant Greedy(result, cents) == GreedyRun(amount, i)
    {
      var coin := denominations[i];
      assert GreedyRun(amount, i + 1) == Step(GreedyRun(amount, i), coin);
      var count := cents / coin;
      if count > 0 {
        result := result[coin := count];
        cents := cents - coin * count;
      }
      i := i + 1;
    }
    // array_reverse: the keys, filled in ascending order, now run from the largest down
    order := Descending();
    ChangeShortfall(amount);
  }

  class VendingMachine {
    /** The coins in the machine: denomination in cents to count. */
    var coinsInMachine: Coins
    /** The order in which the PHP array holding the till lists its keys. */
    var coinOrder: seq<int>
    /** The drinks on sale: name to price in cents. */
    var drinks: map<string, int>

    ghost predicate Valid()
      reads this
    {
      coinsInMachine.Keys == DenominationSet() && (coinOrder == Values() || coinOrder == Descending())
    }

    /** The customer's money: the value of the till. */
    function Balance(): int
      reads this
    {
      TillValue(coinsInMachine)
    }

    constructor (entries: seq<(string, int)>)
      ensures Valid()
      ensures coinsInMachine == ZeroTill() && coinOrder == Values()
      ensures drinks == Catalogue(entries)
    {
      coinsInMachine, coinOrder, drinks := map[], [], map[];
      new;
      InitializeDrinks(entries);
      InitializeCoins();
    }

    /** initializeDrinks: enters the drinks one by one into the (empty) catalogue. */
    method InitializeDrinks(entries: seq<(string, int)>)
      requires drinks == map[]
      modifies this`drinks
      ensures drinks == Catalogue(entries)
    {
      var i := 0;
      while i < |entries|
        invariant 0 <= i <= |entries|
        invariant drinks == Catalogue(entries[..i])
      {
        var (name, price) := entries[i];
        assert entries[..i + 1][..i] == entries[..i];
        drinks := drinks[name := price];
        i := i + 1;
      }
      assert entries[..i] == entries;
    }

    /** initializeCoins: run once, on the empty till of a new machine. */
    method InitializeCoins()
      requires coinsInMachine == map[] && coinOrder == []
      modifies this`coinsInMachine, this`coinOrder
      ensures Valid()
      ensures coinsInMachine == ZeroTill() && coinOrder == Values()
    {
      coinsInMachine, coinOrder := ZeroFilled();
    }

    /** clearCoins: empties the array, then sets every denomination to 0 in case order. */
    method ClearCoins()
      modifies this`coinsInMachine, this`coinOrder
      ensures Valid()
      ensures coinsInMachine == ZeroTill() && coinOrder == Values()
    {
      coinsInMachine, coinOrder := map[], [];
      InitializeCoins();
    }

    /** getCurrentAmount: adds up denomination times count over the till, in its key order. */
    method GetCurrentAmount() returns (total: int)
      requires Valid()
      ensures total == Balance() && total >= 0
    {
      total := 0;
      var i := 0;
      while i < |coinOrder|
        invariant 0 <= i <= |coinOrder|
        invariant total == Sum(coinsInMachine, coinOrder[..i])
      {
        var denomination := coinOrder[i];
        var quantity := coinsInMachine[denomination];
        SumPrefix(coinsInMachine, coinOrder, i);
        total := total + denomination * quantity;
        i := i + 1;
      }
      assert coinOrder[..i] == coinOrder;
      SumInTillOrder(coinsInMachine, coinOrder);
    }

    /** viewAmount: reports the current balance. */
    method ViewAmount() returns (amount: int)
      requires Valid()
      ensures amount == Balance() && amount >= 0
    {
      amount := GetCurrentAmount();
    }

    /** addCoin: one more coin of an existing denomination. */
    method AddCoin(coin: int)
      requires Valid() && coin in coinsInMachine
      modifies this`coinsInMachine
      ensures Valid()
      ensures coinsInMachine == old(coinsInMachine)[coin := old(coinsInMachine)[coin] + 1]
      ensures Balance() == old(Balance()) + coin
    {
      TillValueAdd(coinsInMachine, coin);
      coinsInMachine := coinsInMachine[coin := coinsInMachine[coin] + 1];
      assert coinsInMachine.Keys == old(coinsInMachine).Keys;
    }

    /** putCoin: a legal coin is counted in; anything else leaves the till as it was. */
    method PutCoin(coin: int) returns (outcome: DepositOutcome)
      requires Valid()
      modifies this`coinsInMachine
      ensures Valid() && coinOrder == old(coinOrder)
      ensures IsValidCoin(coin) ==>
        && coinsInMachine == old(coinsInMachine)[coin := old(coinsInMachine)[coin] + 1]
        && Balance() == old(Balance()) + coin
        && outcome == Accepted(coin, Balance())
      ensures !IsValidCoin(coin) ==>
        coinsInMachine == old(coinsInMachine) && outcome == Rejected(Values())
    {
      if IsValidCoin(coin) {
        AddCoin(coin);
        var currentAmount := GetCurrentAmount();
        outcome := Accepted(coin, currentAmount);
      } else {
        outcome := Rejected(Values());
      }
    }

    /** findDrink: exact, case-sensitive lookup of the name. */
    function FindDrink(name: string): (r: Option<int>)
      reads this
      ensures r.Some? <==> name in drinks
      ensures r.Some? ==> r.value == drinks[name]
    {
      if name in drinks then Some(drinks[name]) else None
    }

    /** On a catalogue built from `entries`, a name is found iff some entry carries exactly that name. */
    lemma FindDrinkMatchesEntries(entries: seq<(string, int)>, name: string)
      requires drinks == Catalogue(entries)
      ensures FindDrink(name).Some? <==> exists i :: 0 <= i < |entries| && entries[i].0 == name
    {
    }

    /** On a catalogue built from `entries`, a name is found with the price of the last entry carrying it. */
    lemma FindDrinkLastEntry(entries: seq<(string, int)>, i: nat)
      requires drinks == Catalogue(entries)
      requires i < |entries|
      requires forall j :: i < j < |entries| ==> entries[j].0 != entries[i].0
      ensures FindDrink(entries[i].0) == Some(entries[i].1)
    {
      CatalogueLastEntry(entries, i);
    }

    /** hasEnoughMoney: the balance covers the price. */
    method HasEnoughMoney(price: int) returns (enough: bool)
      requires Valid()
      ensures enough <==> Balance() >= price
    {
      var currentAmount := GetCurrentAmount();
      enough := currentAmount >= price;
    }

    /**
     * deductAmount: when the balance covers the amount, the whole till is discarded
     * and rebuilt from the change for what is left; otherwise nothing happens.
     */
    method DeductAmount(amount: int)
      requires Valid()
      modifies this`coinsInMachine, this`coinOrder
      ensures Valid()
      ensures TillValue(old(coinsInMachine)) < amount ==> coinsInMachine == old(coinsInMachine) && coinOrder == old(coinOrder)
      ensures TillValue(old(coinsInMachine)) >= amount ==>
        && coinsInMachine == Change(TillValue(old(coinsInMachine)) - amount)
        && coinOrder == ChangeOrder(TillValue(old(coinsInMachine)) - amount)
    {
      var currentTotal := GetCurrentAmount();
      if currentTotal < amount {
        return;
      }
      var remainingAmount := currentTotal - amount;
      ClearCoins();
      coinsInMachine, coinOrder := CalculateChange(remainingAmount);
      ChangeKeys(remainingAmount);
    }

    /** processPurchase: takes the price out of the till and reports the sale with the new balance. */
    method ProcessPurchase(name: string, price: int) returns (outcome: PurchaseOutcome)
      requires Valid()
      modifies this`coinsInMachine, this`coinOrder
      ensures Valid()
      ensures TillValue(old(coinsInMachine)) < price ==> coinsInMachine == old(coinsInMachine) && coinOrder == old(coinOrder)
      ensures TillValue(old(coinsInMachine)) >= price ==>
        && coinsInMachine == Change(TillValue(old(coinsInMachine)) - price)
        && coinOrder == ChangeOrder(TillValue(old(coinsInMachine)) - price)
      ensures outcome == Sold(name, price, Balance())
    {
      DeductAmount(price);
      var remainingAmount := GetCurrentAmount();
      outcome := Sold(name, price, remainingAmount);
    }

    /**
     * buyDrink: an unknown name or too little money changes nothing; a sale replaces
     * the till with the change for balance minus price, which keeps the balance
     * exact whenever that difference is a whole number of 5-cent coins.
     */
    method BuyDrink(name: string) returns (outcome: PurchaseOutcome)
      requires Valid()
      modifies this`coinsInMachine, this`coinOrder
      ensures Valid()
      ensures name !in drinks ==>
        outcome == NotFound && coinsInMachine == old(coinsInMachine) && coinOrder == old(coinOrder)
      ensures name in drinks && TillValue(old(coinsInMachine)) < drinks[name] ==>
        outcome == InsufficientFunds && coinsInMachine == old(coinsInMachine) && coinOrder == old(coinOrder)
      ensures name in drinks && TillValue(old(coinsInMachine)) >= drinks[name] ==>
        && coinsInMachine == Change(TillValue(old(coinsInMachine)) - drinks[name])
        && coinOrder == ChangeOrder(TillValue(old(coinsInMachine)) - drinks[name])
        && outcome == Sold(name, drinks[name], Balance())
        && Balance() <= old(Balance()) - drinks[name] < Balance() + Values()[0]
        && ((old(Balance()) - drinks[name]) % Values()[0] == 0 ==> Balance() == old(Balance()) - drinks[name])
    {
      var drink := FindDrink(name);
      if drink.None? {
        return NotFound;
      }
      var enough := HasEnoughMoney(drink.value);
      if !enough {
        return InsufficientFunds;
      }
      ChangeForRemainder(Balance() - drink.value);
      outcome := ProcessPurchase(name, drink.value);
    }

    /** formatCoinsDescription: the non-zero counts of the till, in its key order. */
    method FormatCoinsDescription() returns (coins: seq<(int, nat)>)
      requires Valid()
      ensures coins == Breakdown(coinsInMachine, coinOrder)
      ensures Total(coins) == Balance()
    {
      coins := [];
      var i := 0;
      while i < |coinOrder|
        invariant 0 <= i <= |coinOrder|
        invariant coins == Breakdown(coinsInMachine, coinOrder[..i])
      {
        var denomination := coinOrder[i];
        var quantity := coinsInMachine[denomination];
        assert coinOrder[..i + 1][..i] == coinOrder[..i];
        if quantity > 0 {
          coins := coins + [(denomination, quantity)];
        }
        i := i + 1;
      }
      assert coinOrder[..i] == coinOrder;
      BreakdownTotal(coinsInMachine, coinOrder);
      if coinOrder == Descending() {
        SumDescending(coinsInMachine);
      }
    }

    /**
     * getCoins: with money in the machine, reports the total and the coins and empties
     * the till; with none, reports that there is nothing to return and changes nothing.
     */
    method GetCoins() returns (outcome: ChangeOutcome)
      requires Valid()
      modifies this`coinsInMachine, this`coinOrder
      ensures Valid()
      ensures old(Balance()) == 0 ==>
        outcome == NothingToReturn && coinsInMachine == old(coinsInMachine) && coinOrder == old(coinOrder)
      ensures old(Balance()) > 0 ==>
        && outcome == Returned(old(Balance()), Breakdown(old(coinsInMachine), old(coinOrder)))
        && Total(outcome.coins) == old(Balance())
        && coinsInMachine == ZeroTill() && coinOrder == Values()
        && Balance() == 0
    {
      var currentAmount := GetCurrentAmount();
      if currentAmount <= 0 {
        return NothingToReturn;
      }
      var coinsDescription := FormatCoinsDescription();
      ClearCoins();
      ZeroTillEmpty();
      outcome := Returned(currentAmount, coinsDescription);
    }
  }
}
