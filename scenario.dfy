/**
 * The session the console command (app/Console/Commands/VendingMachineCommand.php) runs
 * against a fresh machine, with the outcome of every step.
 */
module Scenario {
  import opened Denominations
  import opened Till
  import opened Machine

  /** What one call of the session reports on the display. */
  datatype Event =
    | Deposit(deposit: DepositOutcome)
    | Purchase(purchase: PurchaseOutcome)
    | Refund(refund: ChangeOutcome)
    | Amount(amount: int)

  /** The drinks the command stocks, prices in cents. */
  function Stock(): seq<(string, int)> {
    [("Milk", 50), ("Espresso", 40), ("Long Espresso", 60)]
  }

  /** The till holding one 50 and one 10, nothing else. */
  function SixtyCents(): Coins {
    map[5 := 0, 10 := 1, 20 := 0, 50 := 1, 100 := 0]
  }

  /** Change for 60 cents: one 50 and one 10, nothing else. */
  lemma ChangeOfSixty()
    ensures Change(60) == SixtyCents()
  {
    var g0 := GreedyRun(60, 0);
    assert g0 == Greedy(ZeroTill(), 60);
    var g1 := GreedyRun(60, 1);
    assert g1 == Step(g0, 100) == g0;
    var g2 := GreedyRun(60, 2);
    assert g2 == Step(g1, 50) == Greedy(ZeroTill()[50 := 1], 10);
    var g3 := GreedyRun(60, 3);
    assert g3 == Step(g2, 20) == g2;
    var g4 := GreedyRun(60, 4);
    assert g4 == Step(g3, 10) == Greedy(ZeroTill()[50 := 1][10 := 1], 0);
    var g5 := GreedyRun(60, 5);
    assert g5 == Step(g4, 5) == g4;
    assert ZeroTill()[50 := 1][10 := 1] == SixtyCents();
  }

  /** The coins of that change, largest first: one 50, then one 10. */
  lemma BreakdownOfSixty()
    ensures Breakdown(SixtyCents(), Descending()) == [(50, 1), (10, 1)]
  {
    var m := SixtyCents();
    var d := Descending();
    assert d[..4] == [100, 50, 20, 10] && d[..4][..3] == [100, 50, 20];
    assert d[..4][..3][..2] == [100, 50] && d[..4][..3][..2][..1] == [100];
    assert [100][..0] == [];
    assert Breakdown(m, [100]) == [];
    assert Breakdown(m, [100, 50]) == [(50, 1)];
    assert Breakdown(m, [100, 50, 20]) == [(50, 1)];
    assert Breakdown(m, [100, 50, 20, 10]) == [(50, 1), (10, 1)];
  }

  /** Before any coin: an unknown name, then a purchase with no money; neither changes anything. */
  method Browse(machine: VendingMachine) returns (missing: Event, unpaid: Event)
    requires machine.Valid() && machine.drinks == Catalogue(Stock())
    requires machine.Balance() == 0
    modifies machine
    ensures machine.Valid() && unchanged(machine)
    ensures missing == Purchase(NotFound) && unpaid == Purchase(InsufficientFunds)
  {
    CatalogueLastEntry(Stock(), 1);
    assert "espresso" !in machine.drinks by {
      assert forall i :: 0 <= i < |Stock()| ==> Stock()[i].0 != "espresso";
    }
    var bought := machine.BuyDrink("espresso");
    var again := machine.BuyDrink("Espresso");
    missing, unpaid := Purchase(bought), Purchase(again);
  }

  /** A 2.00 coin is refused and a 1.00 coin accepted. */
  method Pay(machine: VendingMachine) returns (refused: Event, accepted: Event)
    requires machine.Valid() && machine.Balance() == 0
    modifies machine
    ensures machine.Valid() && machine.Balance() == 100 && machine.drinks == old(machine.drinks)
    ensures refused == Deposit(Rejected(Values())) && accepted == Deposit(Accepted(100, 100))
  {
    var two := machine.PutCoin(200);
    var one := machine.PutCoin(100);
    refused, accepted := Deposit(two), Deposit(one);
  }

  /** Espresso at 0.40 is sold from a balance of 1.00, leaving the change for 0.60. */
  method Buy(machine: VendingMachine) returns (sold: Event)
    requires machine.Valid() && machine.drinks == Catalogue(Stock())
    requires machine.Balance() == 100
    modifies machine
    ensures machine.Valid()
    ensures machine.coinsInMachine == SixtyCents() && machine.coinOrder == Descending()
    ensures sold == Purchase(Sold("Espresso", 40, 60))
  {
    CatalogueLastEntry(Stock(), 1);
    ChangeOfSixty();
    var bought := machine.BuyDrink("Espresso");
    sold := Purchase(bought);
  }

  /** The 60 cents of change come back as one 50 and one 10; after that there is nothing left. */
  method Collect(machine: VendingMachine) returns (change: Event, shown: Event, empty: Event)
    requires machine.Valid()
    requires machine.coinsInMachine == SixtyCents() && machine.coinOrder == Descending()
    modifies machine
    ensures machine.Valid() && machine.Balance() == 0
    ensures change == Refund(Returned(60, [(50, 1), (10, 1)]))
    ensures shown == Amount(0) && empty == Refund(NothingToReturn)
  {
    BreakdownOfSixty();
    var returned := machine.GetCoins();
    var amount := machine.ViewAmount();
    var none := machine.GetCoins();
    change, shown, empty := Refund(returned), Amount(amount), Refund(none);
  }

  /**
   * The command's session: an unknown name, a purchase with no money, a 2.00 coin the
   * machine refuses, a 1.00 coin, a sale of Espresso, the change collected, the balance
   * viewed, and a second collection with nothing left.
   */
  method WorkedExample() returns (trace: seq<Event>)
    ensures trace == [
      Purchase(NotFound),
      Purchase(InsufficientFunds),
      Deposit(Rejected(Values())),
      Deposit(Accepted(100, 100)),
      Purchase(Sold("Espresso", 40, 60)),
      Refund(Returned(60, [(50, 1), (10, 1)])),
      Amount(0),
      Refund(NothingToReturn)
    ]
  {
    var machine := new VendingMachine(Stock());
    ZeroTillEmpty();
    var missing, unpaid := Browse(machine);
    var refused, accepted := Pay(machine);
    var sold := Buy(machine);
    var change, shown, empty := Collect(machine);
    trace := [missing, unpaid, refused, accepted, sold, change, shown, empty];
  }
}
