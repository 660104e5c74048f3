# Vending machine: a Dafny model

This project models the coin-handling engine of a small PHP vending machine. It proves
what that engine does to the money it holds.

The machine never stores the customer's balance. It keeps a till: a count for each of the
five accepted coins (0.05, 0.10, 0.20, 0.50 and 1.00). The balance is always recomputed
from that till. The operations are:

- inserting a coin (`putCoin`);
- buying a drink by exact name (`buyDrink`);
- collecting the coins (`getCoins`);
- viewing the balance (`viewAmount`).

A sale does not subtract anything. It throws the whole till away and refills it with the
greedy, largest-coin-first change for balance minus price.

The model is organised in modules:

- `Denominations` (`denominations.dfy`) models the coin enum. Each case is its value in
  integer cents. `CentsMatchTag` shows that this value is exactly the number spelled by the
  decimal string that backs the case.
- `Symbols` (`symbols.dfy`) models the currency-symbol enum, its validator and its lookup
  with a default. PHP's `mixed` argument becomes the datatype `Mixed`, which holds a
  `Symbol`, a string or any other value.
- `Till` (`till.dfy`) holds the specification functions of the till:
  - its value (`TillValue`);
  - the greedy change as a function of the amount (`Change`, built from `Step` and
    `GreedyRun`);
  - the order in which the PHP array lists its keys (`ChangeOrder`);
  - the reported breakdown (`Breakdown`).

  It also holds the lemmas about these functions.
- `Machine` (`vending_machine.dfy`) holds the class `VendingMachine`. The class has the
  source's fields `coinsInMachine` and `drinks`, plus `coinOrder`, the key order of the PHP
  array. Each method is proved against the specification functions in `Till`.
- `Scenario` (`scenario.dfy`) replays the session that the console command runs, and proves
  the outcome of every step.

Money is in integer cents throughout. Each display message becomes an outcome value:

- `DepositOutcome` for `Accepted` or `Rejected`;
- `PurchaseOutcome` for `Sold`, `NotFound` or `InsufficientFunds`;
- `ChangeOutcome` for `Returned` or `NothingToReturn`.

The key order of the till is modelled exactly, because it shows up in the coins that
`getCoins` reports:

- After construction and after `clearCoins`, the keys run in ascending order.
- `calculateChange` fills an ascending array. It hands that array back as is for a
  non-positive amount, and calls `array_reverse` on it otherwise. After a sale with change,
  the till therefore lists the large coins first.

Where the code differs from what one might expect, the model follows the code:

- Breakdowns are not sorted ascending.
- A shortfall in the change is not flagged. When balance minus price is not a multiple of 5
  cents (the price is not a multiple of 5 cents), the greedy change falls short by the
  remainder, a loss of less than 5 cents, and nothing reports it. `ChangeExact` and
  `ChangeShortfall` state exactly when and by how much.

## Model

| member | source | states |
|---|---|---|
| Denominations.Cents | app/Enums/CurrencyDenomination.php:15-18 | every denomination is worth a positive number of cents |
| Denominations.CentsMatchTag | app/Enums/CurrencyDenomination.php:9-18 | reading a case's backing string ("0.05" … "1.00") as a decimal gives exactly the case's cent value |
| Denominations.ValuesFollowCases | app/Enums/CurrencyDenomination.php:20-26 | values() has one entry per case, and entry i is the value of case i |
| Denominations.ValuesOrdered | app/Enums/CurrencyDenomination.php:9-13 | the values strictly ascend; the change order strictly descends |
| Denominations.DescendingReversesValues | app/Models/VendingMachine.php:211 | the order in which change is made is the case order reversed |
| Denominations.SmallestDividesAll | app/Enums/CurrencyDenomination.php:9-13 | every denomination is positive and a multiple of the smallest (5 cents) |
| Symbols.Values | app/Enums/Symbol.php:11-14 | values() is the backing string of each case in declaration order: "$", "€", "лв." |
| Symbols.EveryCaseListed | app/Enums/Symbol.php:7-9 | cases() contains every symbol |
| Symbols.ValuesDistinct | app/Enums/Symbol.php:7-9 | no two cases share a backing string |
| Symbols.FindCase | app/Enums/Symbol.php:27-31 | the search finds a listed case backed by exactly the string, or reports that no listed case has it |
| Symbols.IsValid | app/Enums/Symbol.php:17-34 | true for a Symbol; false for a non-string; for a string, true iff some case is backed by it |
| Symbols.FromValue | app/Enums/Symbol.php:37-54 | a Symbol is returned as is; a non-string gives the default; a matching string gives the case it spells; an unmatched string gives the default |
| Symbols.ValidStringFound | app/Enums/Symbol.php:17-54 | a string accepted by isValid is looked up to the case it spells, whatever the default |
| Symbols.FromValueRoundTrip | app/Enums/Symbol.php:37-54 | looking up a case's backing string gives back that case |
| Till.DenominationSetIsValues | app/Models/VendingMachine.php:56-61 | the five till keys are exactly the denomination values |
| Till.ZeroTillEmpty | app/Models/VendingMachine.php:56-61 | the freshly zeroed till has exactly the five keys, each with count 0 |
| Till.SumPrefix | app/Models/VendingMachine.php:229-231 | one more loop iteration adds denomination × count to the running total |
| Till.SumInTillOrder | app/Models/VendingMachine.php:223-233 | adding up the till in either of its key orders gives the balance |
| Till.TillValue | app/Models/VendingMachine.php:226-233 | the balance is the sum of denomination × count over the five keys, and it is never negative |
| Till.SumDescending | app/Models/VendingMachine.php:223-233 | adding the till up largest coin first gives the same balance |
| Till.TillValueAdd | app/Models/VendingMachine.php:151-155 | one more coin of a denomination raises the balance by exactly that coin |
| Till.MultipleOfFive | app/Models/VendingMachine.php:226-233 | every till is worth a whole number of 5-cent coins |
| Till.Step | app/Models/VendingMachine.php:213-221 | one greedy step leaves fewer cents than the coin and never more than before |
| Till.StepEffect | app/Models/VendingMachine.php:214-220 | a step changes only its own coin's count, and what it writes accounts exactly for the cents it takes |
| Till.GreedyRun | app/Models/VendingMachine.php:210-221 | the cents left by the loop are between 0 and the amount |
| Till.GreedyKeys | app/Models/VendingMachine.php:199-221 | the greedy loop never adds or removes a key |
| Till.GreedyUntouched | app/Models/VendingMachine.php:213-221 | a coin that the loop has not reached yet still has count 0 |
| Till.GreedyAccounts | app/Models/VendingMachine.php:213-221 | the value of the coins written so far plus the cents left is the amount |
| Till.GreedyCountKept | app/Models/VendingMachine.php:213-221 | once a coin's count is written, later steps keep it |
| Till.GreedyCountBound | app/Models/VendingMachine.php:213-221 | the value given in a coin is less than the next larger coin |
| Till.ChangeOrder | app/Models/VendingMachine.php:199-224 | a non-positive amount keeps the ascending fill order of values(); a positive one gets that order reversed, with key i being entry 4 - i of the five values |
| Till.ChangeKeys | app/Models/VendingMachine.php:197-224 | the change has exactly the five denomination keys |
| Till.ChangeOfNothing | app/Models/VendingMachine.php:205-207 | the change for a non-positive amount is all zeros and worth nothing |
| Till.ChangeShortfall | app/Models/VendingMachine.php:210-221 | the change for a positive amount never exceeds it, and falls short by less than the smallest coin |
| Till.ChangeExact | app/Models/VendingMachine.php:197-224 | the change for a positive amount is exact iff the amount is a multiple of 5 cents |
| Till.ChangeCountBounds | app/Models/VendingMachine.php:213-221 | greedy bounds: at most one 50, two 20s, one 10 and one 5 |
| Till.ChangeForRemainder | app/Models/VendingMachine.php:183-195 | for a remainder ≥ 0, the change is at most the remainder and short of it by less than 5 cents, and exact when 5 divides it |
| Till.BreakdownSound | app/Models/VendingMachine.php:235-244 | every reported pair is a key of the till with its true, non-zero count |
| Till.BreakdownComplete | app/Models/VendingMachine.php:235-244 | every key with a non-zero count is reported |
| Till.BreakdownTotal | app/Models/VendingMachine.php:235-244 | the reported pairs add up to the balance they describe |
| Till.ZeroTillBreakdown | app/Models/VendingMachine.php:246-252 | an all-zero till reports no coins |
| Machine.Catalogue | app/Models/VendingMachine.php:48-54 | a name is in the catalogue iff some entry carries it |
| Machine.CatalogueLastEntry | app/Models/VendingMachine.php:48-54 | a name's price is the one given by the last entry that carries it |
| Machine.IsValidCoin | app/Models/VendingMachine.php:138-149 | a coin is accepted iff it is the value of some denomination |
| Machine.ZeroFilled | app/Models/VendingMachine.php:56-61 | the fill loop yields the all-zero till with its keys in case order |
| Machine.CalculateChange | app/Models/VendingMachine.php:197-224 | the loop computes the greedy change and its key order: all zeros worth 0 for a non-positive amount; otherwise at most the amount and short by less than 5 cents |
| Machine.VendingMachine.constructor | app/Models/VendingMachine.php:15-22 | a new machine has the zeroed till in ascending key order and the catalogue of its entries |
| Machine.VendingMachine.InitializeDrinks | app/Models/VendingMachine.php:48-54 | the loop leaves the catalogue of all entries |
| Machine.VendingMachine.InitializeCoins | app/Models/VendingMachine.php:56-61 | the empty till becomes the five keys at 0, ascending |
| Machine.VendingMachine.ClearCoins | app/Models/VendingMachine.php:246-252 | whatever the till held, it becomes the five keys at 0, ascending |
| Machine.VendingMachine.GetCurrentAmount | app/Models/VendingMachine.php:226-233 | the loop over the till in its own key order returns the balance, which is ≥ 0 |
| Machine.VendingMachine.ViewAmount | app/Models/VendingMachine.php:128-133 | reports the balance and changes nothing |
| Machine.VendingMachine.AddCoin | app/Models/VendingMachine.php:151-155 | exactly that coin's count goes up by one, and the balance rises by the coin |
| Machine.VendingMachine.PutCoin | app/Models/VendingMachine.php:78-92 | a valid coin raises its count by one and is reported with the new balance; any other coin leaves the till unchanged and is answered with the accepted values |
| Machine.VendingMachine.FindDrinkMatchesEntries | app/Models/VendingMachine.php:163-166 | on a machine stocked from a list of entries, a name is found iff some entry carries exactly that name (case-sensitive, no normalisation) |
| Machine.VendingMachine.FindDrinkLastEntry | app/Models/VendingMachine.php:163-166 | on a machine stocked from a list of entries, a name is found with the price of the last entry that carries it |
| Machine.VendingMachine.HasEnoughMoney | app/Models/VendingMachine.php:168-172 | true iff the balance covers the price |
| Machine.VendingMachine.DeductAmount | app/Models/VendingMachine.php:183-195 | too little money changes nothing; otherwise the till is replaced by the change for balance minus amount |
| Machine.VendingMachine.ProcessPurchase | app/Models/VendingMachine.php:174-181 | deducts the price and reports the sale with the balance after it |
| Machine.VendingMachine.BuyDrink | app/Models/VendingMachine.php:94-110 | an unknown name or too little money changes nothing; a sale replaces the till by the change for balance minus price, leaving a new balance at most that and short by less than 5 cents, and exactly that when 5 divides it |
| Machine.VendingMachine.FormatCoinsDescription | app/Models/VendingMachine.php:235-244 | lists the non-zero (denomination, count) pairs in the till's key order, and they add up to the balance |
| Machine.VendingMachine.GetCoins | app/Models/VendingMachine.php:112-126 | with balance 0 it reports nothing to return and changes nothing; otherwise it reports the balance and its coins, then leaves an all-zero till |
| Scenario.ChangeOfSixty | app/Models/VendingMachine.php:197-224 | the change for 60 cents is one 50 and one 10 |
| Scenario.BreakdownOfSixty | app/Models/VendingMachine.php:235-244 | that change is reported, largest first, as one 50 and then one 10 |
| Scenario.Browse | app/Console/Commands/VendingMachineCommand.php:44-45 | 'espresso' is not found; 'Espresso' with no money is refused; the machine is unchanged |
| Scenario.Pay | app/Console/Commands/VendingMachineCommand.php:47-48 | a 2.00 coin is rejected; a 1.00 coin is accepted with balance 100 |
| Scenario.Buy | app/Console/Commands/VendingMachineCommand.php:49 | Espresso is sold for 40, with balance 60 and a till of one 50 and one 10 |
| Scenario.Collect | app/Console/Commands/VendingMachineCommand.php:50-52 | getCoins returns 60 as one 50 and one 10; viewAmount shows 0; a second getCoins has nothing to return |
| Scenario.WorkedExample | app/Console/Commands/VendingMachineCommand.php:30-52 | the command's whole session yields exactly the trace of outcomes above |

## Left out

- Currency formatting (app/Models/Currency.php) is not modelled, together with
  `initializeCurrency`, because it only configures that formatter's singleton.
  `Symbol::fromValue`, which `initializeCurrency` uses, is modelled.
- Display messages (app/Models/Display.php) are not modelled. They are output only, so each
  operation returns an outcome value instead of appending a string.
- Method chaining is not modelled: each operation returns its outcome and not the machine.
- `viewDrinks` and `showAcceptedCoins` are formatting only. A rejected coin returns the
  accepted values in cents instead of their formatted list.
- `CurrencyDenomination::valuesWithCurrency` is not modelled, because it is formatting
  through the currency singleton.
- Floating point is not modelled. Prices and coins are integer cents, so `round(…, 2)`,
  the `number_format` keys of `addCoin` and the `(int)($amount * 100)` truncation in
  `calculateChange` do not appear. A coin or price that only rounds to a legal value in
  PHP has no counterpart. Nor does the money that the truncation can lose: under IEEE-754
  doubles, `1.15 * 100` is `114.99999999999999` (worked out by hand), so
  `calculateChange(1.15)` starts from 114 cents and gives back 1.10, 5 cents short on an
  amount that is a multiple of 5. The model's change is exact on every multiple of 5
  (`ChangeExact`), so it does not capture this loss.
- `Drink` (app/Models/Drink.php) is folded into the catalogue, a map from name to price in
  cents.
- The Eloquent `Model` base class is not modelled, because it adds no logic here.
- `Machine.VendingMachine.AddCoin` requires the coin to be a key of the till. PHP would
  create a missing key, but `putCoin` only calls `addCoin` for a valid coin, and every valid
  coin is always a key.
- The `fromValue` default argument (`Symbol::BGN`) is passed explicitly to
  `Symbols.FromValue`.
