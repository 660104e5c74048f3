/**
 * The coin till of app/Models/VendingMachine.php as values: a map from denomination
 * (in cents) to a count, its weighted sum, the greedy change decomposition that
 * calculateChange performs and the breakdown that formatCoinsDescription lists.
 * A PHP array is an ordered map, so wherever the order of its keys matters it
 * travels beside the map as a sequence of keys.
 */
module Till {
  import opened Denominations

  type Coins = map<int, nat>

  /** The keys of a till: the five denominations. */
  function DenominationSet(): set<int> {
    {5, 10, 20, 50, 100}
  }

  /** The keys of a till are exactly the values of the denomination enum. */
  lemma DenominationSetIsValues()
    ensures forall k :: k in DenominationSet() <==> k in Values()
  {
  }

  /** The count under key k; a key the array does not hold reads as no coins. */
  function Count(m: Coins, k: int): nat {
    if k in m then m[k] else 0
  }

  /** Every denomination with a count of 0 (the till after initializeCoins or clearCoins). */
  function ZeroTill(): Coins {
    map[5 := 0, 10 := 0, 20 := 0, 50 := 0, 100 := 0]
  }

  /** The zero till has every denomination as a key and no coin under any key. */
  lemma ZeroTillEmpty()
    ensures ZeroTill().Keys == DenominationSet()
    ensures forall k :: Count(ZeroTill(), k) == 0
  {
    assert ZeroTill().Keys == DenominationSet() by {
      forall k ensures k in ZeroTill() <==> k in DenominationSet() {
      }
    }
  }

  /** The value of the coins counted by `m` under the keys `ks`, visited in order. */
  function Sum(m: Coins, ks: seq<int>): int
    decreases |ks|
  {
    if ks == [] then 0
    else
      var k := ks[|ks| - 1];
      Sum(m, ks[..|ks| - 1]) + k * Count(m, k)
  }

  lemma SumSnoc(m: Coins, ks: seq<int>, k: int)
    ensures Sum(m, ks + [k]) == Sum(m, ks) + k * Count(m, k)
  {
    assert (ks + [k])[..|ks|] == ks;
  }

  /** Visiting one more key of `ks` adds the value of its coins. */
  lemma SumPrefix(m: Coins, ks: seq<int>, i: nat)
    requires i < |ks|
    ensures Sum(m, ks[..i + 1]) == Sum(m, ks[..i]) + ks[i] * Count(m, ks[i])
  {
    assert ks[..i + 1][..i] == ks[..i];
  }

  /*
   * The value of the keys a, b, c, d, e visited in that order, one key at a time;
   * each step is a lemma of its own so that the solver sees one slice at a time.
   */
  lemma SumOfOne(m: Coins, a: int)
    ensures Sum(m, [a]) == a * Count(m, a)
  {
    assert [a][..0] == [];
  }

  lemma SumOfTwo(m: Coins, a: int, b: int)
    ensures Sum(m, [a, b]) == Sum(m, [a]) + b * Count(m, b)
  {
    assert [a, b][..1] == [a];
  }

  lemma SumOfThree(m: Coins, a: int, b: int, c: int)
    ensures Sum(m, [a, b, c]) == Sum(m, [a, b]) + c * Count(m, c)
  {
    assert [a, b, c][..2] == [a, b];
  }

  lemma SumOfFour(m: Coins, a: int, b: int, c: int, d: int)
    ensures Sum(m, [a, b, c, d]) == Sum(m, [a, b, c]) + d * Count(m, d)
  {
    assert [a, b, c, d][..3] == [a, b, c];
  }

  lemma SumOfFive(m: Coins, a: int, b: int, c: int, d: int, e: int)
    ensures Sum(m, [a, b, c, d, e])
         == a * Count(m, a) + b * Count(m, b) + c * Count(m, c) + d * Count(m, d) + e * Count(m, e)
  {
    SumOfOne(m, a);
    SumOfTwo(m, a, b);
    SumOfThree(m, a, b, c);
    SumOfFour(m, a, b, c, d);
    assert [a, b, c, d, e][..4] == [a, b, c, d];
  }

  /**
   * getCurrentAmount: the balance is the value of the till in ascending key order,
   * that is five cents per 5-cent coin, ten per 10-cent coin and so on.
   */
  function TillValue(m: Coins): (r: int)
    ensures r == 5 * Count(m, 5) + 10 * Count(m, 10) + 20 * Count(m, 20) + 50 * Count(m, 50) + 100 * Count(m, 100)
    ensures r >= 0
  {
    SumOfFive(m, 5, 10, 20, 50, 100);
    Sum(m, Values())
  }

  /** The till's value does not depend on the order in which the keys are visited. */
  lemma SumDescending(m: Coins)
    ensures Sum(m, Descending()) == TillValue(m)
  {
    SumOfFive(m, 100, 50, 20, 10, 5);
  }

  /** Visiting the keys in either of the till's two orders gives its value. */
  lemma SumInTillOrder(m: Coins, ks: seq<int>)
    requires ks == Values() || ks == Descending()
    ensures Sum(m, ks) == TillValue(m)
  {
    if ks == Descending() {
      SumDescending(m);
    }
  }

  /** Keys whose counts agree give the same sum. */
  lemma {:induction false} SumAgrees(m: Coins, n: Coins, ks: seq<int>)
    requires forall i :: 0 <= i < |ks| ==> Count(m, ks[i]) == Count(n, ks[i])
    ensures Sum(m, ks) == Sum(n, ks)
    decreases |ks|
  {
    if ks != [] {
      SumAgrees(m, n, ks[..|ks| - 1]);
    }
  }

  /** The state of calculateChange's greedy loop: the counts written so far and the cents still to give. */
  datatype Greedy = Greedy(coins: Coins, cents: int)

  /**
   * One pass of calculateChange's loop body for one denomination: as many coins as
   * fit into the cents left, written only when there is at least one.
   */
  function Step(g: Greedy, coin: int): (r: Greedy)
    requires coin > 0 && g.cents >= 0
    ensures 0 <= r.cents < coin && r.cents <= g.cents
  {
    var count := g.cents / coin;
    DivStep(g.cents, coin);
    if count > 0 then Greedy(g.coins[coin := count], g.cents - coin * count) else g
  }

  lemma DivStep(c: int, d: int)
    requires c >= 0 && d > 0
    ensures 0 <= c - d * (c / d) < d
    ensures c / d >= 0
  {
  }

  /** A step touches only its own denomination, and on a zero count it gives exactly what it writes. */
  lemma StepEffect(g: Greedy, coin: int, k: int)
    requires coin > 0 && g.cents >= 0
    ensures k != coin ==> Count(Step(g, coin).coins, k) == Count(g.coins, k)
    ensures Count(g.coins, coin) == 0 ==> coin * Count(Step(g, coin).coins, coin) + Step(g, coin).cents == g.cents
  {
    DivStep(g.cents, coin);
  }

  /**
   * The greedy loop after it has visited the `n` largest denominations, starting
   * from the all-zero till and `amount` cents.
   */
  function GreedyRun(amount: int, n: nat): (g: Greedy)
    requires amount >= 0 && n <= |Descending()|
    ensures 0 <= g.cents <= amount
  {
    if n == 0 then Greedy(ZeroTill(), amount)
    else Step(GreedyRun(amount, n - 1), Descending()[n - 1])
  }

  /** The greedy loop only ever overwrites existing keys. */
  lemma {:induction false} GreedyKeys(amount: int, n: nat)
    requires amount >= 0 && n <= |Descending()|
    ensures GreedyRun(amount, n).coins.Keys == DenominationSet()
  {
    if n == 0 {
      ZeroTillEmpty();
    } else {
      GreedyKeys(amount, n - 1);
      var g := GreedyRun(amount, n - 1);
      var coin := Descending()[n - 1];
      assert coin in g.coins;
      assert Step(g, coin).coins.Keys == g.coins.Keys;
    }
  }

  /** Denominations the loop has not reached yet still count zero. */
  lemma {:induction false} GreedyUntouched(amount: int, n: nat, j: nat)
    requires amount >= 0 && n <= j < |Descending()|
    ensures Count(GreedyRun(amount, n).coins, Descending()[j]) == 0
  {
    if n == 0 {
      ZeroTillEmpty();
    } else {
      GreedyUntouched(amount, n - 1, j);
      StepEffect(GreedyRun(amount, n - 1), Descending()[n - 1], Descending()[j]);
    }
  }

  /** The coins written by the greedy loop plus the cents it could not give make up the amount. */
  lemma {:induction false} GreedyAccounts(amount: int, n: nat)
    requires amount >= 0 && n <= |Descending()|
    ensures Sum(GreedyRun(amount, n).coins, Descending()[..n]) + GreedyRun(amount, n).cents == amount
  {
    if n > 0 {
      var ds := Descending();
      var pre, coin := ds[..n - 1], ds[n - 1];
      var g := GreedyRun(amount, n - 1);
      var r := GreedyRun(amount, n);
      GreedyAccounts(amount, n - 1);
      forall i | 0 <= i < |pre| ensures Count(r.coins, pre[i]) == Count(g.coins, pre[i]) {
        StepEffect(g, coin, pre[i]);
      }
      SumAgrees(r.coins, g.coins, pre);
      GreedyUntouched(amount, n - 1, n - 1);
      StepEffect(g, coin, coin);
      assert ds[..n] == pre + [coin];
      SumSnoc(r.coins, pre, coin);
    }
  }

  /** A count, once written for a denomination, is never touched by the later steps. */
  lemma {:induction false} GreedyCountKept(amount: int, n: nat, j: nat)
    requires amount >= 0 && j < n <= |Descending()|
    ensures Count(GreedyRun(amount, n).coins, Descending()[j]) == Count(GreedyRun(amount, j + 1).coins, Descending()[j])
  {
    if j < n - 1 {
      GreedyCountKept(amount, n - 1, j);
      StepEffect(GreedyRun(amount, n - 1), Descending()[n - 1], Descending()[j]);
    }
  }

  /** The greedy count of each denomination is worth less than one coin of the next larger size. */
  lemma GreedyCountBound(amount: int, j: nat)
    requires amount >= 0 && 0 < j < |Descending()|
    ensures Descending()[j] * Count(GreedyRun(amount, |Descending()|).coins, Descending()[j]) < Descending()[j - 1]
  {
    var coin := Descending()[j];
    var g := GreedyRun(amount, j);
    GreedyCountKept(amount, |Descending()|, j);
    GreedyUntouched(amount, j, j);
    StepEffect(g, coin, coin);
    assert g.cents < Descending()[j - 1];
  }

  /** calculateChange's result: all zeros for a non-positive amount, else the greedy counts, largest coin first. */
  function Change(amount: int): Coins {
    if amount <= 0 then ZeroTill()
    else GreedyRun(amount, |Descending()|).coins
  }

  /**
   * The key order of calculateChange's result: it is filled in ascending order and
   * returned as is for a non-positive amount, reversed otherwise.
   */
  function ChangeOrder(amount: int): (ks: seq<int>)
    ensures amount <= 0 ==> ks == Values()
    ensures amount > 0 ==> |ks| == |Values()| && forall i :: 0 <= i < |ks| ==> ks[i] == Values()[|Values()| - 1 - i]
  {
    if amount <= 0 then Values() else Descending()
  }

  /** The change has exactly the five denominations as keys. */
  lemma ChangeKeys(amount: int)
    ensures Change(amount).Keys == DenominationSet()
  {
    if amount <= 0 {
      ZeroTillEmpty();
    } else {
      GreedyKeys(amount, |Descending()|);
    }
  }

  /** The change never exceeds the amount and falls short of it by less than the smallest coin. */
  lemma ChangeShortfall(amount: int)
    requires amount > 0
    ensures TillValue(Change(amount)) <= amount
    ensures amount - TillValue(Change(amount)) < Values()[0]
  {
    var n := |Descending()|;
    GreedyAccounts(amount, n);
    assert Descending()[..n] == Descending();
    SumDescending(Change(amount));
  }

  /** The change is exact precisely when the amount is a multiple of the smallest coin. */
  lemma ChangeExact(amount: int)
    requires amount > 0
    ensures TillValue(Change(amount)) == amount <==> amount % Values()[0] == 0
  {
    ChangeShortfall(amount);
    MultipleOfFive(Change(amount));
  }

  /** Every till value is a multiple of 5 cents. */
  lemma MultipleOfFive(m: Coins)
    ensures TillValue(m) % 5 == 0
  {
    var t := Count(m, 5) + 2 * Count(m, 10) + 4 * Count(m, 20) + 10 * Count(m, 50) + 20 * Count(m, 100);
    assert TillValue(m) == 5 * t;
  }

  /** A non-positive amount gives no coins at all. */
  lemma ChangeOfNothing(amount: int)
    requires amount <= 0
    ensures forall k :: Count(Change(amount), k) == 0
    ensures TillValue(Change(amount)) == 0
  {
    ZeroTillEmpty();
  }

  /** The greedy bounds: at most one 50, two 20s, one 10 and one 5. */
  lemma ChangeCountBounds(amount: int)
    ensures Count(Change(amount), 50) <= 1 && Count(Change(amount), 20) <= 2
    ensures Count(Change(amount), 10) <= 1 && Count(Change(amount), 5) <= 1
  {
    if amount > 0 {
      GreedyCountBound(amount, 1);
      GreedyCountBound(amount, 2);
      GreedyCountBound(amount, 3);
      GreedyCountBound(amount, 4);
    } else {
      ZeroTillEmpty();
    }
  }

  /** What a purchase leaves: never more than the remaining amount, exact for multiples of the smallest coin. */
  lemma ChangeForRemainder(remaining: int)
    requires remaining >= 0
    ensures TillValue(Change(remaining)) <= remaining < TillValue(Change(remaining)) + Values()[0]
    ensures remaining % Values()[0] == 0 ==> TillValue(Change(remaining)) == remaining
  {
    if remaining > 0 {
      ChangeShortfall(remaining);
      ChangeExact(remaining);
    } else {
      ChangeOfNothing(remaining);
    }
  }

  /** The (denomination, count) pairs with a non-zero count, in the order `ks` visits the keys. */
  function Breakdown(m: Coins, ks: seq<int>): seq<(int, nat)>
    decreases |ks|
  {
    if ks == [] then []
    else
      var k := ks[|ks| - 1];
      Breakdown(m, ks[..|ks| - 1]) + (if Count(m, k) > 0 then [(k, Count(m, k))] else [])
  }

  /** Every listed pair is a key of `ks` with its true, non-zero count. */
  lemma {:induction false} BreakdownSound(m: Coins, ks: seq<int>, p: (int, nat))
    requires p in Breakdown(m, ks)
    ensures p.0 in ks && p.1 == Count(m, p.0) && p.1 > 0
    decreases |ks|
  {
    var k, pre := ks[|ks| - 1], ks[..|ks| - 1];
    if p in Breakdown(m, pre) {
      BreakdownSound(m, pre, p);
      assert forall x :: x in pre ==> x in ks;
    }
  }

  /** Every key of `ks` with a non-zero count is listed in the breakdown. */
  lemma {:induction false} BreakdownComplete(m: Coins, ks: seq<int>, k: int)
    requires k in ks && Count(m, k) > 0
    ensures (k, Count(m, k)) in Breakdown(m, ks)
    decreases |ks|
  {
    if ks[|ks| - 1] != k {
      assert k in ks[..|ks| - 1] by {
        var i :| 0 <= i < |ks| && ks[i] == k;
        assert ks[..|ks| - 1][i] == k;
      }
      BreakdownComplete(m, ks[..|ks| - 1], k);
    }
  }

  /** The value of a list of (denomination, count) pairs. */
  function Total(b: seq<(int, nat)>): int
    decreases |b|
  {
    if b == [] then 0 else Total(b[..|b| - 1]) + b[|b| - 1].0 * b[|b| - 1].1
  }

  lemma {:induction false} TotalAppend(b: seq<(int, nat)>, c: seq<(int, nat)>)
    ensures Total(b + c) == Total(b) + Total(c)
    decreases |c|
  {
    if c != [] {
      var bc := b + c;
      assert bc[..|bc| - 1] == b + c[..|c| - 1];
      assert bc[|bc| - 1] == c[|c| - 1];
      TotalAppend(b, c[..|c| - 1]);
    } else {
      assert b + c == b;
    }
  }

  /** The breakdown adds up to the value of the till: leaving out the zero counts loses nothing. */
  lemma {:induction false} BreakdownTotal(m: Coins, ks: seq<int>)
    ensures Total(Breakdown(m, ks)) == Sum(m, ks)
    decreases |ks|
  {
    if ks != [] {
      var k, pre := ks[|ks| - 1], ks[..|ks| - 1];
      var rest := if Count(m, k) > 0 then [(k, Count(m, k))] else [];
      BreakdownTotal(m, pre);
      assert Breakdown(m, ks) == Breakdown(m, pre) + rest;
      TotalAppend(Breakdown(m, pre), rest);
      assert Total(rest) == k * Count(m, k) by {
        if Count(m, k) > 0 {
          assert rest[..0] == [];
        }
      }
    }
  }

  /** A till with no coins has an empty breakdown. */
  lemma {:induction false} ZeroTillBreakdown(ks: seq<int>)
    ensures Breakdown(ZeroTill(), ks) == []
    decreases |ks|
  {
    if ks != [] {
      ZeroTillEmpty();
      ZeroTillBreakdown(ks[..|ks| - 1]);
    }
  }

  /** Depositing one coin of a denomination raises the till's value by exactly that coin. */
  lemma TillValueAdd(m: Coins, coin: int)
    requires coin in DenominationSet()
    ensures TillValue(m[coin := Count(m, coin) + 1]) == TillValue(m) + coin
  {
    var n := m[coin := Count(m, coin) + 1];
    assert Count(n, coin) == Count(m, coin) + 1;
    if coin == 5 {
      assert Count(n, 10) == Count(m, 10) && Count(n, 20) == Count(m, 20);
      assert Count(n, 50) == Count(m, 50) && Count(n, 100) == Count(m, 100);
    } else if coin == 10 {
      assert Count(n, 5) == Count(m, 5) && Count(n, 20) == Count(m, 20);
      assert Count(n, 50) == Count(m, 50) && Count(n, 100) == Count(m, 100);
    } else if coin == 20 {
      assert Count(n, 5) == Count(m, 5) && Count(n, 10) == Count(m, 10);
      assert Count(n, 50) == Count(m, 50) && Count(n, 100) == Count(m, 100);
    } else if coin == 50 {
      assert Count(n, 5) == Count(m, 5) && Count(n, 10) == Count(m, 10);
      assert Count(n, 20) == Count(m, 20) && Count(n, 100) == Count(m, 100);
    } else {
      assert Count(n, 5) == Count(m, 5) && Count(n, 10) == Count(m, 10);
      assert Count(n, 20) == Count(m, 20) && Count(n, 50) == Count(m, 50);
    }
  }
}
