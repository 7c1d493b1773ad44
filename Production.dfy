/** What one production round of a factory does to money and to the stock
    and statistics ledgers (`FactoryBuilding::produce`). */
module Production {
  import opened Errors
  import opened Resources

  /** The index of the first entry with a negative quantity, or |prod| if none. */
  function FirstNegative(prod: seq<Entry>): (j: nat)
    ensures j <= |prod|
    ensures forall k :: 0 <= k < j ==> prod[k].qty >= 0
    ensures j < |prod| ==> prod[j].qty < 0
  {
    if prod == [] then 0
    else if prod[0].qty < 0 then 0
    else 1 + FirstNegative(prod[1..])
  }

  /** The first negative entry is the one every earlier entry is
      non-negative before and that is itself negative. */
  lemma FirstNegativeIs(prod: seq<Entry>, j: nat)
    requires j < |prod| && prod[j].qty < 0
    requires j <= FirstNegative(prod)
    ensures FirstNegative(prod) == j
  {
  }

  /** The stock, statistics and money after a round, and the error it raised. */
  datatype Yield = Yield(stock: Store, stats: Store, money: int, error: Option<Error>)

  /** One round over pools (include/Factory.hpp): `trySpend` the cost, then
      `add` each entry to the stock and then to the statistics. `add` refuses
      a negative quantity, so a negative entry stops the round after the cost
      was paid and the earlier entries were added. */
  function ProduceEffect(prod: seq<Entry>, cost: int, stock: Store, stats: Store, money: int): (y: Yield)
    ensures y.error == Some(InsufficientFunds) <==> money < cost
    ensures money < cost ==> y == Yield(stock, stats, money, Some(InsufficientFunds))
    ensures money >= cost ==> y.money == money - cost
    ensures y.error == None || y.error == Some(InsufficientFunds) || y.error == Some(NegativeQuantity)
  {
    if money < cost then Yield(stock, stats, money, Some(InsufficientFunds))
    else
      var j := FirstNegative(prod);
      Yield(AddAll(stock, prod[..j]), AddAll(stats, prod[..j]), money - cost,
            if j < |prod| then Some(NegativeQuantity) else None)
  }

  /** A round the factory cannot pay for changes nothing. */
  lemma ProduceUnaffordable(prod: seq<Entry>, cost: int, stock: Store, stats: Store, money: int)
    requires money < cost
    ensures ProduceEffect(prod, cost, stock, stats, money) == Yield(stock, stats, money, Some(InsufficientFunds))
  {
  }

  /** A paid round with non-negative quantities costs exactly `cost` and adds
      every listed quantity to both the stock and the statistics. */
  lemma ProduceCredits(prod: seq<Entry>, cost: int, stock: Store, stats: Store, money: int)
    requires money >= cost
    requires forall k :: 0 <= k < |prod| ==> prod[k].qty >= 0
    ensures var y := ProduceEffect(prod, cost, stock, stats, money);
      && y.error == None && y.money == money - cost
      && (forall n :: Amount(y.stock, n) == Amount(stock, n) + QuantityOf(prod, n))
      && (forall n :: Amount(y.stats, n) == Amount(stats, n) + QuantityOf(prod, n))
  {
    var j := FirstNegative(prod);
    assert j == |prod|;
    assert prod[..j] == prod;
    forall n ensures Amount(AddAll(stock, prod), n) == Amount(stock, n) + QuantityOf(prod, n)
                 && Amount(AddAll(stats, prod), n) == Amount(stats, n) + QuantityOf(prod, n) {
      AddAllAmount(stock, prod, n);
      AddAllAmount(stats, prod, n);
    }
  }

  /** For a production map (distinct names): each produced resource grows by
      its own quantity in both ledgers, and every other resource is unchanged. */
  lemma ProducePerResource(prod: seq<Entry>, cost: int, stock: Store, stats: Store, money: int)
    requires Keyed(prod) && money >= cost
    requires forall k :: 0 <= k < |prod| ==> prod[k].qty >= 0
    ensures var y := ProduceEffect(prod, cost, stock, stats, money);
      && (forall k :: 0 <= k < |prod| ==>
            Amount(y.stock, prod[k].name) == Amount(stock, prod[k].name) + prod[k].qty &&
            Amount(y.stats, prod[k].name) == Amount(stats, prod[k].name) + prod[k].qty)
      && (forall n :: n !in Names(prod) ==>
            Amount(y.stock, n) == Amount(stock, n) && Amount(y.stats, n) == Amount(stats, n))
  {
    ProduceCredits(prod, cost, stock, stats, money);
    forall k | 0 <= k < |prod| ensures QuantityOf(prod, prod[k].name) == prod[k].qty {
      QuantityOfKeyed(prod, k);
    }
    forall n | n !in Names(prod) ensures QuantityOf(prod, n) == 0 {
      QuantityOfAbsent(prod, n);
    }
  }

  /** A negative quantity stops the round with the cost already paid. */
  lemma ProduceNegativeKeepsPayment(prod: seq<Entry>, cost: int, stock: Store, stats: Store, money: int, k: nat)
    requires money >= cost && k < |prod| && prod[k].qty < 0
    ensures var y := ProduceEffect(prod, cost, stock, stats, money);
      y.error == Some(NegativeQuantity) && y.money == money - cost
  {
  }
}
