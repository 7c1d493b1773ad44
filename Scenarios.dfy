/** Worked examples of the ledger: a residential building upgraded twice by
    bulk passes, a park the city cannot afford, a factory's production round,
    a city over its building limit, and a clone upgraded on its own. */
module Scenarios {
  import opened Errors
  import opened Resources
  import opened Production
  import opened Buildings
  import opened Creators
  import opened Cities

  /** A residential building with the default needs (10 wood, 5 stone) and a
      gain of 20 at level 1, in a city with 100 money and exactly what it
      needs: the first pass upgrades it, empties both resources and pays 20;
      the second pass catches the shortfall of stone and goes on, leaving the
      money at 120. Its capacity goes from 10 to 20. */
  lemma ResidentialTwoPasses()
    ensures var st := BuildingState("home", Residential(10, DefaultNeeds, 20), 1);
      var r1 := Pass([st], map["wood" := 10, "stone" := 5], 100, false);
      var r2 := Pass(r1.units, r1.stock, r1.money, false);
      && Capacity(st) == 10
      && r1 == PassResult([st.(level := 2)], map["wood" := 0, "stone" := 0], 120, None)
      && Capacity(r1.units[0]) == 20
      && r2 == PassResult(r1.units, r1.stock, 120, None)
      && UpgradeEffect(r1.units[0], r1.stock, 120).error == Some(InsufficientResource("stone"))
  {
    var st := BuildingState("home", Residential(10, DefaultNeeds, 20), 1);
    var stock := map["wood" := 10, "stone" := 5];
    DefaultNeedsContents();
    assert FirstShort(DefaultNeeds, stock) == 2 by {
      assert !Lacks(stock, DefaultNeeds[0]) && !Lacks(stock, DefaultNeeds[1]);
      assert DefaultNeeds[1..][1..] == [];
    }
    var after := ConsumeAll(stock, DefaultNeeds);
    assert DefaultNeeds[..1] == [Entry("stone", 5)] && DefaultNeeds[..1][..0] == [];
    assert ConsumeAll(stock, DefaultNeeds[..1]) == Debit(stock, "stone", 5);
    assert Debit(stock, "stone", 5) == map["wood" := 10, "stone" := 0];
    assert after == Debit(map["wood" := 10, "stone" := 0], "wood", 10);
    assert after == map["wood" := 0, "stone" := 0];
    assert [st][1..] == [];
    var o := UpgradeEffect(st, stock, 100);
    assert o == Outcome(st.(level := 2), after, 120, None);
    var u := st.(level := 2);
    assert FirstShort(DefaultNeeds, after) == 0 by { assert Lacks(after, DefaultNeeds[0]); }
    assert UpgradeEffect(u, after, 120) == Outcome(u, after, 120, Some(InsufficientResource("stone")));
    assert [u][1..] == [];
  }

  /** A residential building asked for level 7 starts at its maximum 3, and
      a park asked for level 2 starts at 1, since its constructor takes no level. */
  lemma ConstructLevels()
    ensures Construct("r", Residential(10, DefaultNeeds, 20), 7)
         == Success(BuildingState("r", Residential(10, DefaultNeeds, 20), 3))
    ensures Construct("p", Park(10, 30), 2) == Success(BuildingState("p", Park(10, 30), 1))
  {
  }

  /** Written `{{"wood",10},{"stone",5}}`, the default requirements iterate
      stone first, so an upgrade against an empty stock reports stone. */
  lemma EmptyStockReportsStone()
    ensures UpgradeEffect(BuildingState("h", Residential(10, DefaultNeeds, 20), 1), map[], 0).error
         == Some(InsufficientResource("stone"))
  {
    assert Lacks(map[], DefaultNeeds[0]);
  }

  /** A park (construction cost 30 by default) offered to a city holding 20
      is refused for want of funds: no building is admitted and the money stays. */
  lemma UnaffordablePark(creators: map<string, Creator>)
    requires "park" in creators && creators["park"] == ParkCreator
    ensures AdmissionEffect(Made(creators, "park", "green", []), 20) == Admission(None, 20, Some(InsufficientFunds))
  {
    assert Made(creators, "park", "green", []) == Success(BuildingState("green", Park(10, 30), 1));
  }

  /** A factory producing 20 wood at a cost of 30, run with 100 money and no
      wood: the money drops to 70 and the stock and statistics hold 20 wood. */
  lemma FactoryRound()
    ensures var y := ProduceEffect([Entry("wood", 20)], 30, map["wood" := 0], map[], 100);
      && y.money == 70 && y.error == None
      && Amount(y.stock, "wood") == 20 && Amount(y.stats, "wood") == 20
  {
    var prod := [Entry("wood", 20)];
    ProduceCredits(prod, 30, map["wood" := 0], map[], 100);
    assert prod[..0] == [];
    assert QuantityOf(prod, "wood") == 20;
  }

  /** `addBuilding` does not check the limit: a city without streets admits
      a commercial building, and then has -1 slots left. */
  method OverTheLimit() returns (slots: int)
    ensures slots == -1
  {
    var reg := new Registry();
    reg.RegisterBuiltins(false);
    var city := new City("town", 0);
    var e := city.AddBuilding(reg, "commercial", "shop", []);
    assert Made(reg.creators, "commercial", "shop", []) == Success(BuildingState("shop", Commercial(50), 1));
    slots := city.RemainingSlots();
  }

  /** Upgrading a clone changes neither the original nor its capacity. */
  method UpgradeClone(b: Building, pool: ResourcePool, money: int) returns (c: Building)
    requires b.Valid() && pool.Valid()
    modifies pool
    ensures fresh(c) && b.State() == old(b.State())
    ensures c.State() == UpgradeEffect(old(b.State()), old(pool.data), money).state
  {
    c := b.Clone();
    var _, _ := c.Upgrade(pool, money);
  }
}
