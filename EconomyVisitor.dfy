/** `EconomyTickVisitor`: one economy tick applied to a building through the
    visitor's references to a stock, a money counter and a statistics pool. */
module Economy {
  import opened Errors
  import opened Resources
  import opened Production
  import opened Buildings

  /** The `int&` the visitor holds: a cell whose value the visits update. */
  class MoneyRef {
    var value: int

    constructor (v: int)
      ensures value == v
    {
      value := v;
    }
  }

  /** What a tick does to a building's value, the stock, the statistics and
      the money: a factory produces, every other variant upgrades and leaves
      the statistics alone. */
  datatype Tick = Tick(state: BuildingState, stock: Store, stats: Store, money: int, error: Option<Error>)

  function TickEffect(st: BuildingState, stock: Store, stats: Store, money: int): (t: Tick)
    ensures !st.kind.Factory? ==> t.stats == stats
    ensures st.kind.Factory? ==> t.state == st
    ensures t.state == st.(level := t.state.level)
  {
    if st.kind.Factory? then
      var y := ProduceEffect(st.kind.production, st.kind.productionCost, stock, stats, money);
      Tick(st, y.stock, y.stats, y.money, y.error)
    else
      var o := UpgradeEffect(st, stock, money);
      Tick(o.state, o.stock, stats, o.money, o.error)
  }

  /** A tick never touches the statistics of a non-factory, never changes a
      factory, and is exactly the upgrade or the production round. */
  lemma TickLaw(st: BuildingState, stock: Store, stats: Store, money: int)
    requires Admissible(st)
    ensures var t := TickEffect(st, stock, stats, money);
      && (!st.kind.Factory? ==>
            && t.stats == stats
            && Outcome(t.state, t.stock, t.money, t.error) == UpgradeEffect(st, stock, money))
      && (st.kind.Factory? ==>
            && t.state == st
            && Yield(t.stock, t.stats, t.money, t.error)
               == ProduceEffect(st.kind.production, st.kind.productionCost, stock, stats, money))
      && Admissible(t.state)
  {
    UpgradeKeepsAdmissible(st, stock, money);
  }

  /** A factory whose cost is covered and whose quantities are non-negative
      adds its production to both the stock and the statistics in one tick. */
  lemma FactoryTickCredits(st: BuildingState, stock: Store, stats: Store, money: int)
    requires st.kind.Factory? && money >= st.kind.productionCost
    requires forall k :: 0 <= k < |st.kind.production| ==> st.kind.production[k].qty >= 0
    ensures var t := TickEffect(st, stock, stats, money);
      && t.error == None && t.money == money - st.kind.productionCost
      && (forall n :: Amount(t.stock, n) == Amount(stock, n) + QuantityOf(st.kind.production, n))
      && (forall n :: Amount(t.stats, n) == Amount(stats, n) + QuantityOf(st.kind.production, n))
  {
    ProduceCredits(st.kind.production, st.kind.productionCost, stock, stats, money);
  }

  class EconomyTick {
    const res: ResourcePool
    const purse: MoneyRef
    const stats: ResourcePool

    ghost predicate Valid()
      reads this, res, stats
    {
      res.Valid() && stats.Valid() && res != stats
    }

    constructor (r: ResourcePool, m: MoneyRef, s: ResourcePool)
      requires r.Valid() && s.Valid() && r != s
      ensures Valid() && res == r && purse == m && stats == s
    {
      res := r;
      purse := m;
      stats := s;
    }

    /** `visit`: every effect lands in the objects the visitor refers to;
        the error of the upgrade or production round is passed on. */
    method Visit(b: Building) returns (error: Option<Error>)
      requires Valid() && b.Valid()
      modifies b, res, stats, purse
      ensures Valid() && b.Valid()
      ensures var t := TickEffect(old(b.State()), old(res.data), old(stats.data), old(purse.value));
        b.State() == t.state && res.data == t.stock && stats.data == t.stats
        && purse.value == t.money && error == t.error
    {
      var after;
      if b.kind.Factory? {
        error, after := b.Produce(res, purse.value, stats);
      } else {
        error, after := b.Upgrade(res, purse.value);
      }
      purse.value := after;
    }
  }
}
