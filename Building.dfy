/** The five building variants: construction (level clamping and argument
    checks), the upgrade state machine of each variant, capacity, cloning,
    and factory production. The C++ class hierarchy becomes one `Building`
    class whose variant data is the `Kind` datatype. */
module Buildings {
  import opened Errors
  import opened Resources
  import opened Production

  /** The variant-specific fields. `coverage` and `boost` are `double`s in the
      source that are only ever used through `static_cast<int>`; they are
      stored here as that truncated value. */
  datatype Kind =
    | Residential(capacityBase: int, needs: seq<Entry>, moneyPerUpgrade: int)
    | Utility(utilityType: string, coverage: int, upgradeCost: int)
    | Park(boost: int, constructionCost: int)
    | Commercial(customersPerLevel: int)
    | Factory(production: seq<Entry>, productionCost: int)

  /** The `maxLevel_` each variant's constructor passes to `Building`. */
  function MaxLevel(k: Kind): int {
    match k
    case Residential(_, _, _) => 3
    case Utility(_, _, _) => 3
    case Park(_, _) => 2
    case Commercial(_) => 4
    case Factory(_, _) => 1
  }

  /** The level `Building::Building` stores: `max(1, min(maxL, lvl))`. */
  function ClampLevel(lvl: int, maxL: int): (r: int)
    ensures r >= 1
    ensures maxL >= 1 ==> r <= maxL
    ensures 1 <= lvl <= maxL ==> r == lvl
    ensures lvl < 1 ==> r == 1
    ensures lvl > maxL && maxL >= 1 ==> r == maxL
  {
    var m := if maxL < lvl then maxL else lvl;
    if m < 1 then 1 else m
  }

  /** The check each variant's constructor makes after `Building::Building`. */
  function Fault(k: Kind): Option<Error> {
    match k
    case Residential(cap, _, _) => if cap <= 0 then Some(NonPositiveCapacity) else None
    case Commercial(customers) => if customers < 0 then Some(NegativeCustomers) else None
    case Factory(prod, cost) =>
      if prod == [] then Some(NoProduction)
      else if cost <= 0 then Some(NonPositiveProductionCost)
      else None
    case _ => None
  }

  /** The requirement and production maps are `std::map`s: their names are
      listed in the map's ascending iteration order. `Keyed` follows from
      `Ascending` (`AscendingKeyed`); it is kept as a conjunct because the
      proofs about quantities use it directly. */
  predicate MapsKeyed(k: Kind) {
    match k
    case Residential(_, needs, _) => Keyed(needs) && Ascending(needs)
    case Factory(prod, _) => Keyed(prod) && Ascending(prod)
    case _ => true
  }

  /** The value of a building: what a clone copies and what an upgrade changes. */
  datatype BuildingState = BuildingState(name: string, kind: Kind, level: int)

  /** The level a variant's constructor hands to `Building::Building`: a park
      takes no level parameter and passes 1; every other variant passes the
      requested level (a factory's maximum is 1, so it starts at 1 as well). */
  function StartLevel(kind: Kind, lvl: int): int {
    if kind.Park? then 1 else lvl
  }

  /** What constructing a variant yields: the clamped level, or the constructor's error. */
  function Construct(name: string, kind: Kind, lvl: int): (r: Result<BuildingState>)
    ensures r.Failure? <==> Fault(kind).Some?
    ensures r.Failure? ==> r.error == Fault(kind).value
    ensures r.Success? ==> r.value.name == name && r.value.kind == kind
    ensures r.Success? ==> r.value.level == ClampLevel(StartLevel(kind, lvl), MaxLevel(kind))
    ensures r.Success? ==> 1 <= r.value.level <= MaxLevel(kind)
    ensures r.Success? && (kind.Park? || kind.Factory?) ==> r.value.level == 1
    ensures r.Success? && !kind.Park? && 1 <= lvl <= MaxLevel(kind) ==> r.value.level == lvl
    ensures r.Success? && !kind.Park? && lvl > MaxLevel(kind) ==> r.value.level == MaxLevel(kind)
    ensures r.Success? && lvl < 1 ==> r.value.level == 1
  {
    match Fault(kind)
    case Some(e) => Failure(e)
    case None => Success(BuildingState(name, kind, ClampLevel(StartLevel(kind, lvl), MaxLevel(kind))))
  }

  /** What holds of every constructed building at all times. Commercial
      buildings have no bound on their level: their upgrade never checks it. */
  ghost predicate Admissible(st: BuildingState) {
    && MapsKeyed(st.kind)
    && Fault(st.kind) == None
    && 1 <= st.level
    && (!st.kind.Commercial? ==> st.level <= MaxLevel(st.kind))
  }

  /** The stock lacks what the entry requires. */
  predicate Lacks(stock: Store, e: Entry) {
    Amount(stock, e.name) < e.qty
  }

  /** The first requirement (in map order) the stock lacks, or |needs| if none. */
  function FirstShort(needs: seq<Entry>, stock: Store): (j: nat)
    ensures j <= |needs|
    ensures forall k :: 0 <= k < j ==> !Lacks(stock, needs[k])
    ensures j < |needs| ==> Lacks(stock, needs[j])
  {
    if needs == [] then 0
    else if Lacks(stock, needs[0]) then 0
    else 1 + FirstShort(needs[1..], stock)
  }

  /** The building, stock and money after an upgrade call, and the error it raised. */
  datatype Outcome = Outcome(state: BuildingState, stock: Store, money: int, error: Option<Error>)

  /** `upgrade(ResourcePool<int>&, int&)` of each variant (src/Building.cpp,
      include/Factory.hpp). */
  function UpgradeEffect(st: BuildingState, stock: Store, money: int): (o: Outcome)
    ensures o.state == st.(level := o.state.level)
    ensures st.level <= o.state.level <= st.level + 1
    ensures o.error.Some? ==> o == Outcome(st, stock, money, o.error)
    ensures !st.kind.Residential? ==> o.stock == stock
  {
    var same := Outcome(st, stock, money, None);
    var raised := st.(level := st.level + 1);
    match st.kind
    case Residential(_, needs, gain) =>
      if st.level >= MaxLevel(st.kind) then same
      else
        var j := FirstShort(needs, stock);
        if j < |needs| then same.(error := Some(InsufficientResource(needs[j].name)))
        else Outcome(raised, ConsumeAll(stock, needs), money + gain, None)
    case Utility(_, _, cost) =>
      if st.level >= MaxLevel(st.kind) then same
      else if money < cost then same.(error := Some(InsufficientFunds))
      else Outcome(raised, stock, money - cost, None)
    case Park(_, _) =>
      if st.level < MaxLevel(st.kind) then same.(state := raised) else same
    case Commercial(_) =>
      var cost := 20 * st.level;
      if money < cost then same.(error := Some(InsufficientFunds))
      else Outcome(raised, stock, money - cost, None)
    case Factory(_, _) => same
  }

  /** `upgrade(std::map<std::string,int>&, int&)` of the root variant
      (Building.cpp, Factory.hpp). It differs only for Residential: every
      requirement is read with `operator[]`, which inserts the names it reads,
      up to and including the first short one, with value zero. */
  function MapUpgradeEffect(st: BuildingState, stock: Store, money: int): (o: Outcome)
    ensures o.state == st.(level := o.state.level)
    ensures st.level <= o.state.level <= st.level + 1
    ensures o.error.Some? ==> o.state == st && o.money == money
    ensures !st.kind.Residential? ==> o == UpgradeEffect(st, stock, money)
  {
    match st.kind
    case Residential(_, needs, gain) =>
      if st.level >= MaxLevel(st.kind) then Outcome(st, stock, money, None)
      else
        var j := FirstShort(needs, stock);
        if j < |needs| then Outcome(st, Touch(stock, needs[..j + 1]), money, Some(InsufficientResource(needs[j].name)))
        else Outcome(st.(level := st.level + 1), ConsumeAll(Touch(stock, needs), needs), money + gain, None)
    case _ => UpgradeEffect(st, stock, money)
  }

  /** `capacityEffect()` of each variant. */
  function Capacity(st: BuildingState): int {
    match st.kind
    case Residential(base, _, _) => base * st.level
    case Utility(_, coverage, _) => coverage * st.level
    case Park(boost, _) => boost * st.level
    case Commercial(customers) => customers * st.level
    case Factory(prod, _) => Total(prod)
  }

  /** Capacity is the per-level figure times the level, except a factory's,
      which is the sum of its production whatever the level. */
  lemma CapacityScales(st: BuildingState, l: int)
    ensures !st.kind.Factory? ==> Capacity(st.(level := l)) == l * Capacity(st.(level := 1))
    ensures st.kind.Factory? ==> Capacity(st.(level := l)) == Capacity(st)
  {
  }

  /** Residential upgrade: a no-op at level 3; below it, either every
      requirement is met and each is consumed exactly, the level rises by one
      and the money gain is paid, or the first short requirement is named and
      nothing changes. */
  lemma ResidentialUpgradeLaw(st: BuildingState, stock: Store, money: int)
    requires st.kind.Residential? && Keyed(st.kind.needs)
    ensures var o := UpgradeEffect(st, stock, money);
      var needs := st.kind.needs;
      && (st.level >= 3 ==> o == Outcome(st, stock, money, None))
      && (st.level < 3 && (exists k :: 0 <= k < |needs| && Lacks(stock, needs[k])) ==>
            && o.state == st && o.stock == stock && o.money == money
            && (exists j :: 0 <= j < |needs| && Lacks(stock, needs[j])
                  && (forall k :: 0 <= k < j ==> !Lacks(stock, needs[k]))
                  && o.error == Some(InsufficientResource(needs[j].name))))
      && (st.level < 3 && (forall k :: 0 <= k < |needs| ==> !Lacks(stock, needs[k])) ==>
            && o.error == None
            && o.state == st.(level := st.level + 1)
            && o.money == money + st.kind.moneyPerUpgrade
            && (forall k :: 0 <= k < |needs| ==>
                  Amount(o.stock, needs[k].name) == Amount(stock, needs[k].name) - needs[k].qty)
            && (forall n :: n !in Names(needs) ==> Amount(o.stock, n) == Amount(stock, n)))
  {
    var needs := st.kind.needs;
    var j := FirstShort(needs, stock);
    if st.level < 3 && j == |needs| {
      forall k | 0 <= k < |needs|
        ensures Amount(ConsumeAll(stock, needs), needs[k].name) == Amount(stock, needs[k].name) - needs[k].qty
      {
        ConsumeAllAmount(stock, needs, needs[k].name);
        QuantityOfKeyed(needs, k);
      }
      forall n | n !in Names(needs) ensures Amount(ConsumeAll(stock, needs), n) == Amount(stock, n) {
        ConsumeAllAmount(stock, needs, n);
        QuantityOfAbsent(needs, n);
      }
    }
  }

  /** With the requirements in map order, a residential upgrade that finds
      some requirement short names the short resource whose name comes first,
      whatever order the requirements were written in. */
  lemma ResidentialNamesFirstShortResource(st: BuildingState, stock: Store, money: int)
    requires st.kind.Residential? && Ascending(st.kind.needs) && st.level < 3
    requires exists k :: 0 <= k < |st.kind.needs| && Lacks(stock, st.kind.needs[k])
    ensures var o := UpgradeEffect(st, stock, money);
      var needs := st.kind.needs;
      && o.error.Some? && o.error.value.InsufficientResource?
      && (exists k :: 0 <= k < |needs| && Lacks(stock, needs[k]) && needs[k].name == o.error.value.resource)
      && (forall k :: 0 <= k < |needs| && Lacks(stock, needs[k]) && needs[k].name != o.error.value.resource ==>
            StrLess(o.error.value.resource, needs[k].name))
  {
    var needs := st.kind.needs;
    var j := FirstShort(needs, stock);
    forall k | 0 <= k < |needs| && Lacks(stock, needs[k]) && needs[k].name != needs[j].name
      ensures StrLess(needs[j].name, needs[k].name)
    {
      assert j < k;
    }
  }

  /** Utility upgrade: a no-op at level 3 whatever the money; below it the
      cost is paid and the level rises, or the money is short and nothing changes. */
  lemma UtilityUpgradeLaw(st: BuildingState, stock: Store, money: int)
    requires st.kind.Utility?
    ensures var o := UpgradeEffect(st, stock, money);
      && o.stock == stock
      && (st.level >= 3 ==> o == Outcome(st, stock, money, None))
      && (st.level < 3 && money < st.kind.upgradeCost ==> o == Outcome(st, stock, money, Some(InsufficientFunds)))
      && (st.level < 3 && money >= st.kind.upgradeCost ==>
            o == Outcome(st.(level := st.level + 1), stock, money - st.kind.upgradeCost, None))
  {
  }

  /** Park upgrade: free, never fails, and stops at level 2. */
  lemma ParkUpgradeLaw(st: BuildingState, stock: Store, money: int)
    requires st.kind.Park? && 1 <= st.level <= 2
    ensures var o := UpgradeEffect(st, stock, money);
      o == Outcome(st.(level := if st.level < 2 then st.level + 1 else 2), stock, money, None)
  {
  }

  /** Commercial upgrade: costs 20 times the level before the increment and
      has no maximum, so a level-4 building still rises to 5. */
  lemma CommercialUpgradeLaw(st: BuildingState, stock: Store, money: int)
    requires st.kind.Commercial?
    ensures var o := UpgradeEffect(st, stock, money);
      && o.stock == stock
      && (money < 20 * st.level ==> o == Outcome(st, stock, money, Some(InsufficientFunds)))
      && (money >= 20 * st.level ==> o == Outcome(st.(level := st.level + 1), stock, money - 20 * st.level, None))
      && (st.level >= MaxLevel(st.kind) && money >= 20 * st.level ==> o.state.level > MaxLevel(st.kind))
  {
  }

  /** Factory upgrade changes nothing. */
  lemma FactoryUpgradeIsNoOp(st: BuildingState, stock: Store, money: int)
    requires st.kind.Factory?
    ensures UpgradeEffect(st, stock, money) == Outcome(st, stock, money, None)
  {
  }

  /** An upgrade keeps the building admissible and only ever changes its level. */
  lemma UpgradeKeepsAdmissible(st: BuildingState, stock: Store, money: int)
    requires Admissible(st)
    ensures var o := UpgradeEffect(st, stock, money);
      && Admissible(o.state)
      && o.state == st.(level := o.state.level)
      && (o.error.Some? ==> o.state == st && o.money == money && o.stock == stock)
  {
  }

  /** The level reached after `n` successful upgrades. */
  function ReachedLevel(st: BuildingState, n: nat): int {
    if st.kind.Commercial? then st.level + n
    else if st.level + n <= MaxLevel(st.kind) then st.level + n
    else MaxLevel(st.kind)
  }

  /** `n` upgrade calls in a row, stopping at the first error. */
  function UpgradedTimes(st: BuildingState, stock: Store, money: int, n: nat): Outcome
    decreases n
  {
    if n == 0 then Outcome(st, stock, money, None)
    else
      var o := UpgradeEffect(st, stock, money);
      if o.error.Some? then o else UpgradedTimes(o.state, o.stock, o.money, n - 1)
  }

  /** After `n` successful upgrades a building is at level min(initial + n,
      maxLevel) (no cap for Commercial), so its capacity is the variant's
      formula at that level. */
  lemma {:induction false} RepeatedUpgradeLevel(st: BuildingState, stock: Store, money: int, n: nat)
    requires Admissible(st)
    decreases n
    ensures var o := UpgradedTimes(st, stock, money, n);
      o.error == None ==>
        && o.state == st.(level := ReachedLevel(st, n))
        && Capacity(o.state) == Capacity(st.(level := ReachedLevel(st, n)))
  {
    if n > 0 {
      var o := UpgradeEffect(st, stock, money);
      UpgradeKeepsAdmissible(st, stock, money);
      if o.error == None {
        RepeatedUpgradeLevel(o.state, o.stock, o.money, n - 1);
      }
    }
  }

  /** The root variant's upgrade over a plain map agrees with the pool
      variant on the building, the money, the error and every quantity; the
      maps can differ only by the zero entries `operator[]` inserted, and not
      at all after a successful upgrade. */
  lemma MapUpgradeAgrees(st: BuildingState, stock: Store, money: int)
    ensures var p := UpgradeEffect(st, stock, money);
      var m := MapUpgradeEffect(st, stock, money);
      && m.state == p.state && m.money == p.money && m.error == p.error
      && (forall n :: Amount(m.stock, n) == Amount(p.stock, n))
      && p.stock.Keys <= m.stock.Keys
      && (m.error == None ==> m.stock == p.stock)
  {
    if st.kind.Residential? && st.level < MaxLevel(st.kind) {
      var needs := st.kind.needs;
      var j := FirstShort(needs, stock);
      if j < |needs| {
        TouchEffect(stock, needs[..j + 1]);
      } else {
        TouchThenConsume(stock, needs);
      }
    }
  }

  /** Reading one more requirement: the map grows by that name's entry,
      which reads as it did in the stock. */
  lemma TouchStep(stock: Store, needs: seq<Entry>, i: nat)
    requires i < |needs|
    ensures var n := needs[i].name;
      && Touch(stock, needs[..i + 1]) == Index(Touch(stock, needs[..i]), n)
      && n in Touch(stock, needs[..i + 1])
      && Touch(stock, needs[..i + 1])[n] == Amount(stock, n)
  {
    assert needs[..i + 1][..i] == needs[..i];
    TouchEffect(stock, needs[..i]);
  }

  /** The first short requirement is the one every earlier requirement is
      met before and that is itself lacking (or the end). */
  lemma FirstShortIs(needs: seq<Entry>, stock: Store, j: nat)
    requires j <= |needs|
    requires forall k :: 0 <= k < j ==> !Lacks(stock, needs[k])
    requires j < |needs| ==> Lacks(stock, needs[j])
    ensures FirstShort(needs, stock) == j
  {
  }

  /** The src/ residential check loop: `get` on each requirement until the
      first one the pool falls short of. */
  method CheckNeeds(pool: ResourcePool, needs: seq<Entry>) returns (j: nat)
    ensures j == FirstShort(needs, pool.data)
  {
    var i := 0;
    while i < |needs|
      invariant 0 <= i <= |needs|
      invariant forall k :: 0 <= k < i ==> !Lacks(pool.data, needs[k])
    {
      if pool.Get(needs[i].name) < needs[i].qty {
        return i;
      }
      i := i + 1;
    }
    return |needs|;
  }

  /** The src/ residential deduction loop: `consume` of each requirement, all
      of which the pool holds. */
  method ConsumeNeeds(pool: ResourcePool, needs: seq<Entry>)
    requires pool.Valid() && Keyed(needs)
    requires forall k :: 0 <= k < |needs| ==> !Lacks(pool.data, needs[k])
    modifies pool
    ensures pool.Valid() && pool.data == ConsumeAll(old(pool.data), needs)
  {
    ghost var start := pool.data;
    var i := 0;
    while i < |needs|
      invariant 0 <= i <= |needs|
      invariant pool.Valid()
      invariant pool.data == ConsumeAll(start, needs[..i])
    {
      var n := needs[i].name;
      assert n !in Names(needs[..i]) by {
        forall k | 0 <= k < i ensures needs[..i][k].name != n {
          assert needs[..i][k] == needs[k];
        }
      }
      QuantityOfAbsent(needs[..i], n);
      ConsumeAllAmount(start, needs[..i], n);
      var _ := pool.Consume(n, needs[i].qty);
      assert needs[..i + 1][..i] == needs[..i];
      i := i + 1;
    }
    assert needs[..|needs|] == needs;
  }

  /** The src/ production loop: each entry is added to the stock and then to
      the statistics, until `add` refuses a negative quantity. */
  method AddProduction(pool: ResourcePool, stats: ResourcePool, prod: seq<Entry>) returns (error: Option<Error>)
    requires pool.Valid() && stats.Valid() && pool != stats
    modifies pool, stats
    ensures pool.Valid() && stats.Valid()
    ensures var j := FirstNegative(prod);
      && pool.data == AddAll(old(pool.data), prod[..j]) && stats.data == AddAll(old(stats.data), prod[..j])
      && error == (if j < |prod| then Some(NegativeQuantity) else None)
  {
    var i := 0;
    while i < |prod|
      invariant 0 <= i <= FirstNegative(prod)
      invariant pool.Valid() && stats.Valid()
      invariant pool.data == AddAll(old(pool.data), prod[..i])
      invariant stats.data == AddAll(old(stats.data), prod[..i])
    {
      AddAllStep(old(pool.data), prod, i);
      AddAllStep(old(stats.data), prod, i);
      var e := pool.Add(prod[i].name, prod[i].qty);
      if e.Some? {
        FirstNegativeIs(prod, i);
        return e;
      }
      var _ := stats.Add(prod[i].name, prod[i].qty);
      i := i + 1;
    }
    return None;
  }

  /** The root residential check loop: each requirement is read with
      `operator[]` (inserting a zero entry) until the first short one. It
      returns that index, or |needs|, and the map the reads leave behind. */
  method ReadNeeds(needs: seq<Entry>, stock: Store) returns (j: nat, s: Store)
    ensures j == FirstShort(needs, stock)
    ensures j < |needs| ==> s == Touch(stock, needs[..j + 1])
    ensures j == |needs| ==> s == Touch(stock, needs)
  {
    s := stock;
    var i := 0;
    while i < |needs|
      invariant 0 <= i <= |needs|
      invariant s == Touch(stock, needs[..i])
      invariant forall k :: 0 <= k < i ==> !Lacks(stock, needs[k])
    {
      TouchStep(stock, needs, i);
      s := Index(s, needs[i].name);
      if s[needs[i].name] < needs[i].qty {
        FirstShortIs(needs, stock, i);
        return i, s;
      }
      i := i + 1;
    }
    FirstShortIs(needs, stock, |needs|);
    assert needs[..|needs|] == needs;
    return |needs|, s;
  }

  /** The root residential deduction loop: `resources[name] -= amount` for each requirement. */
  method DeductNeeds(needs: seq<Entry>, stock: Store) returns (s: Store)
    ensures s == ConsumeAll(stock, needs)
  {
    s := stock;
    var i := 0;
    while i < |needs|
      invariant 0 <= i <= |needs|
      invariant s == ConsumeAll(stock, needs[..i])
    {
      assert needs[..i + 1][..i] == needs[..i];
      s := Debit(s, needs[i].name, needs[i].qty);
      i := i + 1;
    }
    assert needs[..|needs|] == needs;
  }

  /** A building object: `name_`, `level_`, `maxLevel_` and the variant's fields. */
  class Building {
    const name: string
    const kind: Kind
    const maxLevel: int
    var level: int

    function State(): BuildingState
      reads this
    {
      BuildingState(name, kind, level)
    }

    ghost predicate Valid()
      reads this
    {
      maxLevel == MaxLevel(kind) && Admissible(State())
    }

    /** The constructor once its argument check has passed. */
    constructor (name: string, kind: Kind, lvl: int)
      requires MapsKeyed(kind) && Fault(kind) == None
      ensures Valid() && State() == Construct(name, kind, lvl).value
    {
      this.name := name;
      this.kind := kind;
      this.maxLevel := MaxLevel(kind);
      this.level := ClampLevel(StartLevel(kind, lvl), MaxLevel(kind));
    }

    /** The copy constructor `clone_shared` uses: every field as it is. */
    constructor Copy(other: Building)
      requires other.Valid()
      ensures Valid() && State() == other.State()
    {
      name := other.name;
      kind := other.kind;
      maxLevel := other.maxLevel;
      level := other.level;
    }

    /** A variant's constructor: it throws when its argument check fails. */
    static method Make(name: string, kind: Kind, lvl: int) returns (r: Result<Building>)
      requires MapsKeyed(kind)
      ensures var c := Construct(name, kind, lvl);
        && r.Failure? == c.Failure?
        && (r.Failure? ==> r.error == c.error)
        && (r.Success? ==> fresh(r.value) && r.value.Valid() && r.value.State() == c.value)
    {
      match Fault(kind)
      case Some(e) =>
        return Failure(e);
      case None =>
        var b := new Building(name, kind, lvl);
        return Success(b);
    }

    /** `clone_shared`: a new, independent building with the same fields. */
    method Clone() returns (c: Building)
      requires Valid()
      ensures fresh(c) && c.Valid() && c.State() == State()
    {
      c := new Building.Copy(this);
    }

    /** Upgrade against a `ResourcePool`; `money` is passed by reference, so
        its new value comes back as `after`. */
    method Upgrade(pool: ResourcePool, money: int) returns (error: Option<Error>, after: int)
      requires Valid() && pool.Valid()
      modifies this, pool
      ensures Valid() && pool.Valid()
      ensures var o := UpgradeEffect(old(State()), old(pool.data), money);
        State() == o.state && pool.data == o.stock && after == o.money && error == o.error
    {
      UpgradeKeepsAdmissible(State(), pool.data, money);
      match kind
      case Residential(_, needs, gain) =>
        if level >= maxLevel {
          return None, money;
        }
        var j := CheckNeeds(pool, needs);
        if j < |needs| {
          return Some(InsufficientResource(needs[j].name)), money;
        }
        ConsumeNeeds(pool, needs);
        level := level + 1;
        return None, money + gain;
      case _ =>
        error, after := UpgradeWithMoneyOnly(money);
    }

    /** The upgrade of the variants that leave the resource store alone
        (Utility, Park, Commercial, Factory); it is the same in both variants. */
    method UpgradeWithMoneyOnly(money: int) returns (error: Option<Error>, after: int)
      requires Valid() && !kind.Residential?
      modifies this
      ensures Valid()
      ensures forall stock :: var o := UpgradeEffect(old(State()), stock, money);
        State() == o.state && after == o.money && error == o.error && o.stock == stock
    {
      UpgradeKeepsAdmissible(State(), map[], money);
      match kind
      case Utility(_, _, cost) =>
        if level >= maxLevel {
          return None, money;
        }
        if money < cost {
          return Some(InsufficientFunds), money;
        }
        level := level + 1;
        return None, money - cost;
      case Park(_, _) =>
        if level < maxLevel {
          level := level + 1;
        }
        return None, money;
      case Commercial(_) =>
        var cost := 20 * level;
        if money < cost {
          return Some(InsufficientFunds), money;
        }
        level := level + 1;
        return None, money - cost;
      case Factory(_, _) =>
        return None, money;
    }

    /** Upgrade against a plain map (the root variant); the map and `money`
        are passed by reference, so their new values come back. */
    method UpgradeOnMap(stock: Store, money: int) returns (error: Option<Error>, stockAfter: Store, after: int)
      requires Valid()
      modifies this
      ensures Valid()
      ensures var o := MapUpgradeEffect(old(State()), stock, money);
        State() == o.state && stockAfter == o.stock && after == o.money && error == o.error
    {
      if kind.Residential? {
        error, stockAfter, after := ResidentialUpgradeOnMap(stock, money);
      } else {
        error, after := UpgradeWithMoneyOnly(money);
        stockAfter := stock;
      }
    }

    /** Root `ResidentialBuilding::upgrade`: the requirements are read
        through `operator[]` until one is short, then each is deducted in place. */
    method ResidentialUpgradeOnMap(stock: Store, money: int) returns (error: Option<Error>, stockAfter: Store, after: int)
      requires Valid() && kind.Residential?
      modifies this
      ensures Valid()
      ensures var o := MapUpgradeEffect(old(State()), stock, money);
        State() == o.state && stockAfter == o.stock && after == o.money && error == o.error
    {
      var needs := kind.needs;
      if level >= maxLevel {
        return None, stock, money;
      }
      var j, s := ReadNeeds(needs, stock);
      if j < |needs| {
        return Some(InsufficientResource(needs[j].name)), s, money;
      }
      stockAfter := DeductNeeds(needs, s);
      level := level + 1;
      return None, stockAfter, money + kind.moneyPerUpgrade;
    }

    /** `capacityEffect()`; for a factory it is a summing loop over the production map. */
    method CapacityEffect() returns (c: int)
      ensures c == Capacity(State())
    {
      match kind
      case Residential(base, _, _) => c := base * level;
      case Utility(_, coverage, _) => c := coverage * level;
      case Park(boost, _) => c := boost * level;
      case Commercial(customers) => c := customers * level;
      case Factory(prod, _) =>
        c := 0;
        var i := 0;
        while i < |prod|
          invariant 0 <= i <= |prod|
          invariant c == Total(prod[..i])
        {
          assert prod[..i + 1][..i] == prod[..i];
          c := c + prod[i].qty;
          i := i + 1;
        }
        assert prod[..|prod|] == prod;
    }

    /** `FactoryBuilding::produce` over pools (include/Factory.hpp): the
        factory itself is `const`; stock, money and statistics change. */
    method Produce(pool: ResourcePool, money: int, stats: ResourcePool) returns (error: Option<Error>, after: int)
      requires kind.Factory? && pool.Valid() && stats.Valid() && pool != stats
      modifies pool, stats
      ensures pool.Valid() && stats.Valid()
      ensures var y := ProduceEffect(kind.production, kind.productionCost, old(pool.data), old(stats.data), money);
        pool.data == y.stock && stats.data == y.stats && after == y.money && error == y.error
    {
      var prod := kind.production;
      var paid;
      paid, after := TrySpend(money, kind.productionCost);
      if !paid {
        return Some(InsufficientFunds), after;
      }
      error := AddProduction(pool, stats, prod);
    }

    /** `FactoryBuilding::produce` over a plain map (Factory.hpp): the cost is
        paid once and each quantity is added to its entry (absent reads as 0). */
    method ProduceOnMap(stock: Store, money: int) returns (error: Option<Error>, stockAfter: Store, after: int)
      requires kind.Factory?
      ensures money < kind.productionCost ==>
        error == Some(InsufficientFunds) && stockAfter == stock && after == money
      ensures money >= kind.productionCost ==>
        error == None && stockAfter == AddAll(stock, kind.production) && after == money - kind.productionCost
    {
      var prod := kind.production;
      if money < kind.productionCost {
        return Some(InsufficientFunds), stock, money;
      }
      after := money - kind.productionCost;
      stockAfter := stock;
      var i := 0;
      while i < |prod|
        invariant 0 <= i <= |prod|
        invariant stockAfter == AddAll(stock, prod[..i])
      {
        assert prod[..i + 1][..i] == prod[..i];
        stockAfter := Credit(stockAfter, prod[i].name, prod[i].qty);
        i := i + 1;
      }
      assert prod[..|prod|] == prod;
      error := None;
    }
  }
}
