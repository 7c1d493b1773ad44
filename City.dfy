/** The city: money, a resource stock, production statistics, streets and
    an ordered list of buildings, with the bulk operations over them. */
module Cities {
  import opened Errors
  import opened Resources
  import opened Buildings
  import opened Streets
  import opened Creators

  /** The buildings, stock and money after a bulk upgrade pass, and the
      error that aborted it, if any. */
  datatype PassResult = PassResult(units: seq<BuildingState>, stock: Store, money: int, error: Option<Error>)

  /** The only error a bulk pass catches (and reports) per building is a
      shortfall of a resource; any other error aborts the pass. */
  predicate Aborts(e: Option<Error>) {
    e.Some? && !e.value.InsufficientResource?
  }

  /** What a pass does to one building: with `residentialOnly` a building of
      another variant is skipped, otherwise it is upgraded. */
  function Step(u: BuildingState, stock: Store, money: int, residentialOnly: bool): (o: Outcome)
    ensures residentialOnly && !u.kind.Residential? ==> o == Outcome(u, stock, money, None)
    ensures !(residentialOnly && !u.kind.Residential?) ==> o == UpgradeEffect(u, stock, money)
  {
    if residentialOnly && !u.kind.Residential? then Outcome(u, stock, money, None)
    else UpgradeEffect(u, stock, money)
  }

  /** A failed step changes neither the building nor the stock nor the money. */
  lemma StepFailureChangesNothing(u: BuildingState, stock: Store, money: int, ro: bool)
    requires Step(u, stock, money, ro).error.Some?
    ensures Step(u, stock, money, ro) == Outcome(u, stock, money, Step(u, stock, money, ro).error)
  {
  }

  /** A bulk upgrade pass over the buildings in insertion order. A caught
      error leaves that building as it was and the pass goes on; any other
      error stops the pass, and the buildings before it keep their upgrades. */
  function Pass(units: seq<BuildingState>, stock: Store, money: int, residentialOnly: bool): (r: PassResult)
    decreases |units|
    ensures |r.units| == |units|
    ensures r.error == None || Aborts(r.error)
  {
    if units == [] then PassResult([], stock, money, None)
    else
      var o := Step(units[0], stock, money, residentialOnly);
      if Aborts(o.error) then PassResult([o.state] + units[1..], o.stock, o.money, o.error)
      else Prepend([o.state], Pass(units[1..], o.stock, o.money, residentialOnly))
  }

  function Prepend(pre: seq<BuildingState>, r: PassResult): (p: PassResult)
    ensures p.units == pre + r.units && p.stock == r.stock && p.money == r.money && p.error == r.error
  {
    r.(units := pre + r.units)
  }

  /** A pass over `a + b` is a pass over `a` followed, unless it was aborted,
      by a pass over `b` from where it left the stock and the money. */
  lemma {:induction false} PassSplit(a: seq<BuildingState>, b: seq<BuildingState>, stock: Store, money: int, ro: bool)
    ensures var ra := Pass(a, stock, money, ro);
      Pass(a + b, stock, money, ro) ==
        if Aborts(ra.error) then ra.(units := ra.units + b)
        else Prepend(ra.units, Pass(b, ra.stock, ra.money, ro))
    decreases |a|
  {
    if a == [] {
      assert a + b == b;
    } else {
      assert (a + b)[0] == a[0];
      assert (a + b)[1..] == a[1..] + b;
      var o := Step(a[0], stock, money, ro);
      if Aborts(o.error) {
        assert [o.state] + (a[1..] + b) == ([o.state] + a[1..]) + b;
      } else {
        PassSplit(a[1..], b, o.stock, o.money, ro);
        var r1 := Pass(a[1..], o.stock, o.money, ro);
        if Aborts(r1.error) {
          assert [o.state] + (r1.units + b) == ([o.state] + r1.units) + b;
        } else {
          var r2 := Pass(b, r1.stock, r1.money, ro);
          assert [o.state] + (r1.units + r2.units) == ([o.state] + r1.units) + r2.units;
        }
      }
    }
  }

  /** A pass result keeps the number and the order of the buildings, changes
      only their levels, keeps them admissible, and never reports a caught error. */
  ghost predicate Shaped(units: seq<BuildingState>, r: PassResult) {
    && |r.units| == |units|
    && (forall j :: 0 <= j < |units| ==> r.units[j] == units[j].(level := r.units[j].level))
    && (forall j :: 0 <= j < |units| ==> Admissible(r.units[j]))
    && (r.error == None || Aborts(r.error))
  }

  /** Every pass over admissible buildings is shaped so. */
  lemma {:induction false} PassShape(units: seq<BuildingState>, stock: Store, money: int, ro: bool)
    requires forall j :: 0 <= j < |units| ==> Admissible(units[j])
    ensures Shaped(units, Pass(units, stock, money, ro))
    decreases |units|
  {
    if units != [] {
      var o := Step(units[0], stock, money, ro);
      UpgradeKeepsAdmissible(units[0], stock, money);
      if Aborts(o.error) {
        ShapeAbort(units, o.state, PassResult([o.state] + units[1..], o.stock, o.money, o.error));
      } else {
        PassShape(units[1..], o.stock, o.money, ro);
        ShapeCons(units, o.state, Pass(units[1..], o.stock, o.money, ro));
      }
    }
  }

  /** A pass aborted at its first building leaves the others as they were. */
  lemma ShapeAbort(units: seq<BuildingState>, v: BuildingState, r: PassResult)
    requires units != [] && forall j :: 0 <= j < |units| ==> Admissible(units[j])
    requires v == units[0].(level := v.level) && Admissible(v)
    requires r.units == [v] + units[1..] && Aborts(r.error)
    ensures Shaped(units, r)
  {
    assert forall j :: 1 <= j < |units| ==> r.units[j] == units[j];
  }

  /** A shaped pass over the rest, after a first building that only changed
      its level, is shaped over the whole. */
  lemma ShapeCons(units: seq<BuildingState>, v: BuildingState, r: PassResult)
    requires units != [] && Shaped(units[1..], r)
    requires v == units[0].(level := v.level) && Admissible(v)
    ensures Shaped(units, Prepend([v], r))
  {
    var p := Prepend([v], r);
    forall j | 1 <= j < |units|
      ensures p.units[j] == units[j].(level := p.units[j].level) && Admissible(p.units[j])
    {
      assert p.units[j] == r.units[j - 1];
      assert units[1..][j - 1] == units[j];
    }
  }

  /** The index of the building whose step aborts a pass, or |units| when
      no step aborts it. */
  function AbortIndex(units: seq<BuildingState>, stock: Store, money: int, ro: bool): (k: nat)
    ensures k <= |units|
    decreases |units|
  {
    if units == [] then 0
    else
      var o := Step(units[0], stock, money, ro);
      if Aborts(o.error) then 0 else 1 + AbortIndex(units[1..], o.stock, o.money, ro)
  }

  /** A pass reports an error exactly when some building k aborts it. Then
      the buildings before k hold the result of an unaborted pass over them,
      the stock and the money are what that pass left, the step of k changed
      nothing, and k and every later building are as they were. Otherwise
      the pass is the unaborted pass over all buildings. */
  ghost predicate AbortFacts(units: seq<BuildingState>, stock: Store, money: int, ro: bool) {
    var r := Pass(units, stock, money, ro);
    var k := AbortIndex(units, stock, money, ro);
    var before := Pass(units[..k], stock, money, ro);
    && before.error == None
    && (r.error.Some? <==> k < |units|)
    && (k < |units| ==>
          && Aborts(r.error)
          && r.units == before.units + units[k..]
          && Step(units[k], before.stock, before.money, ro) == Outcome(units[k], before.stock, before.money, r.error)
          && r.stock == before.stock && r.money == before.money)
    && (k == |units| ==> r == before)
  }

  lemma {:induction false} PassAbortKeepsEarlier(units: seq<BuildingState>, stock: Store, money: int, ro: bool)
    ensures AbortFacts(units, stock, money, ro)
    decreases |units|
  {
    if units == [] {
      assert units[..0] == [];
    } else if Aborts(Step(units[0], stock, money, ro).error) {
      StepFailureChangesNothing(units[0], stock, money, ro);
      assert units[..0] == [];
      assert units[0..] == units;
    } else {
      var o := Step(units[0], stock, money, ro);
      PassAbortKeepsEarlier(units[1..], o.stock, o.money, ro);
      AbortFactsCons(units, stock, money, ro);
    }
  }

  /** The facts about a pass that goes past its first building follow from
      the same facts about the pass over the rest. */
  lemma AbortFactsCons(units: seq<BuildingState>, stock: Store, money: int, ro: bool)
    requires units != []
    requires !Aborts(Step(units[0], stock, money, ro).error)
    requires var o := Step(units[0], stock, money, ro); AbortFacts(units[1..], o.stock, o.money, ro)
    ensures AbortFacts(units, stock, money, ro)
  {
    var o := Step(units[0], stock, money, ro);
    var tail := units[1..];
    var k' := AbortIndex(tail, o.stock, o.money, ro);
    var k := k' + 1;
    var before' := Pass(tail[..k'], o.stock, o.money, ro);
    assert units[..k][0] == units[0];
    assert units[..k][1..] == tail[..k'];
    assert Pass(units[..k], stock, money, ro) == Prepend([o.state], before');
    if k < |units| {
      assert units[k..] == tail[k'..];
      assert units[k] == tail[k'];
      assert [o.state] + (before'.units + tail[k'..]) == ([o.state] + before'.units) + tail[k'..];
    } else {
      assert units[..k] == units;
    }
  }

  /** A residential-only pass never aborts (a residential upgrade only ever
      fails for want of a resource) and leaves every other building alone. */
  lemma {:induction false} ResidentialPassNeverAborts(units: seq<BuildingState>, stock: Store, money: int)
    ensures var r := Pass(units, stock, money, true);
      && r.error == None
      && |r.units| == |units|
      && (forall j :: 0 <= j < |units| && !units[j].kind.Residential? ==> r.units[j] == units[j])
    decreases |units|
  {
    if units != [] {
      var o := Step(units[0], stock, money, true);
      ResidentialPassNeverAborts(units[1..], o.stock, o.money);
      var r := Pass(units[1..], o.stock, o.money, true);
      forall j | 1 <= j < |units| && !units[j].kind.Residential?
        ensures Pass(units, stock, money, true).units[j] == units[j]
      {
        assert Pass(units, stock, money, true).units[j] == r.units[j - 1];
        assert units[1..][j - 1] == units[j];
      }
    }
  }

  /** The sum of the capacities of a list of buildings. */
  function CapacitySum(units: seq<BuildingState>): int {
    if units == [] then 0 else CapacitySum(units[..|units| - 1]) + Capacity(units[|units| - 1])
  }

  /** Total capacity is additive over a split of the building list. */
  lemma {:induction false} CapacitySumSplit(a: seq<BuildingState>, b: seq<BuildingState>)
    ensures CapacitySum(a + b) == CapacitySum(a) + CapacitySum(b)
    decreases |b|
  {
    if b == [] {
      assert a + b == a;
    } else {
      var ab := a + b;
      assert ab[..|ab| - 1] == a + b[..|b| - 1];
      assert ab[|ab| - 1] == b[|b| - 1];
      CapacitySumSplit(a, b[..|b| - 1]);
      assert CapacitySum(ab) == CapacitySum(ab[..|ab| - 1]) + Capacity(ab[|ab| - 1]);
    }
  }

  /** Adding up one more capacity. */
  lemma CapacitySumStep(units: seq<BuildingState>, i: nat)
    requires i < |units|
    ensures CapacitySum(units[..i + 1]) == CapacitySum(units[..i]) + Capacity(units[i])
  {
    assert units[..i + 1][..i] == units[..i];
  }

  function Sum(xs: seq<int>): int {
    if xs == [] then 0 else Sum(xs[..|xs| - 1]) + xs[|xs| - 1]
  }

  /** Street lengths are between 0 and 10, so the building limit of a city
      lies between 0 and 20 times its number of streets. */
  lemma {:induction false} SumBounds(xs: seq<int>)
    requires forall k :: 0 <= k < |xs| ==> 0 <= xs[k] <= MaxSegments
    ensures 0 <= Sum(xs) <= MaxSegments * |xs|
  {
    if xs != [] {
      SumBounds(xs[..|xs| - 1]);
    }
  }

  /** The value of every building in a list. */
  function StatesOf(bs: seq<Building>): (r: seq<BuildingState>)
    reads bs
    ensures |r| == |bs|
    ensures forall i :: 0 <= i < |bs| ==> r[i] == bs[i].State()
  {
    if bs == [] then [] else StatesOf(bs[..|bs| - 1]) + [bs[|bs| - 1].State()]
  }

  /** The number of segments of every street in a list. */
  function LengthsOf(ss: seq<Street>): (r: seq<int>)
    reads ss
    ensures |r| == |ss|
    ensures forall i :: 0 <= i < |ss| ==> r[i] == |ss[i].segments|
  {
    if ss == [] then [] else LengthsOf(ss[..|ss| - 1]) + [|ss[|ss| - 1].segments|]
  }


  /** `addBuilding` on values: the building the registry makes is admitted,
      a park only when the city can pay its construction cost, which is then
      deducted; no other variant costs anything or checks the money. */
  datatype Admission = Admission(building: Option<BuildingState>, money: int, error: Option<Error>)

  function AdmissionEffect(made: Result<BuildingState>, money: int): (a: Admission)
    ensures made.Failure? ==> a == Admission(None, money, Some(made.error))
    ensures made.Success? && made.value.kind.Park? && money < made.value.kind.constructionCost ==>
      a == Admission(None, money, Some(InsufficientFunds))
    ensures made.Success? && made.value.kind.Park? && money >= made.value.kind.constructionCost ==>
      a == Admission(Some(made.value), money - made.value.kind.constructionCost, None)
    ensures made.Success? && !made.value.kind.Park? ==> a == Admission(Some(made.value), money, None)
  {
    match made
    case Failure(e) => Admission(None, money, Some(e))
    case Success(st) =>
      if !st.kind.Park? then Admission(Some(st), money, None)
      else if money < st.kind.constructionCost then Admission(None, money, Some(InsufficientFunds))
      else Admission(Some(st), money - st.kind.constructionCost, None)
  }

  /** One iteration of a bulk pass: the building at `i` takes its step,
      and the pass either stops there or goes on from the next building. */
  lemma PassAdvance(whole: PassResult, cur: seq<BuildingState>, us: seq<BuildingState>, i: nat,
                    stock: Store, money: int, ro: bool)
    requires i < |us| && i <= |cur|
    requires whole == Prepend(cur[..i], Pass(us[i..], stock, money, ro))
    ensures var o := Step(us[i], stock, money, ro);
      && (Aborts(o.error) ==> whole == PassResult(cur[..i] + [o.state] + us[i + 1..], o.stock, o.money, o.error))
      && (!Aborts(o.error) ==> whole == Prepend(cur[..i] + [o.state], Pass(us[i + 1..], o.stock, o.money, ro)))
  {
    assert us[i..][0] == us[i] && us[i..][1..] == us[i + 1..];
    var o := Step(us[i], stock, money, ro);
    if !Aborts(o.error) {
      var r := Pass(us[i + 1..], o.stock, o.money, ro);
      assert cur[..i] + ([o.state] + r.units) == (cur[..i] + [o.state]) + r.units;
    }
  }

  /** A pass whose every building has taken its step is over. */
  lemma PassEnd(whole: PassResult, cur: seq<BuildingState>, us: seq<BuildingState>, i: nat,
                stock: Store, money: int, ro: bool)
    requires i == |us| == |cur|
    requires whole == Prepend(cur[..i], Pass(us[i..], stock, money, ro))
    ensures whole == PassResult(cur, stock, money, None)
  {
    assert us[i..] == [];
    assert cur[..i] == cur;
  }

  /** The building list after one step differs from the one before only at `i`. */
  lemma NextStates(cur: seq<BuildingState>, us: seq<BuildingState>, i: nat, next: seq<BuildingState>, v: BuildingState)
    requires i < |cur| == |us| && cur[i..] == us[i..] && next == cur[i := v]
    ensures next[..i + 1] == cur[..i] + [v]
    ensures next[i + 1..] == us[i + 1..]
    ensures next == cur[..i] + [v] + us[i + 1..]
  {
    assert cur[i + 1..] == cur[i..][1..];
    assert us[i + 1..] == us[i..][1..];
  }

  /** Appending a building not yet in the list keeps the list free of repeats. */
  lemma AppendDistinct(bs: seq<Building>, b: Building)
    requires forall i, j :: 0 <= i < j < |bs| ==> bs[i] != bs[j]
    requires b !in bs
    ensures var cs := bs + [b]; forall i, j :: 0 <= i < j < |cs| ==> cs[i] != cs[j]
  {
  }

  /** The clones a copied city holds: one new building per building, in order. */
  method CloneAll(bs: seq<Building>) returns (cs: seq<Building>)
    requires forall j :: 0 <= j < |bs| ==> bs[j].Valid()
    ensures |cs| == |bs|
    ensures forall j :: 0 <= j < |cs| ==> fresh(cs[j]) && cs[j].Valid() && cs[j].State() == bs[j].State()
    ensures forall j, k :: 0 <= j < k < |cs| ==> cs[j] != cs[k]
  {
    cs := [];
    var i := 0;
    while i < |bs|
      invariant 0 <= i <= |bs|
      invariant |cs| == i
      invariant forall j :: 0 <= j < i ==> fresh(cs[j]) && cs[j].Valid() && cs[j].State() == bs[j].State()
      invariant forall j, k :: 0 <= j < k < i ==> cs[j] != cs[k]
    {
      var c := bs[i].Clone();
      cs := cs + [c];
      i := i + 1;
    }
  }

  /** The street copies a copied city holds: one new street per street, in order. */
  method CopyStreets(ss: seq<Street>) returns (cs: seq<Street>)
    requires forall j :: 0 <= j < |ss| ==> ss[j].Valid()
    ensures |cs| == |ss|
    ensures forall j :: 0 <= j < |cs| ==>
      fresh(cs[j]) && cs[j].Valid() && cs[j].segments == ss[j].segments && cs[j].level == ss[j].level
    ensures forall j, k :: 0 <= j < k < |cs| ==> cs[j] != cs[k]
  {
    cs := [];
    var i := 0;
    while i < |ss|
      invariant 0 <= i <= |ss|
      invariant |cs| == i
      invariant forall j :: 0 <= j < i ==>
        fresh(cs[j]) && cs[j].Valid() && cs[j].segments == ss[j].segments && cs[j].level == ss[j].level
      invariant forall j, k :: 0 <= j < k < i ==> cs[j] != cs[k]
    {
      var c := new Street.Copy(ss[i]);
      cs := cs + [c];
      i := i + 1;
    }
  }

  class City {
    const name: string
    var money: int
    /** `resources_`, a `ResourcePool<int>`. */
    const resources: ResourcePool
    /** `producedStats_`, a `ResourcePool<long>`. */
    const producedStats: ResourcePool
    var streets: seq<Street>
    var buildings: seq<Building>

    /** The pools are two objects, every street and building is valid, and
        the city owns each of them once. */
    ghost predicate Valid()
      reads this, resources, producedStats, streets, buildings
    {
      && resources != producedStats
      && resources.Valid() && producedStats.Valid()
      && (forall i :: 0 <= i < |streets| ==> streets[i].Valid())
      && (forall i :: 0 <= i < |buildings| ==> buildings[i].Valid())
      && (forall i, j :: 0 <= i < j < |streets| ==> streets[i] != streets[j])
      && (forall i, j :: 0 <= i < j < |buildings| ==> buildings[i] != buildings[j])
    }

    /** `maxBuildings()` as a value: twice the number of street segments. */
    function Limit(): int
      reads this, streets
    {
      2 * Sum(LengthsOf(streets))
    }

    constructor (name: string, startingMoney: int)
      ensures Valid() && fresh(resources) && fresh(producedStats)
      ensures this.name == name && money == startingMoney
      ensures resources.data == map[] && producedStats.data == map[]
      ensures streets == [] && buildings == []
    {
      this.name := name;
      money := startingMoney;
      resources := new ResourcePool();
      producedStats := new ResourcePool();
      streets := [];
      buildings := [];
    }

    /** The copy constructor: name, money, stock and streets are copied as
        values and every building is cloned, so the copy shares no object
        with the original. `producedStats_` is not in the copy constructor's
        initialiser list, so the copy starts with empty statistics. */
    constructor Copy(other: City)
      requires other.Valid()
      ensures Valid()
      ensures name == other.name && money == other.money
      ensures fresh(resources) && resources.data == other.resources.data
      ensures fresh(producedStats) && producedStats.data == map[]
      ensures |streets| == |other.streets|
      ensures forall i :: 0 <= i < |streets| ==>
        fresh(streets[i]) && streets[i].segments == other.streets[i].segments && streets[i].level == other.streets[i].level
      ensures |buildings| == |other.buildings|
      ensures forall i :: 0 <= i < |buildings| ==> fresh(buildings[i]) && buildings[i].State() == other.buildings[i].State()
    {
      name := other.name;
      money := other.money;
      resources := new ResourcePool.Copy(other.resources);
      var ss := CopyStreets(other.streets);
      streets := ss;
      var bs := CloneAll(other.buildings);
      buildings := bs;
      producedStats := new ResourcePool();
    }

    /** `addStreet`: the street is stored as a copy. */
    method AddStreet(s: Street)
      requires Valid() && s.Valid()
      modifies this
      ensures Valid()
      ensures |streets| == |old(streets)| + 1 && streets[..|old(streets)|] == old(streets)
      ensures var t := streets[|old(streets)|];
        fresh(t) && t.segments == s.segments && t.level == s.level
      ensures buildings == old(buildings) && money == old(money)
    {
      var c := new Street.Copy(s);
      streets := streets + [c];
    }

    /** `getStreet`: the stored street at `idx`, or null past the end. */
    method GetStreet(idx: nat) returns (s: Street?)
      ensures s == null <==> idx >= |streets|
      ensures s != null ==> s == streets[idx]
    {
      if idx >= |streets| {
        return null;
      }
      return streets[idx];
    }

    /** `addResource`: a negative amount is refused and the stock is unchanged. */
    method AddResource(kind: string, amount: int) returns (error: Option<Error>)
      requires Valid()
      modifies resources
      ensures Valid()
      ensures amount < 0 ==> error == Some(NegativeQuantity) && resources.data == old(resources.data)
      ensures amount >= 0 ==> error == None && resources.data == Credit(old(resources.data), kind, amount)
    {
      error := resources.Add(kind, amount);
    }

    method SetMoney(m: int)
      requires Valid()
      modifies this
      ensures Valid() && money == m
      ensures streets == old(streets) && buildings == old(buildings)
    {
      money := m;
    }

    /** `addBuilding`: the registry makes the building (the street index only
        feeds the display back-reference); a park is admitted only when its
        cost is paid. The building limit is not checked. */
    method AddBuilding(reg: Registry, typeId: string, name: string, params: seq<Token>) returns (error: Option<Error>)
      requires Valid()
      modifies this
      ensures Valid() && streets == old(streets)
      ensures var a := AdmissionEffect(Made(reg.creators, typeId, name, params), old(money));
        && error == a.error && money == a.money
        && (a.building.None? ==> buildings == old(buildings))
        && (a.building.Some? ==>
              && |buildings| == |old(buildings)| + 1
              && buildings[..|old(buildings)|] == old(buildings)
              && fresh(buildings[|old(buildings)|])
              && buildings[|old(buildings)|].State() == a.building.value)
    {
      var r := reg.Create(typeId, name, params);
      if r.Failure? {
        return Some(r.error);
      }
      var b := r.value;
      if b.kind.Park? {
        var paid, after := TrySpend(money, b.kind.constructionCost);
        if !paid {
          return Some(InsufficientFunds);
        }
        money := after;
      }
      buildings := buildings + [b];
      error := None;
    }

    /** `maxBuildings()`: a loop adding up the street lengths. */
    method MaxBuildings() returns (m: int)
      requires Valid()
      ensures m == Limit()
      ensures 0 <= m <= 2 * MaxSegments * |streets|
    {
      var total := 0;
      var i := 0;
      while i < |streets|
        invariant 0 <= i <= |streets|
        invariant total == Sum(LengthsOf(streets)[..i])
      {
        assert LengthsOf(streets)[..i + 1][..i] == LengthsOf(streets)[..i];
        total := total + streets[i].Length();
        i := i + 1;
      }
      assert LengthsOf(streets)[..|streets|] == LengthsOf(streets);
      SumBounds(LengthsOf(streets));
      m := total * 2;
    }

    /** `addBuildingDirect`: refused exactly when the city already holds
        `maxBuildings()` buildings or more; otherwise appended at the end. */
    method AddBuildingDirect(b: Building) returns (error: Option<Error>)
      requires Valid() && b.Valid() && b !in buildings
      modifies this
      ensures Valid() && streets == old(streets) && money == old(money)
      ensures error == Some(LimitExceeded) <==> |old(buildings)| >= Limit()
      ensures error.Some? ==> error == Some(LimitExceeded) && buildings == old(buildings)
      ensures error.None? ==> buildings == old(buildings) + [b] && |buildings| <= Limit()
    {
      var m := MaxBuildings();
      if |buildings| >= m {
        return Some(LimitExceeded);
      }
      Append(b);
      error := None;
    }

    /** The building appended at the end of the list; nothing else changes. */
    method Append(b: Building)
      requires Valid() && b.Valid() && b !in buildings
      modifies this
      ensures Valid() && streets == old(streets) && money == old(money)
      ensures buildings == old(buildings) + [b] && Limit() == old(Limit())
    {
      ghost var bs := buildings;
      buildings := buildings + [b];
      AppendDistinct(bs, b);
    }

    /** `remainingSlots()`: negative once `addBuilding` passed the limit. */
    method RemainingSlots() returns (r: int)
      requires Valid()
      ensures r == Limit() - |buildings|
    {
      var m := MaxBuildings();
      r := m - |buildings|;
    }

    /** `totalCapacity()`: the capacities of all buildings summed in a loop. */
    method TotalCapacity() returns (total: int)
      requires Valid()
      ensures total == CapacitySum(StatesOf(buildings))
    {
      total := 0;
      var i := 0;
      while i < |buildings|
        invariant 0 <= i <= |buildings|
        invariant total == CapacitySum(StatesOf(buildings)[..i])
      {
        CapacitySumStep(StatesOf(buildings), i);
        var c := buildings[i].CapacityEffect();
        total := total + c;
        i := i + 1;
      }
      assert StatesOf(buildings)[..|buildings|] == StatesOf(buildings);
    }

    /** `upgradeAllBuildings()`: a pass over every building; the error that
        escaped it, if any, is returned. */
    method UpgradeAllBuildings() returns (error: Option<Error>)
      requires Valid()
      modifies this, resources, buildings
      ensures Valid() && streets == old(streets) && buildings == old(buildings)
      ensures var r := Pass(old(StatesOf(buildings)), old(resources.data), old(money), false);
        StatesOf(buildings) == r.units && resources.data == r.stock && money == r.money && error == r.error
    {
      error := UpgradePass(false);
    }

    /** `upgradeResidentialOnly()`: a pass over the residential buildings;
        it never aborts. */
    method UpgradeResidentialOnly()
      requires Valid()
      modifies this, resources, buildings
      ensures Valid() && streets == old(streets) && buildings == old(buildings)
      ensures var r := Pass(old(StatesOf(buildings)), old(resources.data), old(money), true);
        StatesOf(buildings) == r.units && resources.data == r.stock && money == r.money
      ensures forall j :: 0 <= j < |buildings| && !buildings[j].kind.Residential? ==>
        buildings[j].State() == old(buildings[j].State())
    {
      ghost var us := StatesOf(buildings);
      ResidentialPassNeverAborts(us, resources.data, money);
      var _ := UpgradePass(true);
    }

    /** The loop both bulk upgrades share: building by building, a caught
        shortfall lets the loop go on and any other error is passed on. */
    method UpgradePass(residentialOnly: bool) returns (error: Option<Error>)
      requires Valid()
      modifies this, resources, buildings
      ensures Valid() && streets == old(streets) && buildings == old(buildings)
      ensures var r := Pass(old(StatesOf(buildings)), old(resources.data), old(money), residentialOnly);
        StatesOf(buildings) == r.units && resources.data == r.stock && money == r.money && error == r.error
    {
      ghost var us := StatesOf(buildings);
      ghost var whole := Pass(us, resources.data, money, residentialOnly);
      var i := 0;
      while i < |buildings|
        invariant 0 <= i <= |buildings|
        invariant buildings == old(buildings) && streets == old(streets)
        invariant Valid()
        invariant StatesOf(buildings)[i..] == us[i..]
        invariant whole == Prepend(StatesOf(buildings)[..i], Pass(us[i..], resources.data, money, residentialOnly))
      {
        var e := Advance(i, residentialOnly, whole, us);
        if Aborts(e) {
          return e;
        }
        i := i + 1;
      }
      PassEnd(whole, StatesOf(buildings), us, i, resources.data, money, residentialOnly);
      error := None;
    }

    /** One iteration of the bulk pass loop, with the loop invariant as its contract. */
    method Advance(i: nat, residentialOnly: bool, ghost whole: PassResult, ghost us: seq<BuildingState>) returns (error: Option<Error>)
      requires Valid() && i < |buildings| == |us|
      requires StatesOf(buildings)[i..] == us[i..]
      requires whole == Prepend(StatesOf(buildings)[..i], Pass(us[i..], resources.data, money, residentialOnly))
      modifies this, resources, buildings[i]
      ensures Valid() && streets == old(streets) && buildings == old(buildings)
      ensures Aborts(error) ==>
        StatesOf(buildings) == whole.units && resources.data == whole.stock && money == whole.money && error == whole.error
      ensures !Aborts(error) ==>
        && StatesOf(buildings)[i + 1..] == us[i + 1..]
        && whole == Prepend(StatesOf(buildings)[..i + 1], Pass(us[i + 1..], resources.data, money, residentialOnly))
    {
      ghost var cur := StatesOf(buildings);
      ghost var o := Step(us[i], resources.data, money, residentialOnly);
      PassAdvance(whole, cur, us, i, resources.data, money, residentialOnly);
      assert buildings[i].State() == us[i] by { assert cur[i] == cur[i..][0]; }
      if residentialOnly && !buildings[i].kind.Residential? {
        error := None;
        assert cur == cur[i := o.state];
      } else {
        error := UpgradeAt(i);
      }
      ghost var next := StatesOf(buildings);
      NextStates(cur, us, i, next, o.state);
    }

    /** The upgrade of the building at index `i`, against the city's stock and money. */
    method UpgradeAt(i: nat) returns (error: Option<Error>)
      requires Valid() && i < |buildings|
      modifies this, resources, buildings[i]
      ensures Valid() && streets == old(streets) && buildings == old(buildings)
      ensures var o := UpgradeEffect(old(buildings[i].State()), old(resources.data), old(money));
        && StatesOf(buildings) == old(StatesOf(buildings))[i := o.state]
        && resources.data == o.stock && money == o.money && error == o.error
    {
      var b := buildings[i];
      ghost var before := StatesOf(buildings);
      var after;
      error, after := b.Upgrade(resources, money);
      money := after;
      forall j | 0 <= j < |buildings| && j != i
        ensures buildings[j].State() == before[j] && buildings[j].Valid()
      {
        assert buildings[j] != b;
      }
      assert StatesOf(buildings) == before[i := b.State()];
    }
  }

  /** What `create` yields for a type id: an unknown id fails. */
  function Made(creators: map<string, Creator>, id: string, name: string, params: seq<Token>): (r: Result<BuildingState>)
    ensures id !in creators ==> r == Failure(UnknownType(id))
    ensures id in creators ==> r == Blueprint(creators[id], name, params)
  {
    if id in creators then Blueprint(creators[id], name, params) else Failure(UnknownType(id))
  }
}
