/** The building registry (`BuildingCreator` in src/, `BuildingFactory` at
    the root): a map from a type id to a creator, and the built-in creators
    with their default parameters. */
module Creators {
  import opened Errors
  import opened Resources
  import opened Buildings

  /** The built-in creator lambdas, told apart by the variant they build. */
  datatype Creator = ResidentialCreator | UtilityCreator | ParkCreator | CommercialCreator | FactoryCreator

  /** One creation parameter. `text` is the string itself; `integer` is what
      `std::stoi` yields for it and `truncated` what `static_cast<int>` of
      `std::stod` yields, `None` where the conversion throws. */
  datatype Token = Token(text: string, integer: Option<int>, truncated: Option<int>)

  /** `params.size() > i ? std::stoi(params[i]) : dflt` */
  function IntArg(params: seq<Token>, i: nat, dflt: int): (r: Option<int>)
    ensures i >= |params| ==> r == Some(dflt)
    ensures i < |params| ==> r == params[i].integer
  {
    if i < |params| then params[i].integer else Some(dflt)
  }

  /** `static_cast<int>(params.size() > i ? std::stod(params[i]) : dflt)` */
  function RealArg(params: seq<Token>, i: nat, dflt: int): (r: Option<int>)
    ensures i >= |params| ==> r == Some(dflt)
    ensures i < |params| ==> r == params[i].truncated
  {
    if i < |params| then params[i].truncated else Some(dflt)
  }

  /** `params.size() > i ? params[i] : dflt` */
  function TextArg(params: seq<Token>, i: nat, dflt: string): (r: string)
    ensures i >= |params| ==> r == dflt
    ensures i < |params| ==> r == params[i].text
  {
    if i < |params| then params[i].text else dflt
  }

  /** The requirements every residential creator passes:
      `{{"wood",10},{"stone",5}}`, listed in the map's (ascending) order. */
  const DefaultNeeds: seq<Entry> := [Entry("stone", 5), Entry("wood", 10)]

  /** The variant and the level a creator hands to the constructor. */
  datatype Order = Order(kind: Kind, level: int)

  /** The parameter reading of each creator: a conversion that throws
      aborts the creation. A park is always built at level 1 and a factory
      produces exactly one resource. */
  function Parse(c: Creator, params: seq<Token>): (r: Result<Order>)
    ensures r.Failure? ==> r.error == BadParameter
    ensures r.Success? && (c.ParkCreator? || c.FactoryCreator?) ==> r.value.level == 1
    ensures r.Success? && c.ResidentialCreator? ==> r.value.kind.Residential? && r.value.kind.needs == DefaultNeeds
  {
    match c
    case ResidentialCreator =>
      var cap := IntArg(params, 0, 10);
      var lvl := IntArg(params, 1, 1);
      var money := IntArg(params, 2, 20);
      if cap.None? || lvl.None? || money.None? then Failure(BadParameter)
      else Success(Order(Residential(cap.value, DefaultNeeds, money.value), lvl.value))
    case UtilityCreator =>
      var t := TextArg(params, 0, "Water");
      var cov := RealArg(params, 1, 100);
      var lvl := IntArg(params, 2, 1);
      var cost := IntArg(params, 3, 50);
      if cov.None? || lvl.None? || cost.None? then Failure(BadParameter)
      else Success(Order(Utility(t, cov.value, cost.value), lvl.value))
    case ParkCreator =>
      var boost := RealArg(params, 0, 10);
      var cost := IntArg(params, 1, 30);
      if boost.None? || cost.None? then Failure(BadParameter)
      else Success(Order(Park(boost.value, cost.value), 1))
    case CommercialCreator =>
      var customers := IntArg(params, 0, 50);
      var lvl := IntArg(params, 1, 1);
      if customers.None? || lvl.None? then Failure(BadParameter)
      else Success(Order(Commercial(customers.value), lvl.value))
    case FactoryCreator =>
      var resName := TextArg(params, 0, "wood");
      var amount := IntArg(params, 1, 5);
      var cost := IntArg(params, 2, 20);
      if amount.None? || cost.None? then Failure(BadParameter)
      else Success(Order(Factory([Entry(resName, amount.value)], cost.value), 1))
  }

  /** What a creator builds: its parameters read, then the variant's
      constructor run on them. */
  function Blueprint(c: Creator, name: string, params: seq<Token>): (r: Result<BuildingState>)
    ensures r.Success? ==> r.value.name == name && r.value.level >= 1
    ensures r.Failure? && Parse(c, params).Failure? ==> r.error == BadParameter
  {
    match Parse(c, params)
    case Failure(e) => Failure(e)
    case Success(o) => Construct(name, o.kind, o.level)
  }

  /** Every creator hands over requirement and production maps with distinct names. */
  lemma ParseKeyed(c: Creator, params: seq<Token>)
    ensures Parse(c, params).Success? ==> MapsKeyed(Parse(c, params).value.kind)
  {
  }

  /** A residential creator falls back, parameter by parameter, to capacity 10,
      level 1 and money 20, and always requires 10 wood and 5 stone. */
  lemma ResidentialFallbacks(name: string, params: seq<Token>)
    ensures var r := Blueprint(ResidentialCreator, name, params);
      && (|params| == 0 ==> r == Success(BuildingState(name, Residential(10, DefaultNeeds, 20), 1)))
      && (r.Success? ==>
            && r.value.kind.needs == DefaultNeeds
            && (|params| < 2 ==> r.value.level == 1)
            && (|params| < 3 ==> r.value.kind.moneyPerUpgrade == 20)
            && 1 <= r.value.level <= 3)
      && (|params| >= 1 && params[0].integer.Some? && params[0].integer.value <= 0 ==> r.Failure?)
  {
  }

  /** The default needs are 10 wood and 5 stone and nothing else. */
  lemma DefaultNeedsContents()
    ensures Keyed(DefaultNeeds) && Ascending(DefaultNeeds) && Names(DefaultNeeds) == {"wood", "stone"}
    ensures QuantityOf(DefaultNeeds, "wood") == 10 && QuantityOf(DefaultNeeds, "stone") == 5
  {
    assert DefaultNeeds[..1] == [Entry("stone", 5)];
    assert DefaultNeeds[..1][..0] == [];
    assert "stone" in Names(DefaultNeeds) by { assert DefaultNeeds[0].name == "stone"; }
    assert "wood" in Names(DefaultNeeds) by { assert DefaultNeeds[1].name == "wood"; }
  }

  /** A utility creator falls back to type "Water", coverage 100, level 1 and cost 50. */
  lemma UtilityFallbacks(name: string, params: seq<Token>)
    ensures var r := Blueprint(UtilityCreator, name, params);
      && (|params| == 0 ==> r == Success(BuildingState(name, Utility("Water", 100, 50), 1)))
      && (r.Success? ==>
            && (|params| < 1 ==> r.value.kind.utilityType == "Water")
            && (|params| < 2 ==> r.value.kind.coverage == 100)
            && (|params| < 3 ==> r.value.level == 1)
            && (|params| < 4 ==> r.value.kind.upgradeCost == 50))
  {
  }

  /** A park is built at level 1 whatever its parameters, with boost 10 and
      cost 30 by default. */
  lemma ParkFallbacks(name: string, params: seq<Token>)
    ensures var r := Blueprint(ParkCreator, name, params);
      && (|params| == 0 ==> r == Success(BuildingState(name, Park(10, 30), 1)))
      && (r.Success? ==> r.value.level == 1)
      && (r.Failure? ==> r.error == BadParameter)
  {
  }

  /** A commercial creator falls back to 50 customers per level at level 1;
      a negative customer count is refused. */
  lemma CommercialFallbacks(name: string, params: seq<Token>)
    ensures var r := Blueprint(CommercialCreator, name, params);
      && (|params| == 0 ==> r == Success(BuildingState(name, Commercial(50), 1)))
      && (|params| >= 1 && params[0].integer.Some? && params[0].integer.value < 0 ==>
            r == Failure(if params[1..] != [] && params[1].integer.None? then BadParameter else NegativeCustomers))
  {
  }

  /** A factory creator builds a single-entry production map resName -> amount
      ("wood" and 5 by default, cost 20), at level 1; a cost <= 0 is refused
      by the factory's constructor. With no parameters its capacity is 5. */
  lemma FactoryFallbacks(name: string, params: seq<Token>)
    ensures var r := Blueprint(FactoryCreator, name, params);
      && (|params| == 0 ==> r == Success(BuildingState(name, Factory([Entry("wood", 5)], 20), 1)))
      && (|params| == 0 ==> Capacity(r.value) == 5)
      && (r.Success? ==>
            && |r.value.kind.production| == 1 && r.value.level == 1
            && r.value.kind.production[0].name == TextArg(params, 0, "wood")
            && Capacity(r.value) == r.value.kind.production[0].qty)
      && (IntArg(params, 1, 5).Some? && IntArg(params, 2, 20).Some? && IntArg(params, 2, 20).value <= 0 ==>
            r == Failure(NonPositiveProductionCost))
  {
    if |params| == 0 {
      assert Total([Entry("wood", 5)]) == Total([]) + 5;
    }
    if Blueprint(FactoryCreator, name, params).Success? {
      var p := Blueprint(FactoryCreator, name, params).value.kind.production;
      assert p[..|p| - 1] == [];
      assert Total(p) == Total([]) + p[0].qty;
    }
  }

  /** Whatever a creator builds is admissible. */
  lemma BlueprintAdmissible(c: Creator, name: string, params: seq<Token>)
    ensures Blueprint(c, name, params).Success? ==> Admissible(Blueprint(c, name, params).value)
  {
  }

  /** The registry: `registry_` maps a type id to its creator. */
  class Registry {
    var creators: map<string, Creator>

    constructor ()
      ensures creators == map[]
    {
      creators := map[];
    }

    /** `registerCreator` / `registerFactory`: a new id is added and an
        existing one is overwritten. */
    method Register(id: string, c: Creator)
      modifies this
      ensures creators == old(creators)[id := c]
      ensures id in creators && creators[id] == c
      ensures forall other :: other != id ==> (other in creators <==> other in old(creators))
    {
      creators := creators[id := c];
    }

    /** The registrations the static initialisers of the source make. The
        root registry holds the first four; src/ also registers "factory". */
    method RegisterBuiltins(withFactory: bool)
      modifies this
      ensures creators == old(creators)["residential" := ResidentialCreator]["utility" := UtilityCreator]
        ["park" := ParkCreator]["commercial" := CommercialCreator]
        + (if withFactory then map["factory" := FactoryCreator] else map[])
    {
      Register("residential", ResidentialCreator);
      Register("utility", UtilityCreator);
      Register("park", ParkCreator);
      Register("commercial", CommercialCreator);
      if withFactory {
        Register("factory", FactoryCreator);
      }
    }

    /** `create`: an unknown id fails; otherwise the registered creator runs. */
    method Create(id: string, name: string, params: seq<Token>) returns (r: Result<Building>)
      ensures id !in creators ==> r == Failure(UnknownType(id))
      ensures id in creators ==>
        var bp := Blueprint(creators[id], name, params);
        && r.Success? == bp.Success?
        && (r.Failure? ==> r.error == bp.error)
        && (r.Success? ==> fresh(r.value) && r.value.Valid() && r.value.State() == bp.value)
    {
      if id !in creators {
        return Failure(UnknownType(id));
      }
      match Parse(creators[id], params)
      case Failure(e) =>
        return Failure(e);
      case Success(o) =>
        ParseKeyed(creators[id], params);
        r := Building.Make(name, o.kind, o.level);
    }
  }
}
