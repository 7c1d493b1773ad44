# City ledger model

A Dafny model of the ledger core of a small C++ city builder. It covers:

- five building variants (Residential, Utility, Park, Commercial, Factory) built by a type-id registry;
- the resource pool with its `trySpend` helper;
- streets made of segments;
- a slot or block that holds one building;
- the economy-tick visitor;
- the `City` that owns all of them.

What the model tracks is the ledger: each building's level, the resource stock, the money, the production statistics and the building list. The bulk operations over that ledger are modelled as well.

The repository ships two parallel versions of the building code:

- the `src/` and `include/` variant works against a `ResourcePool<int>`;
- the root variant works against a plain `std::map<std::string,int>`.

Both are modelled. The C++ class hierarchy becomes one `Buildings.Building` class holding `const` variant data (the `Kind` datatype) and a mutable `level`. Each state-changing method is proved against a function on values:

| function | what it describes |
|---|---|
| `UpgradeEffect` | pool upgrade |
| `MapUpgradeEffect` | map upgrade |
| `ProduceEffect` | one production round |
| `TickEffect` | one visitor tick |
| `Pass` | a bulk upgrade pass |
| `AdmissionEffect` | `addBuilding` |

The laws of the system are lemmas about those functions:

- the atomic check-then-commit of a residential upgrade;
- the costs of each variant's upgrade;
- the level cap, or its absence for Commercial;
- the capacity formulas;
- a caught resource error versus an aborting error in a pass;
- production crediting both ledgers.

Modules and files:

| module (file) | what it holds |
|---|---|
| `Errors` | `Option`, `Result`, and the error kinds the C++ exceptions stand for |
| `Resources` (ResourcePool.dfy) | stores as values, the `ResourcePool` class, `TrySpend` |
| `Streets` (Street.dfy) | the `Street` class |
| `Production` | the factory production round on values |
| `Buildings` (Building.dfy) | variants, construction, upgrades, capacity, cloning, production methods |
| `Creators` | creator parameters and defaults, the `Registry` class |
| `Slots` (Slot.dfy) | `Slot`, which is also the root `Block` |
| `Economy` (EconomyVisitor.dfy) | `EconomyTickVisitor` |
| `Cities` (City.dfy) | the `City` class and bulk passes |
| `Scenarios` | worked examples stated as lemmas and methods |

A `std::map` that the code iterates (the residential requirements, the factory production) is a `seq<Entry>` listing it in its iteration order: the names are distinct (`Keyed`) and strictly ascending under `StrLess`, the character-by-character order of `std::less<std::string>` (`Ascending`). Every admissible building's maps satisfy both. A stock the code reads is a `map<string,int>` in which an absent name reads as 0 (`Amount`).

The code's own declarations suggest three behaviours were not intended. The model follows all three as written:

- `City` declares `maxBuildings()` and a `LimitExceededException`, but only `addBuildingDirect` checks the limit. `addBuilding` does not, so `remainingSlots()` can become negative (`Scenarios.OverTheLimit`).
- `CommercialBuilding`'s constructor passes `maxLevel_ = 4`, but its upgrade never checks `maxLevel_`. A commercial building keeps rising past level 4 (`Buildings.CommercialUpgradeLaw`).
- `City` declares the member `producedStats_`, but the copy constructor leaves it out of its initialiser list. A copied city starts with empty statistics (`Cities.City.Copy`).

## Model

| member | source | states |
|---|---|---|
| Resources.ResourcePool.Add | include/ResourcePool.hpp:11-14 | a negative quantity is refused with NegativeQuantity and the pool unchanged; otherwise exactly that name's amount grows by qty (absent counts as 0), every other name is untouched, and the pool stays non-negative |
| Resources.ResourcePool.Get | include/ResourcePool.hpp:16-19 | the stored quantity, or 0 for an absent name; never negative in a valid pool |
| Resources.ResourcePool.CanConsume | include/ResourcePool.hpp:21-23 | true exactly when the stored quantity covers qty, in which case consuming it leaves that entry non-negative |
| Resources.ResourcePool.Consume | include/ResourcePool.hpp:25-29 | a shortfall raises InsufficientResource naming the resource without changing the pool; otherwise only that name drops by qty; the pool stays non-negative |
| Resources.TrySpend | include/ResourcePool.hpp:34-39 | succeeds exactly when money covers the cost, and then money drops by the cost; on refusal money is unchanged |
| Resources.Credit | include/ResourcePool.hpp:13 | the named amount grows by qty, no other amount changes, and the name becomes a key |
| Resources.Debit | include/ResourcePool.hpp:28 | the named amount drops by qty, no other amount changes, and the name becomes a key |
| Resources.AddThenConsumeRestores | include/ResourcePool.hpp:11-29 | after adding a non-negative quantity, consuming it again is never short and restores the amount (and the whole map when the name was present) |
| Resources.Index | Building.cpp:75 | reading a name through `operator[]` changes no amount but inserts the name |
| Resources.TouchEffect | Building.cpp:74-77 | reading a list of names through `operator[]` changes no amount and adds exactly those names as keys |
| Resources.TouchThenConsume | Building.cpp:74-79 | reading the requirements before deducting them leaves exactly the map that deducting them directly leaves |
| Resources.AddAllAmount | Factory.hpp:67-68 | crediting a list adds to every name exactly the quantity listed under it |
| Resources.ConsumeAllAmount | src/Building.cpp:85-87 | consuming a list subtracts from every name exactly the quantity listed under it |
| Streets.StreetLevel | Street.cpp:5-6 | the level is in [1, 3], equal to the argument inside that range and the nearer bound outside it |
| Streets.Street.constructor | Street.cpp:5-6 | a new street has no segments and the clamped level |
| Streets.Street.AddSegment | Street.cpp:8-16 | the segment is appended exactly when fewer than 10 are stored, and true is reported exactly then; otherwise the street is unchanged |
| Streets.Street.Length | Street.cpp:19-21 | the segment count, between 0 and 10 for a valid street |
| Streets.Street.RoadType | Street.cpp:29-36 | levels 1, 2, 3 map to "Two lane", "Four lane", "Six lane" and back; a valid street is never "Unknown" |
| Buildings.Capacity | src/Building.cpp:100-213 | the five `capacityEffect()` formulas: base capacity, truncated coverage, truncated boost or customers times the level, and for a factory (include/Factory.hpp) the sum of its production; the laws are in CapacityScales |
| Buildings.UpgradeEffect | src/Building.cpp:78-203 | the pool upgrade of each variant (the factory's in include/Factory.hpp): only the level changes, by at most one; a failed upgrade changes nothing; only a residential upgrade touches the stock |
| Buildings.MapUpgradeEffect | Building.cpp:71-162 | the root map upgrade: only the level changes, by at most one; a failure leaves the building and the money; every non-residential variant behaves exactly as in the pool variant |
| Buildings.ClampLevel | src/Building.cpp:14 | the stored level is at least 1 and at most maxLevel, and is the requested level when that is in range |
| Buildings.Construct | src/Building.cpp:63-186 | construction of every variant (the factory's in include/Factory.hpp too) fails exactly when its argument check fails (residential capacity not positive, negative customers, empty production or non-positive production cost) and with that error; otherwise name and variant data are kept, and the level is `max(1, min(maxLevel, requested))`, except for a park (and a factory), which always starts at level 1 |
| Buildings.Building.constructor | Building.cpp:8-11 | the new building holds the constructed state and is admissible |
| Buildings.Building.Make | src/Building.cpp:175-186 | the constructor throws exactly the error Construct names; otherwise a fresh admissible building with the constructed state |
| Buildings.Building.Copy | src/Building.cpp:95-97 | the copy is valid and has every field of the original |
| Buildings.Building.Clone | src/Building.cpp:95-97 | a fresh, independent building with the same state, for every variant including the factory |
| Buildings.ResidentialUpgradeLaw | src/Building.cpp:78-91 | at level 3 nothing happens; if some requirement is short, the first short one in map order is named and nothing changes; otherwise every requirement is deducted exactly, no other resource changes, the level rises by one and moneyPerUpgrade is paid |
| Buildings.ResidentialNamesFirstShortResource | src/Building.cpp:81-84 | when requirements in map order are short, the upgrade reports a short resource, and it is the one whose name comes first among all short ones |
| Buildings.UtilityUpgradeLaw | src/Building.cpp:125-131 | at level 3 nothing happens whatever the money; below it the cost is paid and the level rises, or InsufficientFunds with nothing changed; the stock is never touched |
| Buildings.ParkUpgradeLaw | src/Building.cpp:157-159 | a park upgrade is free, never fails and stops at level 2 |
| Buildings.CommercialUpgradeLaw | src/Building.cpp:197-203 | the cost is 20 times the level before the increment; short money gives InsufficientFunds with nothing changed; enough money raises the level even past 4 |
| Buildings.FactoryUpgradeIsNoOp | include/Factory.hpp:49-50 | a factory upgrade changes nothing and never fails |
| Buildings.UpgradeKeepsAdmissible | src/Building.cpp:78-91 | any upgrade keeps the building admissible and changes only its level; a failed one changes neither building, stock nor money |
| Buildings.CapacityScales | src/Building.cpp:100-213 | every non-factory capacity is the level times the per-level figure; a factory's capacity does not depend on its level |
| Buildings.RepeatedUpgradeLevel | src/Building.cpp:100-102 | after n error-free upgrades the level is min(initial + n, maxLevel) (uncapped for Commercial), and the capacity is the variant's formula at that level |
| Buildings.Building.CapacityEffect | include/Factory.hpp:56-60 | the returned capacity is the variant's formula; for a factory the summing loop yields the total of its production |
| Buildings.CheckNeeds | src/Building.cpp:81-84 | the check loop stops at the first requirement the pool lacks, or at the end when none is short |
| Buildings.ConsumeNeeds | src/Building.cpp:85-87 | when nothing is short, the consume loop deducts every requirement and the pool stays non-negative |
| Buildings.Building.Upgrade | src/Building.cpp:78-91 | the building, pool and money end as UpgradeEffect says for the variant, and the same error is raised; the building stays valid and the pool non-negative |
| Buildings.Building.UpgradeWithMoneyOnly | src/Building.cpp:125-131 | the upgrades of Utility, Park, Commercial and Factory end as UpgradeEffect says, for any stock, without touching it |
| Buildings.MapUpgradeAgrees | Building.cpp:71-82 | the root map-based upgrade agrees with the pool upgrade on building, money, error and every amount; the maps differ only by zero entries `operator[]` inserted, and not at all after a successful upgrade |
| Buildings.ReadNeeds | Building.cpp:74-77 | the reading loop finds the first short requirement and leaves the map with the names read so far inserted |
| Buildings.DeductNeeds | Building.cpp:78-79 | the deduction loop subtracts every requirement in map order |
| Buildings.Building.ResidentialUpgradeOnMap | Building.cpp:71-82 | the root residential upgrade ends as MapUpgradeEffect says |
| Buildings.Building.UpgradeOnMap | Building.cpp:102-108 | the root upgrade of every variant ends as MapUpgradeEffect says |
| Buildings.AddProduction | include/Factory.hpp:66-69 | each production entry is added to the stock and then to the statistics, stopping with NegativeQuantity at the first negative quantity, with earlier entries kept |
| Buildings.Building.Produce | include/Factory.hpp:62-70 | stock, statistics and money end as ProduceEffect says; the factory itself is unchanged |
| Buildings.Building.ProduceOnMap | Factory.hpp:61-69 | short money gives InsufficientFunds with nothing changed; otherwise the cost is paid once and every entry is credited to the map |
| Production.ProduceEffect | include/Factory.hpp:62-70 | InsufficientFunds exactly when money is below the cost, and then nothing changes; otherwise the cost is paid; the only other error is NegativeQuantity |
| Production.ProduceUnaffordable | include/Factory.hpp:63-64 | a round the factory cannot pay for raises InsufficientFunds and changes nothing |
| Production.ProduceCredits | include/Factory.hpp:62-70 | a paid round with non-negative quantities costs exactly the production cost and adds every listed quantity to both the stock and the statistics |
| Production.ProducePerResource | include/Factory.hpp:66-69 | each produced resource grows by its own quantity in both ledgers and every other resource is unchanged |
| Production.ProduceNegativeKeepsPayment | include/ResourcePool.hpp:12 | a negative production quantity raises NegativeQuantity after the cost has been paid |
| Creators.Parse | src/Building.cpp:218-283 | the parameter reading of each creator: only a conversion that throws fails, with BadParameter; a park and a factory are ordered at level 1; a residential building always gets the default requirements |
| Creators.Blueprint | src/Building.cpp:218-283 | what a creator builds: the given name at a level of at least 1, or BadParameter when reading a parameter failed |
| Creators.ParseKeyed | src/Building.cpp:228 | every creator hands over requirement and production maps with distinct names |
| Creators.ResidentialFallbacks | src/Building.cpp:218-233 | with no parameters: capacity 10, level 1, gain 20; missing parameters fall back one by one; the requirements are always 10 wood and 5 stone; a non-positive capacity is refused |
| Creators.DefaultNeedsContents | src/Building.cpp:228 | the default requirements are 10 wood and 5 stone and nothing else, listed in map order (stone first) |
| Creators.UtilityFallbacks | src/Building.cpp:236-252 | missing parameters fall back to type Water, coverage 100, level 1 and cost 50 |
| Creators.ParkFallbacks | src/Building.cpp:255-269 | a park is built at level 1 whatever its parameters, with boost 10 and cost 30 by default, and fails only on an unreadable parameter |
| Creators.CommercialFallbacks | src/Building.cpp:272-283 | the default is 50 customers at level 1; a negative count is refused unless the level parameter is unreadable first |
| Creators.FactoryFallbacks | Factory.cpp:6-25 | a factory produces one resource, wood 5 at cost 20 by default, at level 1; its capacity is that quantity; a cost that is not positive is refused |
| Creators.BlueprintAdmissible | src/Building.cpp:218-283 | whatever a built-in creator builds is admissible |
| Creators.Registry.Register | src/Building.cpp:51-53 | the id is mapped to the creator, overwriting an earlier one, and no other id changes; the root registry's registerFactory does the same |
| Creators.Registry.RegisterBuiltins | Factory.cpp:6-25 | the static initialisers register residential, utility, park, commercial and (in src/) factory |
| Creators.Registry.Create | src/Building.cpp:56-61 | an unknown id fails with UnknownType naming it; otherwise the result is the registered creator's building or its error; the root registry creates the same way |
| Slots.HeldCapacity | src/Building.cpp:311-314 | an empty slot has capacity 0, otherwise the held building's |
| Slots.Slot.constructor | src/Building.cpp:288 | the slot holds the given building or none |
| Slots.Slot.SetBuilding | src/Building.cpp:291-293 | the slot now holds the given building |
| Slots.Slot.UpgradeSlot | src/Building.cpp:296-299 | an empty slot fails with nothing changed; otherwise the held building is upgraded as UpgradeEffect says |
| Slots.Slot.UpgradeBlock | Building.cpp:235-238 | the same for the root block over a map, with MapUpgradeEffect |
| Slots.Slot.Capacity | Building.cpp:248-251 | the capacity of the held building, or 0 |
| Economy.TickEffect | include/EconomyVisitor.hpp:15-19 | a tick on a non-factory leaves the statistics alone; a tick on a factory leaves the factory alone; at most the level of the building changes |
| Economy.TickLaw | include/EconomyVisitor.hpp:15-19 | a tick upgrades a non-factory without touching the statistics, runs one production round for a factory without changing it, and keeps the building admissible |
| Economy.FactoryTickCredits | include/EconomyVisitor.hpp:19 | a paid factory tick with non-negative quantities credits its production to both stock and statistics |
| Economy.EconomyTick.constructor | include/EconomyVisitor.hpp:12-13 | the visitor refers to the given stock, money and statistics, and is valid when those are two distinct valid pools |
| Economy.EconomyTick.Visit | include/EconomyVisitor.hpp:15-19 | every effect of the tick lands in the referenced objects, as TickEffect says, and its error is passed on |
| Cities.Step | City.cpp:79-86 | in a residential-only pass a non-residential building is skipped untouched; otherwise the building is upgraded |
| Cities.Pass | City.cpp:68-88 | the bulk pass keeps the number of buildings and ends with no error or with an aborting one; a caught shortfall never escapes |
| Cities.StepFailureChangesNothing | City.cpp:69-75 | a failed per-building step leaves building, stock and money as they were |
| Cities.PassSplit | City.cpp:68-76 | a pass over a + b is a pass over a followed, unless that aborted, by a pass over b from the state a left |
| Cities.PassShape | City.cpp:68-76 | a pass keeps the number and identity of buildings, changes only levels, keeps them admissible, and ends with no error or an aborting one |
| Cities.PassAbortKeepsEarlier | City.cpp:68-76 | a pass reports an error exactly when some building aborts it; the earlier buildings keep their upgrades and the later ones are untouched |
| Cities.ResidentialPassNeverAborts | City.cpp:78-88 | a residential-only pass never reports an error and never changes a non-residential building |
| Cities.CapacitySumSplit | City.cpp:120-125 | total capacity is additive over a split of the building list |
| Cities.SumBounds | City.cpp:90-94 | the segment total of n streets is between 0 and 10 n |
| Cities.AdmissionEffect | City.cpp:58-66 | a creation error is passed on; a park short of money is refused with InsufficientFunds; a paid park costs its construction cost; every other variant is admitted free |
| Cities.Made | City.cpp:60 | an unknown type id fails with UnknownType; otherwise the registered creator's blueprint |
| Cities.City.constructor | City.cpp:6 | a new city has its name and money, empty pools and no streets or buildings |
| Cities.City.Copy | City.cpp:8-12 | name, money, stock and streets are copied as values, every building is cloned into a fresh object, and the statistics start empty |
| Cities.City.AddStreet | City.cpp:28-30 | a copy of the street is appended; nothing else changes |
| Cities.City.GetStreet | City.cpp:32-36 | the stored street at the index, or null exactly past the end |
| Cities.City.AddResource | City.cpp:44-48 | a negative amount fails with the stock unchanged; otherwise only that resource grows by the amount |
| Cities.City.SetMoney | City.cpp:50-52 | the money is replaced; nothing else changes |
| Cities.City.AddBuilding | City.cpp:58-66 | the registry builds, a park is paid for, and the building is appended, as AdmissionEffect says; on error the list and money are unchanged; the limit is not checked |
| Cities.City.Limit | City.cpp:90-94 | the building limit as a value: twice the total segment count (its bounds are stated by MaxBuildings) |
| Cities.City.MaxBuildings | City.cpp:90-94 | twice the total segment count, between 0 and 20 per street |
| Cities.City.AddBuildingDirect | City.cpp:96-100 | LimitExceeded exactly when the city already holds the limit or more, with nothing changed; otherwise the building is appended and the count stays within the limit |
| Cities.City.RemainingSlots | City.cpp:102-104 | the limit minus the building count |
| Cities.City.TotalCapacity | City.cpp:120-125 | the sum of all buildings' capacities |
| Cities.City.UpgradePass | City.cpp:69-75 | the loop leaves buildings, stock, money and error as Pass says |
| Cities.City.UpgradeAllBuildings | City.cpp:68-76 | buildings, stock and money end as the full pass says; only aborting errors escape |
| Cities.City.UpgradeResidentialOnly | City.cpp:78-88 | buildings, stock and money end as the residential-only pass says, and non-residential buildings are untouched |
| Cities.CloneAll | City.cpp:9-11 | one fresh, distinct clone per building, in order, with the same state |
| Cities.CopyStreets | City.cpp:8 | one fresh, distinct copy per street, in order |
| Scenarios.ResidentialTwoPasses | City.cpp:68-76 | a level-1 home with exactly 10 wood and 5 stone upgrades to level 2, empties both resources and earns 20; its next pass is caught on stone and changes nothing; capacity goes from 10 to 20 |
| Scenarios.ConstructLevels | src/Building.cpp:143-147 | a residential building asked for level 7 starts at 3; a park asked for level 2 starts at 1 |
| Scenarios.EmptyStockReportsStone | src/Building.cpp:225-229 | the default requirements, written wood first, are checked stone first, so an empty stock reports stone |
| Scenarios.UnaffordablePark | City.cpp:61-63 | a default park offered to a city with 20 money is refused for want of funds |
| Scenarios.FactoryRound | include/Factory.hpp:62-70 | 20 wood produced at cost 30 from 100 money leaves 70 money and 20 wood in stock and statistics |
| Scenarios.OverTheLimit | City.cpp:102-104 | a city with no streets admits a commercial building through addBuilding and then has -1 slots left |
| Scenarios.UpgradeClone | src/Building.cpp:95-97 | upgrading a clone leaves the original unchanged |

## Left out

- Console output is not modelled: `main.cpp`, `printSummary`, `show`, `operator<<` and the messages printed when a pass catches an error. A caught error is only counted as "not aborting".
- Exception messages are not modelled. Each exception type becomes an `Error` kind.
- The mutex guarding the registry singleton is not modelled; only sequential use is.
- `Building::buildingCount_` (a live-instance counter changed by constructors and destructors) is not modelled. Dafny has no destructors.
- `coverage`, `boost` and their `std::stod` parsing are `double` in the code. In the core they are only used through `static_cast<int>`, so they are modelled as that truncated int. The raw double printed by `Park::printImpl` belongs to the display, which is not modelled.
- `std::stoi` and `std::stod` become a pre-parsed `Token`: the parsed value, or none where the conversion throws. Number parsing itself is not modelled.
- `int` and `long` overflow is not modelled; integers are unbounded.
- The `Street*` back-reference a building keeps, and the street index passed to `addBuilding`, are not modelled. They only feed the display.
- User-supplied creator lambdas are not modelled; only the built-in creators are.
- `shared_ptr` ownership is modelled only as object identity.
- `City::operator=` and `swap` are not modelled. They exchange whole cities.
- The `const` overload of `getStreet` is the same as the other one.
- Default arguments are not modelled: `Street(int lvl = 1)`, `City(name, int startingMoney = 0)` and `Slot(std::shared_ptr<Building> b = nullptr)` take their arguments explicitly. With the default passed explicitly, each constructor behaves the same.
- `City.cpp:47` indexes the stock with `operator[]`, although the header declares it as a `ResourcePool`, which has no such operator. The model uses `ResourcePool.Add` there; the amount is already checked non-negative.
- `Cities.City.AddBuildingDirect` requires a building not already in the city. Inserting the same `shared_ptr` twice, which the code allows, is outside the model.
- `Cities.City.Valid` requires the two pools and all buildings and streets to be distinct objects. The city owns them.
- `Buildings.Building.Produce` requires the stock and the statistics to be different objects. They are a `ResourcePool<int>` and a `ResourcePool<long>`, so they cannot alias in the code either.
- `Economy.EconomyTick.Visit` has the same requirement, for the same reason.
- `Buildings.Building.Upgrade` requires a valid building, i.e. one the constructor accepted.
- `Creators.Registry.Create` covers only the five built-in creators.
