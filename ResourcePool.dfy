/** The named-quantity ledger (`ResourcePool<T>` and `trySpend`), and the
    stores-as-values vocabulary shared by the building and factory models. */
module Resources {
  import opened Errors

  /** One (name, quantity) pair of a `std::map<std::string,int>`. A map of
      requirements or of production is a `seq<Entry>` listing the map in its
      iteration order: `Keyed` says the names are distinct and `Ascending`
      that they come in the order `std::less<std::string>` puts them. */
  datatype Entry = Entry(name: string, qty: int)

  predicate Keyed(es: seq<Entry>) {
    forall j, k :: 0 <= j < k < |es| ==> es[j].name != es[k].name
  }

  /** `std::less<std::string>`: character by character, a proper prefix first. */
  predicate StrLess(a: string, b: string) {
    if a == [] then b != []
    else if b == [] then false
    else if a[0] != b[0] then a[0] < b[0]
    else StrLess(a[1..], b[1..])
  }

  predicate Ascending(es: seq<Entry>) {
    forall j, k :: 0 <= j < k < |es| ==> StrLess(es[j].name, es[k].name)
  }

  /** No name comes before itself. */
  lemma {:induction false} StrLessIrreflexive(a: string)
    ensures !StrLess(a, a)
  {
    if a != [] {
      StrLessIrreflexive(a[1..]);
    }
  }

  /** Of two different names, one comes first: the order is total. */
  lemma {:induction false} StrLessTotal(a: string, b: string)
    requires a != b
    ensures StrLess(a, b) || StrLess(b, a)
  {
    if a != [] && b != [] && a[0] == b[0] {
      assert a == [a[0]] + a[1..] && b == [b[0]] + b[1..];
      StrLessTotal(a[1..], b[1..]);
    }
  }

  /** A list in map order names every resource once. */
  lemma AscendingKeyed(es: seq<Entry>)
    requires Ascending(es)
    ensures Keyed(es)
  {
    forall j, k | 0 <= j < k < |es| ensures es[j].name != es[k].name {
      StrLessIrreflexive(es[j].name);
    }
  }

  function Names(es: seq<Entry>): set<string> {
    set k | 0 <= k < |es| :: es[k].name
  }

  /** The quantity listed under `n` (summed, should a name repeat). */
  function QuantityOf(es: seq<Entry>, n: string): int {
    if es == [] then 0
    else QuantityOf(es[..|es| - 1], n) + (if es[|es| - 1].name == n then es[|es| - 1].qty else 0)
  }

  /** The sum of all listed quantities. */
  function Total(es: seq<Entry>): int {
    if es == [] then 0 else Total(es[..|es| - 1]) + es[|es| - 1].qty
  }

  lemma {:induction false} QuantityOfAbsent(es: seq<Entry>, n: string)
    requires n !in Names(es)
    ensures QuantityOf(es, n) == 0
  {
    if es != [] {
      var init := es[..|es| - 1];
      assert Names(init) <= Names(es) by {
        forall m | m in Names(init) ensures m in Names(es) {
          var k :| 0 <= k < |init| && init[k].name == m;
          assert es[k].name == m;
        }
      }
      QuantityOfAbsent(init, n);
      assert es[|es| - 1].name in Names(es);
    }
  }

  /** In a keyed list, the quantity under an entry's name is that entry's quantity. */
  lemma {:induction false} QuantityOfKeyed(es: seq<Entry>, k: nat)
    requires Keyed(es) && k < |es|
    ensures QuantityOf(es, es[k].name) == es[k].qty
  {
    var init := es[..|es| - 1];
    if k == |es| - 1 {
      assert forall j :: 0 <= j < |init| ==> init[j].name != es[k].name by {
        forall j | 0 <= j < |init| ensures init[j].name != es[k].name {
          assert init[j] == es[j];
        }
      }
      QuantityOfAbsent(init, es[k].name);
    } else {
      assert init[k] == es[k];
      QuantityOfKeyed(init, k);
    }
  }

  /** A resource stock as a value: absent names read as zero. */
  type Store = map<string, int>

  function Amount(s: Store, n: string): int {
    if n in s then s[n] else 0
  }

  ghost predicate NonNegative(s: Store) {
    forall n :: n in s ==> s[n] >= 0
  }

  /** The stock after `qty` more of `name` (`data_[name] += qty`). */
  function Credit(s: Store, name: string, qty: int): (r: Store)
    ensures Amount(r, name) == Amount(s, name) + qty
    ensures forall m :: m != name ==> Amount(r, m) == Amount(s, m)
    ensures r.Keys == s.Keys + {name}
  {
    s[name := Amount(s, name) + qty]
  }

  /** The stock after `qty` less of `name` (`data_[name] = cur - qty`). */
  function Debit(s: Store, name: string, qty: int): (r: Store)
    ensures Amount(r, name) == Amount(s, name) - qty
    ensures forall m :: m != name ==> Amount(r, m) == Amount(s, m)
    ensures r.Keys == s.Keys + {name}
  {
    s[name := Amount(s, name) - qty]
  }

  /** Credit every entry in order. */
  function AddAll(s: Store, es: seq<Entry>): Store {
    if es == [] then s else Credit(AddAll(s, es[..|es| - 1]), es[|es| - 1].name, es[|es| - 1].qty)
  }

  /** Crediting one more entry of a list. */
  lemma AddAllStep(s: Store, es: seq<Entry>, i: nat)
    requires i < |es|
    ensures AddAll(s, es[..i + 1]) == Credit(AddAll(s, es[..i]), es[i].name, es[i].qty)
  {
    assert es[..i + 1][..i] == es[..i];
  }

  /** Debit every entry in order. */
  function ConsumeAll(s: Store, es: seq<Entry>): Store {
    if es == [] then s else Debit(ConsumeAll(s, es[..|es| - 1]), es[|es| - 1].name, es[|es| - 1].qty)
  }

  /** What reading `m[name]` through `std::map::operator[]` does to the map:
      an absent name is inserted with value zero. */
  function Index(s: Store, name: string): (r: Store)
    ensures name in r && r.Keys == s.Keys + {name}
    ensures forall m :: Amount(r, m) == Amount(s, m)
  {
    if name in s then s else s[name := 0]
  }

  /** Read every entry's name through `operator[]`, in order. */
  function Touch(s: Store, es: seq<Entry>): Store {
    if es == [] then s else Index(Touch(s, es[..|es| - 1]), es[|es| - 1].name)
  }

  lemma {:induction false} NamesSnoc(es: seq<Entry>)
    requires es != []
    ensures Names(es) == Names(es[..|es| - 1]) + {es[|es| - 1].name}
  {
    var init := es[..|es| - 1];
    forall m | m in Names(es) ensures m in Names(init) + {es[|es| - 1].name} {
      var k :| 0 <= k < |es| && es[k].name == m;
      if k < |es| - 1 { assert init[k].name == m; }
    }
    forall m | m in Names(init) ensures m in Names(es) {
      var k :| 0 <= k < |init| && init[k].name == m;
      assert es[k].name == m;
    }
  }

  /** Producing into a stock adds exactly the listed quantity to every name. */
  lemma {:induction false} AddAllAmount(s: Store, es: seq<Entry>, n: string)
    ensures Amount(AddAll(s, es), n) == Amount(s, n) + QuantityOf(es, n)
  {
    if es != [] { AddAllAmount(s, es[..|es| - 1], n); }
  }

  /** Consuming a list subtracts exactly the listed quantity from every name. */
  lemma {:induction false} ConsumeAllAmount(s: Store, es: seq<Entry>, n: string)
    ensures Amount(ConsumeAll(s, es), n) == Amount(s, n) - QuantityOf(es, n)
  {
    if es != [] { ConsumeAllAmount(s, es[..|es| - 1], n); }
  }

  /** Consuming a list leaves a key for every listed name and adds no other key. */
  lemma {:induction false} ConsumeAllKeys(s: Store, es: seq<Entry>)
    ensures ConsumeAll(s, es).Keys == s.Keys + Names(es)
  {
    if es != [] {
      ConsumeAllKeys(s, es[..|es| - 1]);
      NamesSnoc(es);
    }
  }

  /** `operator[]` reads change no quantity; they only add zero entries for the names read. */
  lemma {:induction false} TouchEffect(s: Store, es: seq<Entry>)
    ensures Touch(s, es).Keys == s.Keys + Names(es)
    ensures forall m :: Amount(Touch(s, es), m) == Amount(s, m)
  {
    if es != [] {
      TouchEffect(s, es[..|es| - 1]);
      NamesSnoc(es);
    }
  }

  /** Two stocks that read the same everywhere and have the same keys are equal. */
  lemma SameStock(a: Store, b: Store)
    requires a.Keys == b.Keys
    requires forall m :: Amount(a, m) == Amount(b, m)
    ensures a == b
  {
    forall m | m in a ensures a[m] == b[m] {
      assert Amount(a, m) == Amount(b, m);
    }
  }

  /** Reading the required names through `operator[]` before consuming them
      yields exactly the stock that consuming them directly yields. */
  lemma TouchThenConsume(s: Store, es: seq<Entry>)
    ensures ConsumeAll(Touch(s, es), es) == ConsumeAll(s, es)
  {
    var t := Touch(s, es);
    TouchEffect(s, es);
    ConsumeAllKeys(t, es);
    ConsumeAllKeys(s, es);
    forall m ensures Amount(ConsumeAll(t, es), m) == Amount(ConsumeAll(s, es), m) {
      ConsumeAllAmount(t, es, m);
      ConsumeAllAmount(s, es, m);
    }
    SameStock(ConsumeAll(t, es), ConsumeAll(s, es));
  }

  /** Adding a non-negative quantity and then consuming it again is allowed
      (the stock is never short) and restores the quantity under that name. */
  lemma AddThenConsumeRestores(s: Store, name: string, qty: int)
    requires NonNegative(s) && qty >= 0
    ensures Amount(Credit(s, name, qty), name) >= qty
    ensures Amount(Debit(Credit(s, name, qty), name, qty), name) == Amount(s, name)
    ensures name in s ==> Debit(Credit(s, name, qty), name, qty) == s
  {
  }

  /** `ResourcePool<T>`: a map from resource name to quantity whose entries
      are never negative. The same class models `ResourcePool<int>` (stock)
      and `ResourcePool<long>` (production statistics). */
  class ResourcePool {
    var data: Store

    ghost predicate Valid()
      reads this
    {
      NonNegative(data)
    }

    constructor ()
      ensures Valid() && data == map[]
    {
      data := map[];
    }

    /** The value copy a copied `City` makes of its pools. */
    constructor Copy(other: ResourcePool)
      requires other.Valid()
      ensures Valid() && data == other.data
    {
      data := other.data;
    }

    function Get(name: string): (q: int)
      reads this
      ensures name in data ==> q == data[name]
      ensures name !in data ==> q == 0
      ensures Valid() ==> q >= 0
    {
      Amount(data, name)
    }

    function CanConsume(name: string, qty: int): (ok: bool)
      reads this
      ensures ok <==> Get(name) >= qty
      ensures ok && Valid() ==> Amount(Debit(data, name, qty), name) >= 0
    {
      Get(name) >= qty
    }

    method Add(name: string, qty: int) returns (error: Option<Error>)
      requires Valid()
      modifies this
      ensures Valid()
      ensures qty < 0 ==> error == Some(NegativeQuantity) && data == old(data)
      ensures qty >= 0 ==> error == None && data == Credit(old(data), name, qty)
    {
      if qty < 0 {
        return Some(NegativeQuantity);
      }
      data := data[name := Get(name) + qty];
      error := None;
    }

    method Consume(name: string, qty: int) returns (error: Option<Error>)
      requires Valid()
      modifies this
      ensures Valid()
      ensures old(Get(name)) < qty ==> error == Some(InsufficientResource(name)) && data == old(data)
      ensures old(Get(name)) >= qty ==> error == None && data == Debit(old(data), name, qty)
    {
      var cur := Get(name);
      if cur < qty {
        return Some(InsufficientResource(name));
      }
      data := data[name := cur - qty];
      error := None;
    }
  }

  /** `trySpend(money, cost)`: `money` is passed by reference, so the new
      value comes back as `after`. */
  method TrySpend(money: int, cost: int) returns (ok: bool, after: int)
    ensures ok <==> money >= cost
    ensures ok ==> after == money - cost
    ensures !ok ==> after == money
  {
    if money < cost {
      return false, money;
    }
    return true, money - cost;
  }
}
