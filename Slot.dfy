/** `Slot` (src/) and its root twin `Block`: a holder of at most one building. */
module Slots {
  import opened Errors
  import opened Resources
  import opened Buildings

  /** The building a slot reports the capacity of, or 0 when it is empty. */
  function HeldCapacity(held: Option<BuildingState>): (c: int)
    ensures held.None? ==> c == 0
    ensures held.Some? ==> c == Capacity(held.value)
  {
    match held
    case None => 0
    case Some(st) => Capacity(st)
  }

  class Slot {
    /** The held building; `null` is the empty slot. */
    var building: Building?

    ghost predicate Valid()
      reads this, building
    {
      building != null ==> building.Valid()
    }

    ghost function Held(): Option<BuildingState>
      reads this, building
    {
      if building == null then None else Some(building.State())
    }

    constructor (b: Building?)
      requires b != null ==> b.Valid()
      ensures Valid() && building == b
    {
      building := b;
    }

    method SetBuilding(b: Building?)
      requires b != null ==> b.Valid()
      modifies this
      ensures Valid() && building == b
    {
      building := b;
    }

    /** `upgradeSlot` over a pool: an empty slot fails and changes nothing;
        otherwise the held building is upgraded. The slot itself is unchanged. */
    method UpgradeSlot(pool: ResourcePool, money: int) returns (error: Option<Error>, after: int)
      requires Valid() && pool.Valid()
      modifies building, pool
      ensures Valid() && pool.Valid() && building == old(building)
      ensures old(building) == null ==> error == Some(EmptySlot) && after == money && pool.data == old(pool.data)
      ensures old(building) != null ==>
        var o := UpgradeEffect(old(building.State()), old(pool.data), money);
        building.State() == o.state && pool.data == o.stock && after == o.money && error == o.error
    {
      if building == null {
        return Some(EmptySlot), money;
      }
      error, after := building.Upgrade(pool, money);
    }

    /** `Block::upgradeBlock` over a plain map: the same, with the root
        variant's upgrade. */
    method UpgradeBlock(stock: Store, money: int) returns (error: Option<Error>, stockAfter: Store, after: int)
      requires Valid()
      modifies building
      ensures Valid() && building == old(building)
      ensures old(building) == null ==> error == Some(EmptySlot) && stockAfter == stock && after == money
      ensures old(building) != null ==>
        var o := MapUpgradeEffect(old(building.State()), stock, money);
        building.State() == o.state && stockAfter == o.stock && after == o.money && error == o.error
    {
      if building == null {
        return Some(EmptySlot), stock, money;
      }
      error, stockAfter, after := building.UpgradeOnMap(stock, money);
    }

    /** `capacity()`: 0 for an empty slot, else the held building's capacity. */
    method Capacity() returns (c: int)
      ensures c == HeldCapacity(Held())
    {
      if building == null {
        return 0;
      }
      c := building.CapacityEffect();
    }
  }
}
