/** A street: an ordered list of at most ten segment ids and a fixed level in [1, 3]. */
module Streets {

  const MaxSegments: nat := 10

  /** The level a street is built with: `lvl` clamped into [1, 3]. */
  function StreetLevel(lvl: int): (r: int)
    ensures 1 <= r <= 3
    ensures 1 <= lvl <= 3 ==> r == lvl
    ensures lvl < 1 ==> r == 1
    ensures lvl > 3 ==> r == 3
  {
    if lvl < 1 then 1 else if lvl > 3 then 3 else lvl
  }

  class Street {
    var segments: seq<int>
    /** Only read after construction, hence `const`. */
    const level: int

    ghost predicate Valid()
      reads this
    {
      |segments| <= MaxSegments && 1 <= level <= 3
    }

    constructor (lvl: int)
      ensures Valid() && segments == [] && level == StreetLevel(lvl)
    {
      level := StreetLevel(lvl);
      segments := [];
    }

    /** The value copy made when a street is stored in, or copied with, a city. */
    constructor Copy(other: Street)
      requires other.Valid()
      ensures Valid() && segments == other.segments && level == other.level
    {
      level := other.level;
      segments := other.segments;
    }

    method AddSegment(seg: int) returns (added: bool)
      requires Valid()
      modifies this
      ensures Valid()
      ensures added <==> |old(segments)| < MaxSegments
      ensures segments == if added then old(segments) + [seg] else old(segments)
    {
      if |segments| >= MaxSegments {
        return false;
      }
      segments := segments + [seg];
      added := true;
    }

    function Length(): (n: int)
      reads this
      ensures n == |segments|
      ensures Valid() ==> 0 <= n <= MaxSegments
    {
      |segments|
    }

    /** The road type; the "Unknown" fallback is unreachable for a valid street. */
    function RoadType(): (t: string)
      reads this
      ensures Valid() ==> t != "Unknown"
      ensures level == 1 <==> t == "Two lane"
      ensures level == 2 <==> t == "Four lane"
      ensures level == 3 <==> t == "Six lane"
    {
      match level
      case 1 => "Two lane"
      case 2 => "Four lane"
      case 3 => "Six lane"
      case _ => "Unknown"
    }
  }
}
