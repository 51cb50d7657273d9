/**
 * player.py: a player's hand over the five resource kinds, the pieces they own, and the
 * victory-point count.
 */
module Players {
  import opened Board

  /** The keys of a hand, in the insertion order of the dict literal. */
  const HandOrder: seq<Resource> := [Wheat, Sheep, Ore, Brick, Wood]

  /** The kinds a hand holds: every resource but the desert. */
  const HandKinds: set<Resource> := {Wheat, Sheep, Ore, Brick, Wood}

  /** The victory points of a player with these pieces and this longest-road flag. */
  function Points(settlements: set<NodeId>, cities: set<NodeId>, hasLongestRoad: bool): nat
  {
    |settlements| + 2 * |cities| + (if hasLongestRoad then 2 else 0)
  }

  class Player {
    var name: string
    var resources: map<Resource, int>
    var settlements: set<NodeId>
    var cities: set<NodeId>
    var roads: set<Edge>
    var hasLongestRoad: bool

    /** The hand has exactly the five kinds as keys. */
    ghost predicate Valid()
      reads this
    {
      resources.Keys == HandKinds
    }

    /** A new player: every count 0, no pieces, no longest road. */
    constructor(name: string)
      ensures Valid()
      ensures this.name == name
      ensures forall r :: r in HandKinds ==> resources[r] == 0
      ensures settlements == {} && cities == {} && roads == {} && !hasLongestRoad
    {
      this.name := name;
      resources := map[Wheat := 0, Sheep := 0, Ore := 0, Brick := 0, Wood := 0];
      settlements := {};
      cities := {};
      roads := {};
      hasLongestRoad := false;
    }

    /** add_resource: a kind the hand holds gains `amount`; any other kind is ignored. */
    method AddResource(resource: Resource, amount: int)
      modifies this`resources
      ensures resources.Keys == old(resources.Keys)
      ensures resource in old(resources) ==> resources == old(resources)[resource := old(resources)[resource] + amount]
      ensures resource !in old(resources) ==> resources == old(resources)
    {
      if resource in resources {
        resources := resources[resource := resources[resource] + amount];
      }
    }

    /** victory_points: settlements count 1, cities 2, the longest road 2. */
    function VictoryPoints(): (points: nat)
      reads this
      ensures points == Points(settlements, cities, hasLongestRoad)
    {
      var points := |settlements| + 2 * |cities|;
      if hasLongestRoad then points + 2 else points
    }
  }

  /** A hand with the five kinds keeps them after adding any kind, and a valid player stays valid. */
  lemma AddKeepsKinds(hand: map<Resource, int>, resource: Resource, amount: int)
    requires hand.Keys == HandKinds
    ensures resource in hand <==> resource != Desert
    ensures resource in hand ==> hand[resource := hand[resource] + amount].Keys == HandKinds
  {
  }

  /** A score is zero exactly when the player owns nothing and has no longest road. */
  lemma PointsZero(settlements: set<NodeId>, cities: set<NodeId>, hasLongestRoad: bool)
    ensures Points(settlements, cities, hasLongestRoad) == 0 <==>
      settlements == {} && cities == {} && !hasLongestRoad
  {
  }

  /** A new settlement on an unowned node is worth one point. */
  lemma SettlementPoint(settlements: set<NodeId>, cities: set<NodeId>, hasLongestRoad: bool, n: NodeId)
    requires n !in settlements
    ensures Points(settlements + {n}, cities, hasLongestRoad) == Points(settlements, cities, hasLongestRoad) + 1
  {
  }

  /** Upgrading one of one's settlements to a city is worth one more point. */
  lemma CityUpgradePoint(settlements: set<NodeId>, cities: set<NodeId>, hasLongestRoad: bool, n: NodeId)
    requires n in settlements && n !in cities
    ensures Points(settlements - {n}, cities + {n}, hasLongestRoad) == Points(settlements, cities, hasLongestRoad) + 1
  {
    assert settlements == (settlements - {n}) + {n};
  }
}
