/**
 * game.py: the Game object (players, tiles, board graph) and the production step of a
 * dice roll. The two dice are inputs: the values random.randint chose.
 */
module Games {
  import opened Wrappers
  import opened Board
  import opened Players

  /** A tile on the board together with the nodes at its corners (its corner_nodes). */
  datatype Hex = Hex(tile: Tile, cornerNodes: seq<NodeId>)

  /** The total of two six-sided dice. */
  function DiceTotal(die1: int, die2: int): (roll: int)
    requires 1 <= die1 <= 6 && 1 <= die2 <= 6
    ensures 2 <= roll <= 12
    ensures roll == 2 ==> die1 == 1 && die2 == 1
    ensures roll == 12 ==> die1 == 6 && die2 == 6
  {
    die1 + die2
  }

  /**
   * What the corners `corners` earn a player with these settlements and cities: 1 for a
   * settlement, otherwise 2 for a city, once per listed corner.
   */
  function CornerCredit(corners: seq<NodeId>, settlements: set<NodeId>, cities: set<NodeId>): nat
  {
    if corners == [] then 0
    else
      var node := corners[|corners| - 1];
      CornerCredit(corners[..|corners| - 1], settlements, cities) +
        (if node in settlements then 1 else if node in cities then 2 else 0)
  }

  /** Whether the hex yields `resource` on `roll`: its number matches and it is not the desert. */
  predicate Produces(hex: Hex, roll: int, resource: Resource)
  {
    hex.tile.frequency == Some(roll) && hex.tile.GetResource() == Some(resource)
  }

  /** What `hexes` yield of `resource` on `roll` to a player with these settlements and cities. */
  function Yield(hexes: seq<Hex>, roll: int, settlements: set<NodeId>, cities: set<NodeId>, resource: Resource): nat
  {
    if hexes == [] then 0
    else
      var hex := hexes[|hexes| - 1];
      Yield(hexes[..|hexes| - 1], roll, settlements, cities, resource) +
        (if Produces(hex, roll, resource) then CornerCredit(hex.cornerNodes, settlements, cities) else 0)
  }

  /**
   * `hand` is `before` with every kind it holds raised by what `hexes` yield, plus `bonus`
   * more of `kind`.
   */
  ghost predicate Credited(hand: map<Resource, int>, before: map<Resource, int>, hexes: seq<Hex>, roll: int,
                           settlements: set<NodeId>, cities: set<NodeId>, kind: Resource, bonus: nat)
  {
    && hand.Keys == before.Keys
    && forall r :: r in hand ==>
         hand[r] == before[r] + Yield(hexes, roll, settlements, cities, r) + (if r == kind then bonus else 0)
  }

  /** A player's setup progress: whether the initial settlement and road are placed. */
  datatype SetupStatus = SetupStatus(settlement: bool, road: bool)

  class Game {
    var players: seq<Player>
    var tiles: seq<Hex>
    var graph: Graph

    // The turn state environment.py reads and writes on its game. The constructor of
    // game.py does not set these; they belong to the engine the environment drives.
    var currentIndex: int
    var setupPhase: bool
    var turnOrderDetermined: bool
    var turnOrderRolls: map<string, int>
    var setupStatus: map<string, SetupStatus>
    var gameOver: bool

    constructor(players: seq<Player>, tiles: seq<Hex>, graph: Graph)
      ensures this.players == players && this.tiles == tiles && this.graph == graph
    {
      this.players := players;
      this.tiles := tiles;
      this.graph := graph;
    }

    /** current_player: the player whose turn it is. */
    function CurrentPlayer(): Player
      reads this
      requires 0 <= currentIndex < |players|
    {
      players[currentIndex]
    }

    /** No player is listed twice. */
    ghost predicate DistinctPlayers()
      reads this
    {
      forall i, j :: 0 <= i < j < |players| ==> players[i] != players[j]
    }

    /**
     * roll: every tile whose number is the dice total and which is not the desert pays
     * each player 1 of its resource per settlement and 2 per city on its corners. Only
     * hands change, and each one by exactly what Yield says.
     */
    method Roll(die1: int, die2: int) returns (roll: int)
      requires 1 <= die1 <= 6 && 1 <= die2 <= 6
      requires DistinctPlayers()
      modifies players`resources
      ensures roll == DiceTotal(die1, die2)
      ensures forall i :: 0 <= i < |players| ==>
        Credited(players[i].resources, old(players[i].resources), tiles, roll,
                 players[i].settlements, players[i].cities, Desert, 0)
    {
      roll := die1 + die2;
      ghost var before := seq(|players|, i reads this, players requires 0 <= i < |players| => players[i].resources);
      var t := 0;
      while t < |tiles|
        invariant 0 <= t <= |tiles|
        invariant forall i :: 0 <= i < |players| ==> before[i] == old(players[i].resources)
        invariant forall i :: 0 <= i < |players| ==>
          Credited(players[i].resources, before[i], tiles[..t], roll,
                   players[i].settlements, players[i].cities, Desert, 0)
      {
        var hex := tiles[t];
        if hex.tile.frequency == Some(roll) {
          var resource := hex.tile.GetResource();
          if resource.Some? {
            PayCorners(hex, resource.value, roll, t, before);
          } else {
            NoYieldStep(tiles, t, roll);
          }
        } else {
          NoYieldStep(tiles, t, roll);
        }
        t := t + 1;
      }
      assert tiles[..t] == tiles;
    }

    /** The loops over one producing tile's corners and over the players. */
    method PayCorners(hex: Hex, resource: Resource, roll: int, t: nat, ghost before: seq<map<Resource, int>>)
      requires t < |tiles| && hex == tiles[t] && |before| == |players|
      requires hex.tile.frequency == Some(roll) && hex.tile.GetResource() == Some(resource)
      requires DistinctPlayers()
      requires forall i :: 0 <= i < |players| ==>
        Credited(players[i].resources, before[i], tiles[..t], roll,
                 players[i].settlements, players[i].cities, Desert, 0)
      modifies players`resources
      ensures forall i :: 0 <= i < |players| ==>
        Credited(players[i].resources, before[i], tiles[..t + 1], roll,
                 players[i].settlements, players[i].cities, Desert, 0)
    {
      var corners := hex.cornerNodes;
      var c := 0;
      while c < |corners|
        invariant 0 <= c <= |corners|
        invariant forall i :: 0 <= i < |players| ==>
          PlayerCredited(players[i], before[i], tiles[..t], roll, resource, corners[..c])
      {
        PayNode(corners, c, resource, roll, t, before);
        c := c + 1;
      }
      assert corners[..c] == corners;
      forall i | 0 <= i < |players|
        ensures Credited(players[i].resources, before[i], tiles[..t + 1], roll,
                         players[i].settlements, players[i].cities, Desert, 0)
      {
        assert tiles[..t + 1][..t] == tiles[..t];
      }
    }

    /** The loop over the players for one corner node: a settlement there earns 1, else a city 2. */
    method PayNode(corners: seq<NodeId>, c: nat, resource: Resource, roll: int, t: nat,
                   ghost before: seq<map<Resource, int>>)
      requires c < |corners| && t <= |tiles| && |before| == |players|
      requires DistinctPlayers()
      requires forall j :: 0 <= j < |players| ==>
        PlayerCredited(players[j], before[j], tiles[..t], roll, resource, corners[..c])
      modifies players`resources
      ensures forall j :: 0 <= j < |players| ==>
        PlayerCredited(players[j], before[j], tiles[..t], roll, resource, corners[..c + 1])
    {
      var node := corners[c];
      assert corners[..c + 1][..c] == corners[..c];
      var i := 0;
      while i < |players|
        invariant 0 <= i <= |players|
        invariant forall j :: 0 <= j < i ==>
          PlayerCredited(players[j], before[j], tiles[..t], roll, resource, corners[..c + 1])
        invariant forall j :: i <= j < |players| ==>
          PlayerCredited(players[j], before[j], tiles[..t], roll, resource, corners[..c])
      {
        PayPlayer(players[i], node, resource, corners, c, before[i], tiles[..t], roll);
        i := i + 1;
      }
    }

    /** One pass of the innermost loop: the player gains 1 for a settlement on `node`, else 2 for a city. */
    static method PayPlayer(player: Player, node: NodeId, resource: Resource, corners: seq<NodeId>, c: nat,
                            ghost before: map<Resource, int>, ghost hexes: seq<Hex>, roll: int)
      requires c < |corners| && corners[c] == node
      requires PlayerCredited(player, before, hexes, roll, resource, corners[..c])
      modifies player`resources
      ensures PlayerCredited(player, before, hexes, roll, resource, corners[..c + 1])
    {
      ghost var hand := player.resources;
      if node in player.settlements {
        player.AddResource(resource, 1);
      } else if node in player.cities {
        player.AddResource(resource, 2);
      }
      CreditNode(hand, player.resources, before, hexes, roll, player.settlements, player.cities,
                 resource, corners, c);
    }
  }

  /** `p`'s hand is `before` plus its yield from `hexes` and its credit for `corners` in `kind`. */
  ghost predicate PlayerCredited(p: Player, before: map<Resource, int>, hexes: seq<Hex>, roll: int,
                                 kind: Resource, corners: seq<NodeId>)
    reads p
  {
    Credited(p.resources, before, hexes, roll, p.settlements, p.cities, kind,
             CornerCredit(corners, p.settlements, p.cities))
  }

  /** A tile that does not produce adds nothing to anyone's yield. */
  lemma NoYieldStep(hexes: seq<Hex>, t: nat, roll: int)
    requires t < |hexes|
    requires hexes[t].tile.frequency != Some(roll) || hexes[t].tile.GetResource() == None
    ensures forall s, c, r :: Yield(hexes[..t + 1], roll, s, c, r) == Yield(hexes[..t], roll, s, c, r)
  {
    assert hexes[..t + 1][..t] == hexes[..t];
  }

  /** Paying one more corner node moves a hand from the credit of corners[..c] to that of corners[..c + 1]. */
  lemma CreditNode(hand: map<Resource, int>, paid: map<Resource, int>, before: map<Resource, int>,
                   hexes: seq<Hex>, roll: int, settlements: set<NodeId>, cities: set<NodeId>,
                   resource: Resource, corners: seq<NodeId>, c: nat)
    requires c < |corners|
    requires Credited(hand, before, hexes, roll, settlements, cities, resource,
                      CornerCredit(corners[..c], settlements, cities))
    requires var gain := if corners[c] in settlements then 1 else if corners[c] in cities then 2 else 0;
      paid == if resource in hand && gain > 0 then hand[resource := hand[resource] + gain] else hand
    ensures Credited(paid, before, hexes, roll, settlements, cities, resource,
                     CornerCredit(corners[..c + 1], settlements, cities))
  {
    assert corners[..c + 1][..c] == corners[..c];
  }

  /** How many of the listed corners lie in `nodes`. */
  function Occurrences(corners: seq<NodeId>, nodes: set<NodeId>): nat
  {
    if corners == [] then 0
    else Occurrences(corners[..|corners| - 1], nodes) + (if corners[|corners| - 1] in nodes then 1 else 0)
  }

  /**
   * A tile's corners pay one per settlement and two per city, where a node that is also
   * among the player's settlements counts only as a settlement.
   */
  lemma {:induction false} CornerCreditByCounts(corners: seq<NodeId>, settlements: set<NodeId>, cities: set<NodeId>)
    ensures CornerCredit(corners, settlements, cities) ==
      Occurrences(corners, settlements) + 2 * Occurrences(corners, cities - settlements)
    decreases |corners|
  {
    if corners != [] {
      CornerCreditByCounts(corners[..|corners| - 1], settlements, cities);
    }
  }

  /** With only cities, every corner pays twice what a settlement there would. */
  lemma {:induction false} CityPaysDouble(corners: seq<NodeId>, nodes: set<NodeId>)
    ensures CornerCredit(corners, {}, nodes) == 2 * CornerCredit(corners, nodes, {})
    decreases |corners|
  {
    if corners != [] {
      CityPaysDouble(corners[..|corners| - 1], nodes);
    }
  }

  /** No tile pays more than two per listed corner. */
  lemma {:induction false} CornerCreditBound(corners: seq<NodeId>, settlements: set<NodeId>, cities: set<NodeId>)
    ensures CornerCredit(corners, settlements, cities) <= 2 * |corners|
    ensures (forall k :: 0 <= k < |corners| ==> corners[k] !in settlements && corners[k] !in cities) ==>
      CornerCredit(corners, settlements, cities) == 0
    decreases |corners|
  {
    if corners != [] {
      CornerCreditBound(corners[..|corners| - 1], settlements, cities);
    }
  }

  /** When no tile carries the rolled number, nobody receives anything. */
  lemma {:induction false} NoMatchNoYield(hexes: seq<Hex>, roll: int, settlements: set<NodeId>, cities: set<NodeId>, resource: Resource)
    requires forall k :: 0 <= k < |hexes| ==> hexes[k].tile.frequency != Some(roll)
    ensures Yield(hexes, roll, settlements, cities, resource) == 0
    decreases |hexes|
  {
    if hexes != [] {
      NoMatchNoYield(hexes[..|hexes| - 1], roll, settlements, cities, resource);
    }
  }

  /** A seven produces nothing on a board whose tiles carry only valid production numbers. */
  lemma SevenYieldsNothing(hexes: seq<Hex>, settlements: set<NodeId>, cities: set<NodeId>, resource: Resource)
    requires forall k :: 0 <= k < |hexes| && hexes[k].tile.frequency.Some? ==> ValidNumber(hexes[k].tile.frequency.value)
    ensures Yield(hexes, 7, settlements, cities, resource) == 0
  {
    NoMatchNoYield(hexes, 7, settlements, cities, resource);
  }

  /** The desert never pays out, whatever is rolled. */
  lemma {:induction false} DesertYieldsNothing(hexes: seq<Hex>, roll: int, settlements: set<NodeId>, cities: set<NodeId>)
    ensures Yield(hexes, roll, settlements, cities, Desert) == 0
    decreases |hexes|
  {
    if hexes != [] {
      DesertYieldsNothing(hexes[..|hexes| - 1], roll, settlements, cities);
    }
  }

  /** A player with no settlement and no city receives nothing. */
  lemma {:induction false} NoPiecesNoYield(hexes: seq<Hex>, roll: int, resource: Resource)
    ensures Yield(hexes, roll, {}, {}, resource) == 0
    decreases |hexes|
  {
    if hexes != [] {
      var hex := hexes[|hexes| - 1];
      NoPiecesNoYield(hexes[..|hexes| - 1], roll, resource);
      CornerCreditBound(hex.cornerNodes, {}, {});
    }
  }

  /** A roll only adds to hands: no count falls, and a count grows exactly when its kind yields. */
  lemma ProductionOnlyAdds(hand: map<Resource, int>, before: map<Resource, int>, hexes: seq<Hex>, roll: int,
                           settlements: set<NodeId>, cities: set<NodeId>)
    requires Credited(hand, before, hexes, roll, settlements, cities, Desert, 0)
    ensures hand.Keys == before.Keys
    ensures forall r :: r in before ==> hand[r] >= before[r]
    ensures forall r :: r in before ==> (hand[r] > before[r] <==> Yield(hexes, roll, settlements, cities, r) > 0)
  {
  }
}
