/**
 * environment.py: the step function of the reinforcement-learning environment. It turns an
 * action name into at most one call on the game, choosing the call's target by scanning
 * the board graph, the player's pieces or the player's hand for the first candidate that
 * qualifies. The game methods it calls are outside this model, so Step reports the call
 * it makes as a Request. Randomness (the turn-order die, the two production dice), the
 * listing order of the player's settlement set and the answers of _can_afford are inputs.
 */
module Environment {
  import opened Wrappers
  import opened Board
  import opened Players
  import opened Games

  /** The action names step distinguishes; any other name is Other. */
  datatype Action = Roll | Pass | BuildSettlement | BuildRoad | BuildCity | BankTrade | Other(name: string)

  /** The names step compares the action with. */
  const KnownNames: set<string> := {"roll", "pass", "build_settlement", "build_road", "build_city", "bank_trade"}

  /** Other stands only for a name step does not know; a known name is its own case. */
  predicate WellFormedAction(action: Action)
  {
    action.Other? ==> action.name !in KnownNames
  }

  /** What _can_afford answers for each kind of piece during this step. */
  datatype Affordability = Affordability(settlement: bool, road: bool, city: bool)

  /** An exception step raises instead of returning. */
  datatype Fault =
    | MissingSetupStatus  // setup_status has no entry for the player (KeyError)
    | NoSettlementListed  // list(player.settlements)[-1] on an empty set (IndexError)
    | NodeNotInGraph      // G.neighbors of a node the graph does not have

  /** The call step makes on the game, with its target. */
  datatype Request =
    | NoCall
    | SetTurnOrder
    | PlaceInitialSettlement(node: NodeId)
    | PlaceInitialRoad(edge: Edge)
    | Produced(roll: int)
    | PassTurn
    | SettlementClick(node: NodeId)
    | RoadClick(edge: Edge)
    | CityClick(node: NodeId)
    | Trade(give: Resource, receive: Resource)
    | Raise(fault: Fault)

  /** get_state's snapshot of the current player. */
  datatype Snapshot = Snapshot(
    currentPlayer: string,
    resources: map<Resource, int>,
    settlements: set<NodeId>,
    cities: set<NodeId>,
    roads: set<Edge>,
    victoryPoints: nat)

  // ---------------------------------------------------------------------------------------
  // Settlement sites

  /** too_close: some neighbour of `node` is occupied. */
  predicate TooClose(g: Graph, node: NodeId)
    requires g.Valid() && node in g.nodes
  {
    exists i :: 0 <= i < |g.neighbors[node]| && g.occupiedBy[g.neighbors[node][i]].Some?
  }

  /** The distance rule: the node is unoccupied and so are all its neighbours. */
  predicate FreeSite(g: Graph, node: NodeId)
    requires g.Valid() && node in g.nodes
  {
    g.occupiedBy[node].None? && !TooClose(g, node)
  }

  /** The node at position k is the first free site in node order. */
  ghost predicate FirstFreeSite(g: Graph, k: int)
    requires g.Valid()
  {
    0 <= k < |g.nodes| && FreeSite(g, g.nodes[k]) && forall j :: 0 <= j < k ==> !FreeSite(g, g.nodes[j])
  }

  /**
   * The site the settlement loop settles on: the first free site, when settling is
   * affordable; no site when it is not or when no node qualifies.
   */
  ghost predicate SiteChoice(g: Graph, affordable: bool, site: Option<NodeId>)
    requires g.Valid()
  {
    match site
    case None => !affordable || forall k :: 0 <= k < |g.nodes| ==> !FreeSite(g, g.nodes[k])
    case Some(n) => affordable && exists k :: FirstFreeSite(g, k) && g.nodes[k] == n
  }

  /** The loop over G.nodes that looks for a settlement site. */
  method FindSite(g: Graph, affordable: bool) returns (site: Option<NodeId>)
    requires g.Valid()
    ensures SiteChoice(g, affordable, site)
  {
    var k := 0;
    while k < |g.nodes|
      invariant 0 <= k <= |g.nodes|
      invariant affordable ==> forall j :: 0 <= j < k ==> !FreeSite(g, g.nodes[j])
    {
      var node := g.nodes[k];
      if g.occupiedBy[node].None? {
        var tooClose := Crowded(g, node);
        if !tooClose && affordable {
          assert FirstFreeSite(g, k);
          return Some(node);
        }
      }
      k := k + 1;
    }
    return None;
  }

  /** The generator behind too_close: whether any neighbour in neighbour order is occupied. */
  method Crowded(g: Graph, node: NodeId) returns (tooClose: bool)
    requires g.Valid() && node in g.nodes
    ensures tooClose <==> TooClose(g, node)
  {
    var ns := g.neighbors[node];
    var i := 0;
    while i < |ns|
      invariant 0 <= i <= |ns|
      invariant forall j :: 0 <= j < i ==> g.occupiedBy[g.neighbors[node][j]].None?
    {
      if g.occupiedBy[ns[i]].Some? {
        return true;
      }
      i := i + 1;
    }
    return false;
  }

  /** The first-free-site choice is unique, so the chosen site is determined by the graph. */
  lemma SiteChoiceUnique(g: Graph, affordable: bool, a: Option<NodeId>, b: Option<NodeId>)
    requires g.Valid() && SiteChoice(g, affordable, a) && SiteChoice(g, affordable, b)
    ensures a == b
  {
    if a.Some? && b.Some? {
      var i :| FirstFreeSite(g, i) && g.nodes[i] == a.value;
      var j :| FirstFreeSite(g, j) && g.nodes[j] == b.value;
    }
  }

  /** A chosen site is a node of the graph, unoccupied, with every neighbour unoccupied. */
  lemma ChosenSiteIsFree(g: Graph, affordable: bool, n: NodeId)
    requires g.Valid() && SiteChoice(g, affordable, Some(n))
    ensures affordable && n in g.nodes && g.occupiedBy[n].None?
    ensures forall m :: m in g.neighbors[n] ==> m in g.occupiedBy && g.occupiedBy[m].None?
  {
    forall m | m in g.neighbors[n]
      ensures m in g.occupiedBy && g.occupiedBy[m].None?
    {
      var i :| 0 <= i < |g.neighbors[n]| && g.neighbors[n][i] == m;
    }
  }

  // ---------------------------------------------------------------------------------------
  // Roads

  /**
   * Neither orientation of the edge is among the acting player's own roads. Roads of other
   * players are not looked at.
   */
  predicate NotOwnRoad(e: Edge, roads: set<Edge>)
  {
    e !in roads && (e.1, e.0) !in roads
  }

  /** connected: an end of the edge is a settlement of the player or an end of one of their roads. */
  predicate Touches(e: Edge, settlements: set<NodeId>, roads: set<Edge>)
  {
    || e.0 in settlements
    || e.1 in settlements
    || exists r :: r in roads && (r.0 == e.0 || r.0 == e.1 || r.1 == e.0 || r.1 == e.1)
  }

  /** The edge a main-phase road may go on. */
  predicate RoadSite(e: Edge, settlements: set<NodeId>, roads: set<Edge>)
  {
    NotOwnRoad(e, roads) && Touches(e, settlements, roads)
  }

  /** The road the build_road loop targets: the first qualifying edge in edge order, if affordable. */
  ghost predicate RoadChoice(g: Graph, settlements: set<NodeId>, roads: set<Edge>, affordable: bool, edge: Option<Edge>)
  {
    match edge
    case None => !affordable || forall k :: 0 <= k < |g.edges| ==> !RoadSite(g.edges[k], settlements, roads)
    case Some(e) =>
      affordable &&
      exists k :: 0 <= k < |g.edges| && g.edges[k] == e && RoadSite(e, settlements, roads) &&
                  forall j :: 0 <= j < k ==> !RoadSite(g.edges[j], settlements, roads)
  }

  /** The loop over G.edges in the main phase. */
  method FindRoad(g: Graph, settlements: set<NodeId>, roads: set<Edge>, affordable: bool)
    returns (edge: Option<Edge>)
    ensures RoadChoice(g, settlements, roads, affordable, edge)
  {
    var k := 0;
    while k < |g.edges|
      invariant 0 <= k <= |g.edges|
      invariant affordable ==> forall j :: 0 <= j < k ==> !RoadSite(g.edges[j], settlements, roads)
    {
      var (a, b) := g.edges[k];
      if (a, b) !in roads && (b, a) !in roads && affordable {
        var connected := a in settlements || b in settlements;
        if !connected {
          connected := RoadEndsMeet(a, b, roads);
        }
        if connected {
          return Some((a, b));
        }
      }
      k := k + 1;
    }
    return None;
  }

  /**
   * The generator over the player's roads and, for each road, over its two ends: whether
   * some end of some road is a or b. The set is walked in an order the model leaves open.
   */
  method RoadEndsMeet(a: NodeId, b: NodeId, roads: set<Edge>) returns (meet: bool)
    ensures meet <==> exists r :: r in roads && (r.0 == a || r.0 == b || r.1 == a || r.1 == b)
  {
    var rest := roads;
    while rest != {}
      invariant rest <= roads
      invariant forall r :: r in roads && r !in rest ==> r.0 != a && r.0 != b && r.1 != a && r.1 != b
      decreases rest
    {
      var r :| r in rest;
      var ends := [r.0, r.1];
      var k := 0;
      while k < |ends|
        invariant 0 <= k <= |ends|
        invariant forall j :: 0 <= j < k ==> ends[j] != a && ends[j] != b
      {
        if ends[k] == a || ends[k] == b {
          return true;
        }
        k := k + 1;
      }
      assert ends[0] == r.0 && ends[1] == r.1;
      rest := rest - {r};
    }
    return false;
  }

  /** A chosen road is a graph edge the player does not own in either orientation and that touches their network. */
  lemma ChosenRoadQualifies(g: Graph, settlements: set<NodeId>, roads: set<Edge>, affordable: bool, e: Edge)
    requires RoadChoice(g, settlements, roads, affordable, Some(e))
    ensures affordable && e in g.edges && e !in roads && (e.1, e.0) !in roads
    ensures e.0 in settlements || e.1 in settlements ||
      exists r :: r in roads && (r.0 == e.0 || r.0 == e.1 || r.1 == e.0 || r.1 == e.1)
  {
  }

  /** A player without settlements or roads can never be offered a road. */
  lemma NoNetworkNoRoad(g: Graph, affordable: bool, edge: Option<Edge>)
    requires RoadChoice(g, {}, {}, affordable, edge)
    ensures edge == None
  {

  }

  /** The setup road from `last` to its neighbour: an edge of the graph, in neither orientation owned. */
  predicate SetupRoadSite(g: Graph, last: NodeId, neighbor: NodeId, roads: set<Edge>)
  {
    g.HasEdge(last, neighbor) && NotOwnRoad((last, neighbor), roads)
  }

  /** The setup road the loop places: toward the first qualifying neighbour of `last`. */
  ghost predicate SetupRoadChoice(g: Graph, last: NodeId, roads: set<Edge>, edge: Option<Edge>)
    requires last in g.neighbors
  {
    var ns := g.neighbors[last];
    match edge
    case None => forall k :: 0 <= k < |ns| ==> !SetupRoadSite(g, last, ns[k], roads)
    case Some(e) =>
      exists k :: 0 <= k < |ns| && e == (last, ns[k]) && SetupRoadSite(g, last, ns[k], roads) &&
                  forall j :: 0 <= j < k ==> !SetupRoadSite(g, last, ns[j], roads)
  }

  /** The loop over the neighbours of the last-listed settlement during setup. */
  method FindSetupRoad(g: Graph, last: NodeId, roads: set<Edge>) returns (edge: Option<Edge>)
    requires last in g.neighbors
    ensures SetupRoadChoice(g, last, roads, edge)
  {
    var ns := g.neighbors[last];
    var k := 0;
    while k < |ns|
      invariant 0 <= k <= |ns|
      invariant forall j :: 0 <= j < k ==> !SetupRoadSite(g, last, ns[j], roads)
    {
      var e := (last, ns[k]);
      if g.HasEdge(e.0, e.1) {
        if e !in roads && (e.1, e.0) !in roads {
          return Some(e);
        }
      }
      k := k + 1;
    }
    return None;
  }

  // ---------------------------------------------------------------------------------------
  // Cities and trades

  /** `listing` lists the set `s`: every member once, nothing else. */
  ghost predicate Lists(listing: seq<NodeId>, s: set<NodeId>)
  {
    (forall i, j :: 0 <= i < j < |listing| ==> listing[i] != listing[j]) &&
    (forall n :: n in listing <==> n in s)
  }

  /** The loop over list(player.settlements) for build_city: the first listed node, if affordable. */
  method FindCity(listing: seq<NodeId>, affordable: bool) returns (node: Option<NodeId>)
    ensures node.Some? <==> affordable && |listing| > 0
    ensures node.Some? ==> node.value == listing[0]
  {
    var k := 0;
    while k < |listing|
      invariant 0 <= k <= |listing|
      invariant affordable ==> k == 0
    {
      if affordable {
        return Some(listing[k]);
      }
      k := k + 1;
    }
    return None;
  }

  /** A city target is always one of the player's own settlements. */
  lemma CityOnOwnSettlement(listing: seq<NodeId>, settlements: set<NodeId>, n: NodeId)
    requires Lists(listing, settlements) && |listing| > 0 && n == listing[0]
    ensures n in settlements
  {
    assert listing[0] in listing;
  }

  /** The kind at hand position m is the first with a count of at least 4. */
  ghost predicate FirstTradable(hand: map<Resource, int>, m: int)
    requires hand.Keys == HandKinds
  {
    0 <= m < |HandOrder| && hand[HandOrder[m]] >= 4 && forall j :: 0 <= j < m ==> hand[HandOrder[j]] < 4
  }

  /** The bank trade: give the first kind held four times, receive the first other kind. */
  ghost predicate TradeChoice(hand: map<Resource, int>, trade: Option<(Resource, Resource)>)
    requires hand.Keys == HandKinds
  {
    match trade
    case None => forall m :: 0 <= m < |HandOrder| ==> hand[HandOrder[m]] < 4
    case Some(t) =>
      && (exists m :: FirstTradable(hand, m) && HandOrder[m] == t.0)
      && (exists m :: 0 <= m < |HandOrder| && HandOrder[m] == t.1 && t.1 != t.0 &&
                      forall j :: 0 <= j < m ==> HandOrder[j] == t.0)
  }

  /** The nested loops over the hand for bank_trade. */
  method ChooseTrade(hand: map<Resource, int>) returns (trade: Option<(Resource, Resource)>)
    requires hand.Keys == HandKinds
    ensures TradeChoice(hand, trade)
  {
    var m := 0;
    while m < |HandOrder|
      invariant 0 <= m <= |HandOrder|
      invariant forall j :: 0 <= j < m ==> hand[HandOrder[j]] < 4
    {
      var give := HandOrder[m];
      if hand[give] >= 4 {
        assert FirstTradable(hand, m);
        var n := 0;
        while n < |HandOrder|
          invariant 0 <= n <= |HandOrder|
          invariant forall j :: 0 <= j < n ==> HandOrder[j] == give
        {
          var receive := HandOrder[n];
          if receive != give {
            return Some((give, receive));
          }
          n := n + 1;
        }
        HandOrderDistinct();
        assert false;
      }
      m := m + 1;
    }
    return None;
  }

  /** A trade gives a kind held at least four times and receives wheat, or sheep when giving wheat. */
  lemma TradeReceivesWheatOrSheep(hand: map<Resource, int>, give: Resource, receive: Resource)
    requires hand.Keys == HandKinds && TradeChoice(hand, Some((give, receive)))
    ensures give != Desert && hand[give] >= 4
    ensures receive == if give == Wheat then Sheep else Wheat
  {
    var m :| 0 <= m < |HandOrder| && HandOrder[m] == receive && receive != give &&
             forall j :: 0 <= j < m ==> HandOrder[j] == give;
    assert HandOrder[0] != HandOrder[1];
  }

  /** The trade choice is unique: a hand determines its bank trade. */
  lemma TradeChoiceUnique(hand: map<Resource, int>, a: Option<(Resource, Resource)>, b: Option<(Resource, Resource)>)
    requires hand.Keys == HandKinds && TradeChoice(hand, a) && TradeChoice(hand, b)
    ensures a == b
  {
    if a.Some? && b.Some? {
      var i :| FirstTradable(hand, i) && HandOrder[i] == a.value.0;
      var j :| FirstTradable(hand, j) && HandOrder[j] == b.value.0;
      TradeReceivesWheatOrSheep(hand, a.value.0, a.value.1);
      TradeReceivesWheatOrSheep(hand, b.value.0, b.value.1);
    }
  }

  /** The hand lists its first two kinds apart, so some kind always differs from the one given. */
  lemma HandOrderDistinct()
    ensures HandOrder[0] != HandOrder[1]
  {
  }

  // ---------------------------------------------------------------------------------------
  // The turn-order roll

  /**
   * The effect of one turn-order step: a roll records `die` under the player's name and
   * then either hands over to _set_turn_order, once there are as many rolls as players,
   * or moves to the next player, wrapping around; any other action changes nothing.
   */
  ghost predicate TurnOrderEffect(action: Action, die: int, name: string, playerCount: nat,
                                  rolls: map<string, int>, index: int,
                                  rolls': map<string, int>, index': int, request: Request)
    requires playerCount > 0
  {
    if action == Roll then
      && rolls' == rolls[name := die]
      && if |rolls'| == playerCount then request == SetTurnOrder && index' == index
         else request == NoCall && index' == (index + 1) % playerCount
    else
      request == NoCall && rolls' == rolls && index' == index
  }

  /** Names listed once each: as many names as distinct names. */
  lemma {:induction false} DistinctNamesCount(names: seq<string>)
    requires forall i, j :: 0 <= i < j < |names| ==> names[i] != names[j]
    ensures |set x | x in names| == |names|
    decreases |names|
  {
    if names != [] {
      var init := names[..|names| - 1];
      DistinctNamesCount(init);
      assert (set x | x in names) == (set x | x in init) + {names[|names| - 1]};
      assert names[|names| - 1] !in (set x | x in init);
    }
  }

  /**
   * When the rolls are keyed by names of the players, who have distinct names, there are
   * as many rolls as players exactly when every player has rolled.
   */
  lemma AllRolled(rolls: map<string, int>, names: seq<string>)
    requires forall i, j :: 0 <= i < j < |names| ==> names[i] != names[j]
    requires forall n :: n in rolls ==> n in names
    ensures |rolls| == |names| <==> forall i :: 0 <= i < |names| ==> names[i] in rolls
  {
    var all := set x | x in names;
    DistinctNamesCount(names);
    assert rolls.Keys <= all;
    if forall i :: 0 <= i < |names| ==> names[i] in rolls {
      assert rolls.Keys == all;
    } else {
      var i :| 0 <= i < |names| && names[i] !in rolls;
      assert names[i] in all;
      SubsetSmaller(rolls.Keys, all);
    }
  }

  /** A subset is no larger than its superset, and a proper subset is smaller. */
  lemma {:induction false} SubsetSmaller<T>(a: set<T>, b: set<T>)
    requires a <= b
    ensures |a| <= |b| && (a != b ==> |a| < |b|)
    decreases a
  {
    if a != {} {
      var x :| x in a;
      SubsetSmaller(a - {x}, b - {x});
      assert a != b ==> a - {x} != b - {x};
    }
  }

  // ---------------------------------------------------------------------------------------
  // The setup and main phases

  /**
   * What the setup branch does once the turn order is known, for a player whose
   * setup_status entry is `status` (None when there is no entry). `finished` says that
   * step returns from inside the branch rather than at its common return.
   */
  ghost predicate SetupOutcome(action: Action, status: Option<SetupStatus>, g: Graph, listing: seq<NodeId>,
                               roads: set<Edge>, request: Request, finished: bool)
    requires g.Valid()
  {
    match status
    case None => request == Raise(MissingSetupStatus) && finished
    case Some(st) =>
      if action == BuildSettlement && !st.settlement then
        || (request.PlaceInitialSettlement? && finished && SiteChoice(g, true, Some(request.node)))
        || (request == NoCall && !finished && SiteChoice(g, true, None))
      else if action == BuildRoad && st.settlement && !st.road then
        if listing == [] then request == Raise(NoSettlementListed) && finished
        else if listing[|listing| - 1] !in g.nodes then request == Raise(NodeNotInGraph) && finished
        else
          var last := listing[|listing| - 1];
          || (request.PlaceInitialRoad? && finished && SetupRoadChoice(g, last, roads, Some(request.edge)))
          || (request == NoCall && !finished && SetupRoadChoice(g, last, roads, None))
      else
        request == NoCall && finished
  }

  /** The setup branch on plain data: the status lookup, then the settlement or road search. */
  method SetupChoice(action: Action, status: Option<SetupStatus>, g: Graph, listing: seq<NodeId>,
                     roads: set<Edge>) returns (request: Request, finished: bool)
    requires g.Valid()
    ensures SetupOutcome(action, status, g, listing, roads, request, finished)
  {
    if status.None? {
      return Raise(MissingSetupStatus), true;
    }
    var st := status.value;
    if action == BuildSettlement && !st.settlement {
      var site := FindSite(g, true);
      if site.Some? {
        return PlaceInitialSettlement(site.value), true;
      }
      return NoCall, false;
    } else if action == BuildRoad && st.settlement && !st.road {
      if listing == [] {
        return Raise(NoSettlementListed), true;
      }
      var last := listing[|listing| - 1];
      if last !in g.nodes {
        return Raise(NodeNotInGraph), true;
      }
      var edge := FindSetupRoad(g, last, roads);
      if edge.Some? {
        return PlaceInitialRoad(edge.value), true;
      }
      return NoCall, false;
    } else {
      return NoCall, true;
    }
  }

  /** A settlement placed in setup satisfies the distance rule and is the first such node. */
  lemma SetupSettlementIsFree(action: Action, status: Option<SetupStatus>, g: Graph, listing: seq<NodeId>,
                              roads: set<Edge>, n: NodeId, finished: bool)
    requires g.Valid() && SetupOutcome(action, status, g, listing, roads, PlaceInitialSettlement(n), finished)
    ensures action == BuildSettlement && status.Some? && !status.value.settlement && finished
    ensures n in g.nodes && FreeSite(g, n)
  {
  }

  /** A road placed in setup leaves the last-listed settlement, is a graph edge and is not yet owned. */
  lemma SetupRoadQualifies(action: Action, status: Option<SetupStatus>, g: Graph, listing: seq<NodeId>,
                           roads: set<Edge>, e: Edge, finished: bool)
    requires g.Valid() && SetupOutcome(action, status, g, listing, roads, PlaceInitialRoad(e), finished)
    ensures action == BuildRoad && status.Some? && status.value.settlement && !status.value.road
    ensures listing != [] && e.0 == listing[|listing| - 1]
    ensures g.HasEdge(e.0, e.1) && e !in roads && (e.1, e.0) !in roads
  {
  }

  /**
   * What a main-phase action other than roll asks of the game: pass hands over the turn,
   * each build targets the first qualifying candidate when the piece is affordable, and a
   * bank trade follows the hand order.
   */
  ghost predicate MainOutcome(action: Action, g: Graph, settlements: set<NodeId>, roads: set<Edge>,
                              hand: map<Resource, int>, afford: Affordability, listing: seq<NodeId>,
                              request: Request)
    requires g.Valid() && hand.Keys == HandKinds
  {
    match action
    case Roll => request.Produced?
    case Pass => request == PassTurn
    case BuildSettlement =>
      || (request.SettlementClick? && SiteChoice(g, afford.settlement, Some(request.node)))
      || (request == NoCall && SiteChoice(g, afford.settlement, None))
    case BuildRoad =>
      || (request.RoadClick? && RoadChoice(g, settlements, roads, afford.road, Some(request.edge)))
      || (request == NoCall && RoadChoice(g, settlements, roads, afford.road, None))
    case BuildCity =>
      if afford.city && listing != [] then request == CityClick(listing[0]) else request == NoCall
    case BankTrade =>
      || (request.Trade? && TradeChoice(hand, Some((request.give, request.receive))))
      || (request == NoCall && TradeChoice(hand, None))
    case Other(_) => request == NoCall
  }

  /** The main-phase branch for every action but roll, on plain data. */
  method MainChoice(action: Action, g: Graph, settlements: set<NodeId>, roads: set<Edge>,
                    hand: map<Resource, int>, afford: Affordability, listing: seq<NodeId>)
    returns (request: Request)
    requires g.Valid() && hand.Keys == HandKinds && action != Roll
    ensures MainOutcome(action, g, settlements, roads, hand, afford, listing, request)
  {
    match action {
      case Pass =>
        request := PassTurn;
      case BuildSettlement =>
        var site := FindSite(g, afford.settlement);
        request := if site.Some? then SettlementClick(site.value) else NoCall;
      case BuildRoad =>
        var edge := FindRoad(g, settlements, roads, afford.road);
        request := if edge.Some? then RoadClick(edge.value) else NoCall;
      case BuildCity =>
        var node := FindCity(listing, afford.city);
        request := if node.Some? then CityClick(node.value) else NoCall;
      case BankTrade =>
        var trade := ChooseTrade(hand);
        request := if trade.Some? then Trade(trade.value.0, trade.value.1) else NoCall;
      case Other(_) =>
        request := NoCall;
    }
  }

  /** The whole game's board graph, players and turn state, as step sees them. */
  class CatanEnvironment {
    var game: Game

    constructor(game: Game)
      ensures this.game == game
    {
      this.game := game;
    }

    /** The current index names a player, players are listed once, the graph and every hand are well formed. */
    ghost predicate Valid()
      reads this, game, game.players
    {
      && 0 <= game.currentIndex < |game.players|
      && game.DistinctPlayers()
      && game.graph.Valid()
      && forall i :: 0 <= i < |game.players| ==> game.players[i].Valid()
    }

    /** get_state: the current player's name, hand, pieces and victory points. */
    function GetState(): (state: Snapshot)
      reads this, game, game.players
      requires 0 <= game.currentIndex < |game.players|
      ensures var p := game.CurrentPlayer();
        && state.currentPlayer == p.name && state.resources == p.resources
        && state.settlements == p.settlements && state.cities == p.cities && state.roads == p.roads
      ensures state.victoryPoints == Points(state.settlements, state.cities, game.CurrentPlayer().hasLongestRoad)
    {
      var player := game.CurrentPlayer();
      Snapshot(player.name, player.resources, player.settlements, player.cities, player.roads,
               player.VictoryPoints())
    }

    /** The setup-phase branch before the turn order is known. */
    method TurnOrderStep(action: Action, die: int) returns (request: Request)
      requires Valid()
      modifies game`turnOrderRolls, game`currentIndex
      ensures Valid()
      ensures TurnOrderEffect(action, die, old(game.CurrentPlayer().name), |game.players|,
                              old(game.turnOrderRolls), old(game.currentIndex),
                              game.turnOrderRolls, game.currentIndex, request)
    {
      request := NoCall;
      if action == Roll {
        var player := game.CurrentPlayer();
        game.turnOrderRolls := game.turnOrderRolls[player.name := die];
        if |game.turnOrderRolls| == |game.players| {
          request := SetTurnOrder;
        } else {
          game.currentIndex := (game.currentIndex + 1) % |game.players|;
        }
      }
    }

    /** The main-phase roll: production on the dice total, which keeps every hand well formed. */
    method MainRoll(die1: int, die2: int) returns (request: Request)
      requires Valid() && 1 <= die1 <= 6 && 1 <= die2 <= 6
      modifies game.players`resources
      ensures Valid()
      ensures request == Produced(DiceTotal(die1, die2))
      ensures forall i :: 0 <= i < |game.players| ==>
        Credited(game.players[i].resources, old(game.players[i].resources), game.tiles, DiceTotal(die1, die2),
                 game.players[i].settlements, game.players[i].cities, Desert, 0)
    {
      var roll := game.Roll(die1, die2);
      request := Produced(roll);
      forall i | 0 <= i < |game.players|
        ensures game.players[i].Valid()
      {
      }
    }

    /**
     * The setup-phase branch: the turn-order roll until the order is known, then the
     * placements. `finished` says that step returns from inside the branch.
     */
    method SetupPhase(action: Action, orderDie: int, listing: seq<NodeId>) returns (request: Request, finished: bool)
      requires Valid() && 1 <= orderDie <= 12
      modifies game`turnOrderRolls, game`currentIndex
      ensures Valid()
      ensures game.turnOrderDetermined ==>
        game.turnOrderRolls == old(game.turnOrderRolls) && game.currentIndex == old(game.currentIndex)
      ensures !game.turnOrderDetermined ==>
        finished &&
        TurnOrderEffect(action, orderDie, old(game.CurrentPlayer().name), |game.players|,
                        old(game.turnOrderRolls), old(game.currentIndex),
                        game.turnOrderRolls, game.currentIndex, request)
      ensures game.turnOrderDetermined ==>
        SetupOutcome(action, CurrentStatus(), game.graph, listing, game.CurrentPlayer().roads, request, finished)
    {
      if !game.turnOrderDetermined {
        request := TurnOrderStep(action, orderDie);
        finished := true;
      } else {
        request, finished := SetupChoice(action, CurrentStatus(), game.graph, listing, game.CurrentPlayer().roads);
      }
    }

    /**
     * The main-phase branch: a roll produces on the dice total; any other action leaves
     * every hand as it was and makes the request MainOutcome names.
     */
    method MainPhase(action: Action, die1: int, die2: int, afford: Affordability, listing: seq<NodeId>)
      returns (request: Request)
      requires Valid() && 1 <= die1 <= 6 && 1 <= die2 <= 6
      modifies game.players`resources
      ensures Valid()
      ensures action != Roll ==>
        forall i :: 0 <= i < |game.players| ==> game.players[i].resources == old(game.players[i].resources)
      ensures MainOutcome(action, game.graph, game.CurrentPlayer().settlements, game.CurrentPlayer().roads,
                          old(game.CurrentPlayer().resources), afford, listing, request)
      ensures action == Roll ==>
        request == Produced(DiceTotal(die1, die2)) &&
        forall i :: 0 <= i < |game.players| ==>
          Credited(game.players[i].resources, old(game.players[i].resources), game.tiles, DiceTotal(die1, die2),
                   game.players[i].settlements, game.players[i].cities, Desert, 0)
    {
      if action == Roll {
        request := MainRoll(die1, die2);
      } else {
        var player := game.CurrentPlayer();
        request := MainChoice(action, game.graph, player.settlements, player.roads, player.resources,
                              afford, listing);
      }
    }

    /** The status entry of the current player, if there is one. */
    function CurrentStatus(): Option<SetupStatus>
      reads this, game, game.players
      requires 0 <= game.currentIndex < |game.players|
    {
      var name := game.CurrentPlayer().name;
      if name in game.setupStatus then Some(game.setupStatus[name]) else None
    }

    /**
     * step: the reward is 1 when the current player already has 10 points; then the
     * turn-order roll, the setup placements or the main-phase action. Only the turn-order
     * roll changes turn state and only the main-phase roll changes hands; every other
     * effect is the request made of the game. The reward is absent where step returns
     * the shorter tuple or raises.
     */
    method Step(action: Action, orderDie: int, die1: int, die2: int, afford: Affordability, listing: seq<NodeId>)
      returns (request: Request, reward: Option<int>)
      requires Valid() && WellFormedAction(action)
      requires 1 <= orderDie <= 12 && 1 <= die1 <= 6 && 1 <= die2 <= 6
      requires Lists(listing, game.CurrentPlayer().settlements)
      modifies game`turnOrderRolls, game`currentIndex, game.players`resources
      ensures Valid()
      ensures reward.Some? ==> reward.value == if old(game.CurrentPlayer().VictoryPoints()) >= 10 then 1 else 0
      ensures old(game.setupPhase) || action != Roll ==>
        forall i :: 0 <= i < |game.players| ==> game.players[i].resources == old(game.players[i].resources)
      ensures !(old(game.setupPhase) && !old(game.turnOrderDetermined)) ==>
        game.turnOrderRolls == old(game.turnOrderRolls) && game.currentIndex == old(game.currentIndex)
      ensures old(game.setupPhase) && !old(game.turnOrderDetermined) ==>
        reward.None? &&
        TurnOrderEffect(action, orderDie, old(game.CurrentPlayer().name), |game.players|,
                        old(game.turnOrderRolls), old(game.currentIndex),
                        game.turnOrderRolls, game.currentIndex, request)
      ensures old(game.setupPhase) && old(game.turnOrderDetermined) ==>
        SetupOutcome(action, old(CurrentStatus()), game.graph, listing, game.CurrentPlayer().roads,
                     request, reward.None?)
      ensures !old(game.setupPhase) ==>
        reward.Some? &&
        MainOutcome(action, game.graph, game.CurrentPlayer().settlements, game.CurrentPlayer().roads,
                    old(game.CurrentPlayer().resources), afford, listing, request)
      ensures !old(game.setupPhase) && action == Roll ==>
        request == Produced(DiceTotal(die1, die2)) &&
        forall i :: 0 <= i < |game.players| ==>
          Credited(game.players[i].resources, old(game.players[i].resources), game.tiles, DiceTotal(die1, die2),
                   game.players[i].settlements, game.players[i].cities, Desert, 0)
    {
      var player := game.CurrentPlayer();
      var points := player.VictoryPoints();
      var gained := if points >= 10 then 1 else 0;
      if game.setupPhase {
        var finished;
        request, finished := SetupPhase(action, orderDie, listing);
        if finished {
          return request, None;
        }
      } else {
        request := MainPhase(action, die1, die2, afford, listing);
      }
      return request, Some(gained);
    }
  }
}
