# Catan rules layer

This project models the rules layer of a small Catan engine that drives a reinforcement-learning agent. It has four parts:

- **Tile set** (`catanboard.py`). The 19 resource tiles are built from the resource distribution (wheat 4, sheep 4, ore 3, brick 3, wood 4, desert 1). That list and the 18 production numbers are shuffled. The tiles are then dealt so that every non-desert tile pops one number from the end of the shuffled list and the desert gets none.
- **Player** (`player.py`). A hand over the five kinds a player can hold. `add_resource` ignores any other kind. The victory-point count is 1 per settlement, 2 per city and 2 for the longest road.
- **Production** (`game.py`, `Game.roll`). Two dice are added. Every tile whose number matches the total, other than the desert, pays each player 1 of its resource per settlement and 2 per city on its corners.
- **Environment step** (`environment.py`, `CatanEnvironment.step` and `get_state`). This covers:
  - the reward, taken from the current player's points before the action;
  - the turn-order roll bookkeeping;
  - the setup placements;
  - the main-phase actions, each of which targets the first candidate in iteration order that qualifies: a node satisfying the distance rule, an edge not among the player's own roads that touches the player's network, one of the player's settlements, and the give/receive pair of a bank trade.

Randomness is an input. Each `random.shuffle` is a permutation argument, and each `random.randint` is a die argument. The modules follow the files:

- `wrappers.dfy` holds `Option`.
- `board.dfy` holds `Board`, which also declares the board graph as data.
- `players.dfy` holds `Players`.
- `game.dfy` holds `Games`.
- `environment.dfy` holds `Environment`.

Notes on the code, which the model follows as written:

- The turn-order die is `randint(1, 12)`, a single value in 1..12, not a total of two dice.
- `Game.roll` has no robber. A 7 produces nothing only because no tile carries a 7.
- `step` computes a reward itself.
- The main-phase road search checks only the acting player's own roads, so an edge another player already owns is a valid target.
- The main-phase road search counts an edge as connected through the player's settlements and road ends only, not through their cities.
- The setup road search likewise checks only the player's own roads.

The imperative parts are methods proved against specification functions or predicates:

- the resource and tile loops of `catanboard.py`;
- `add_resource`;
- the three nested loops of `roll`, over tiles, corners and players, which update each player object in place;
- the scanning loops of `step`, which stop at the first match;
- the turn-state updates.

Production is specified by `Yield`, which gives the sum over producing tiles of what their corners earn. Each target search is specified by a "first qualifying candidate" predicate. Both are connected to lemmas stating what the source promises.

## Model

| member | source | states |
|---|---|---|
| Board.Tile.GetResource | catanboard.py:8-12 | returns None exactly for the desert, otherwise the tile's own resource |
| Board.BuildResourceList | catanboard.py:24-27 | the nested loop over the distribution appends each kind as often as its count, in insertion order |
| Board.StandardResourceCounts | catanboard.py:13-27 | the resource list has 19 entries: wheat 4, sheep 4, ore 3, brick 3, wood 4, desert 1 |
| Board.PermutePreservesMultiset | catanboard.py:29-30 | any shuffle outcome is a rearrangement: the multiset of elements is unchanged |
| Board.Shuffle | catanboard.py:29-30 | the shuffled list is the input moved by the chosen permutation, with the same multiset |
| Board.ShuffledResources | catanboard.py:29 | the shuffled resource list still has 19 entries with the standard counts |
| Board.ShuffleResources | catanboard.py:24-29 | building and shuffling the resource list gives 19 entries, exactly one desert and 18 tiles that need a number |
| Board.Pop | catanboard.py:37 | pop removes and returns the last element; the list is the rest followed by it |
| Board.DealTile | catanboard.py:34-38 | a desert tile gets no number and leaves the list alone; any other tile takes the list's last number |
| Board.DealTiles | catanboard.py:32-38 | tile i has resource i; the numbers carried, in tile order, are the consumed tail of the list reversed; one number is consumed per non-desert resource and pop never runs on an empty list; the k-th number dealt is the list's k-th entry from the end |
| Board.NumbersFromEnd | catanboard.py:33-38 | when the numbers carried are the list reversed, the k-th of them is the list's entry at position length-1-k |
| Board.ReversePreservesMultiset | catanboard.py:37 | taking numbers from the end reverses their order but keeps their multiset |
| Board.FrequencyValues | catanboard.py:23 | the production list has 18 entries, each in 2..12 and none equal to 7 |
| Board.NumbersInRange | catanboard.py:33-38 | tiles carrying a rearrangement of valid numbers carry only valid numbers |
| Board.SingleDesertTile | catanboard.py:33-36 | dealing a list with one desert gives exactly one desert tile, which has no number, and every other tile has one |
| Board.DealBoard | catanboard.py:24-38 | for any shuffles and any 18-entry number list: 19 tiles whose resources are the shuffled list; exactly one desert without a number; the list ends empty; the numbers are the shuffled list read from the end (the k-th is its entry 17-k), so their multiset is the list's |
| Board.GenerateTiles | catanboard.py:23-38 | the same for the production list itself (the k-th number carried is the shuffled list's entry 17-k), so every tile's number is in 2..12 and never 7 |
| Players.Player.constructor | player.py:2-14 | a new player holds 0 of each of the five kinds, no settlements, cities or roads, and no longest road |
| Players.Player.AddResource | player.py:16-18 | a held kind gains exactly the amount and nothing else changes; any other kind changes nothing; the key set is kept |
| Players.AddKeepsKinds | player.py:16-18 | a five-kind hand holds every kind but the desert, and adding to a held kind keeps the five kinds |
| Players.Player.VictoryPoints | player.py:23-27 | points are settlements + 2 x cities + 2 for the longest road |
| Players.PointsZero | player.py:23-27 | a score is 0 exactly when the player owns no settlement or city and has no longest road |
| Players.SettlementPoint | player.py:24 | a settlement on a new node adds one point |
| Players.CityUpgradePoint | player.py:24 | turning one of one's settlements into a city adds one point |
| Games.DiceTotal | game.py:12 | the sum of two dice lies in 2..12, and its extremes need double ones or double sixes |
| Games.Game.constructor | game.py:6-9 | the game holds the given players, tiles and graph |
| Games.Game.Roll | game.py:11-27 | the roll is the dice total; every player's hand is the old hand plus exactly that player's Yield for each kind, and nothing but hands changes |
| Games.Game.PayCorners | game.py:20-27 | paying one producing tile's corners adds that tile to every player's credited yield |
| Games.Game.PayNode | game.py:21-27 | paying one corner credits every player, each exactly once, for that corner |
| Games.Game.PayPlayer | game.py:22-27 | a settlement on the corner earns 1; otherwise a city earns 2 |
| Games.ProductionOnlyAdds | game.py:15-27 | a roll never lowers a count, and raises a count exactly when that kind yields something |
| Games.CornerCreditByCounts | game.py:20-27 | a tile pays one per settlement corner plus two per city corner that is not also a settlement, since the city test is an elif |
| Games.CityPaysDouble | game.py:22-27 | a city pays twice what a settlement on the same corners would |
| Games.CornerCreditBound | game.py:20-27 | a tile pays at most 2 per corner, and nothing when the player owns none of its corners |
| Games.NoMatchNoYield | game.py:16 | only tiles whose number equals the roll produce |
| Games.SevenYieldsNothing | game.py:16 | on a board of valid numbers, a 7 produces nothing |
| Games.DesertYieldsNothing | game.py:17-19 | the desert never produces |
| Games.NoPiecesNoYield | game.py:20-27 | a player with no settlements or cities receives nothing |
| Environment.Crowded | environment.py:50-53 | too_close holds exactly when some neighbour of the node is occupied |
| Environment.FindSite | environment.py:74-82 | the settlement target is the first node in graph order that is unoccupied with no occupied neighbour, when settling is affordable; otherwise there is none |
| Environment.ChosenSiteIsFree | environment.py:48-54 | a chosen site is a graph node, unoccupied, with every neighbour unoccupied |
| Environment.SiteChoiceUnique | environment.py:74-82 | the graph and the affordability answer determine the site |
| Environment.FindRoad | environment.py:84-95 | the road target is the first graph edge that is affordable, not among the player's own roads in either orientation, and touching a settlement or a road end of the player; at most one |
| Environment.RoadEndsMeet | environment.py:91 | the walk over the player's roads and their two ends finds a match exactly when some road has an end equal to either end of the edge |
| Environment.ChosenRoadQualifies | environment.py:84-95 | a chosen road is a graph edge, not among the player's own roads in either orientation, with an end on a settlement or on a road end of the player |
| Environment.NoNetworkNoRoad | environment.py:88-93 | a player with no settlements and no roads is never offered a road |
| Environment.FindSetupRoad | environment.py:58-63 | the setup road runs from the last-listed settlement to its first neighbour whose edge is in the graph and not among the player's own roads in either orientation |
| Environment.FindCity | environment.py:97-100 | the city target is the first listed settlement when a city is affordable; there is none otherwise |
| Environment.CityOnOwnSettlement | environment.py:97-99 | a city target is one of the player's own settlements |
| Environment.ChooseTrade | environment.py:102-108 | the trade gives the first kind in hand order held at least 4 times and receives the first other kind; with no such kind there is no trade |
| Environment.TradeReceivesWheatOrSheep | environment.py:104-107 | the kind given is held at least 4 times; the kind received is wheat, or sheep when wheat is given |
| Environment.TradeChoiceUnique | environment.py:102-108 | the hand determines the trade |
| Environment.AllRolled | environment.py:37 | with rolls keyed by distinct player names, there are as many rolls as players exactly when every player has rolled |
| Environment.CatanEnvironment.constructor | environment.py:7-8 | the environment drives the given game |
| Environment.CatanEnvironment.GetState | environment.py:10-18 | the snapshot is the current player's name, hand and pieces, and their victory points by the point rule |
| Environment.CatanEnvironment.TurnOrderStep | environment.py:33-44 | a roll records the die under the player's name, then either asks for the turn order once every player has a roll or advances the index modulo the player count; any other action changes nothing |
| Environment.CatanEnvironment.SetupPhase | environment.py:32-66 | before the turn order is known, the turn-order effect and an early return; afterwards the setup outcome, with the turn state unchanged |
| Environment.SetupChoice | environment.py:46-66 | a missing status entry raises. Otherwise the setup settlement goes to the first free site. The setup road fails with an empty settlement listing or a last settlement outside the graph, else goes to the first qualifying neighbour. Any other action returns at once, and no target falls through |
| Environment.SetupSettlementIsFree | environment.py:47-56 | a setup settlement is only placed before the player's first settlement, and only on a free site |
| Environment.SetupRoadQualifies | environment.py:57-63 | a setup road is only placed after the settlement and before the road, starts at the last-listed settlement, and is a graph edge not among the player's own roads |
| Environment.MainChoice | environment.py:71-110 | pass hands over the turn; each build goes to its first qualifying target; a bank trade follows the hand order; an unknown action does nothing |
| Environment.CatanEnvironment.MainRoll | environment.py:69-70 | the roll request carries the dice total, every hand gains exactly its yield, and every hand keeps the five kinds |
| Environment.CatanEnvironment.MainPhase | environment.py:68-110 | a roll credits every hand by its yield; any other action leaves all hands unchanged and makes the request MainOutcome names |
| Environment.CatanEnvironment.Step | environment.py:26-112 | the reward is 1 exactly when the current player had at least 10 points before the step, and is absent where step returns early or raises. Only the turn-order roll changes the turn state; only the main-phase roll changes hands, each by its Yield. Every other branch makes the request its choice predicate names. The environment stays well formed |

## Left out

- Randomness: `random.shuffle` and `random.randint` are not modelled. Their outcomes are inputs: a permutation for each shuffle and a value for each die.
- The `Game` methods that `environment.py` calls but `game.py` does not define:
  - `place_initial`, `_set_turn_order`, `pass_turn`, `bank_trade` and the three click handlers. Step reports the call it makes, with its target, as a `Request` and does not model the call's effect.
  - `_can_afford`. Its three answers are a constant `Affordability` input for the step.
  - `get_valid_actions` calls `Game.get_valid_actions`, which game.py does not define; `is_done` only reads `game_over`.
- The turn-state fields (`current_index`, `setup_phase`, `turn_order_determined`, `turn_order_rolls`, `setup_status`, `game_over`) are fields of `Game`, as `environment.py` uses them. The engine that initialises them is not part of this model.
- The board graph `G` and how it is built are not part of this model. It is a given list of nodes in networkx node order, neighbour lists, an edge list and an `occupied_by` map. Tiles' `corner_nodes`, which `Tile` never defines, are a given field of `Hex`.
- Python set iteration order: `list(player.settlements)` is an input listing of the set.
- `Environment.CatanEnvironment.Step` reports the request and the reward, but not the returned state tuple, which is `GetState` of the state after the step plus `game_over`. The different tuple shapes of the early returns appear only as an absent reward. `get_state` returns the settlements, cities and roads as lists built from the sets; `Snapshot` keeps the sets themselves, so the lists' order is not modelled, and neither is the copying of the hand.
- `reset` is left out. It builds a fresh game from the module-level tiles and graph, and the graph is not modelled.
- Resource names are a closed enumeration. `add_resource` with a name outside the hand is represented by the desert, the one tile kind a hand does not hold.
- Games.Game.Roll: requires the players to be distinct objects. A player listed twice would be paid twice by the source, and that aliasing is not modelled.
- `current_player` is not defined in any of the modelled files. `Games.Game.CurrentPlayer` takes it to be `players[current_index]`, and `GetState`, `TurnOrderStep` and `Step` rely on that.
- Action names are a closed enumeration: `Other` carries only names outside the six that `step` compares with, which `Step` requires of its action.
- `print` logging is not modelled.
- Integers are unbounded, as in Python.
- The rendering, learning-agent, playback and entry-point files, and the `__main__` block of `game.py`, are not modelled: they are UI, floating point and I/O.
