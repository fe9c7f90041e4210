# A verified model of the board-game framework

This project models the game core of a board-game framework and the two games built on it, and proves their laws in
Dafny. `dafny verify dfyconfig.toml` checks everything.

**Kingdoms** is a conquest game on 61 hexes. `KingdomsRules` describes the seven actions as validators and executors from
state to state and events; `KingdomsTable` carries the same actions out step by step on mutable state and is proved to do
exactly that. Setup and every accepted action keep one joint invariant (`KingdomsInvariant`, `KingdomsConquest`,
`KingdomsRun`), so no accepted action ever throws and the game can always go on. `KingdomsEconomy` covers income, the
round-end economy and the previews shown to players, `KingdomsLoyalty` the loyalty of tiles over whole runs,
`KingdomsEffects` what single actions amount to, and `KingdomsTurns` the fairness of turns in every game. Three modules
tell the rules from the table alone, without the helpers the rules are written with: `KingdomsVerdicts` when each action is
accepted and which error it gets otherwise, `KingdomsBattle` who wins an attack, who is left and what is taken, and
`KingdomsLedger` what tiles bring in and that the events of a round end account for every stock.

**Frontier** is a territory game on 37 hexes with a trade market. `FrontierRules` and `FrontierTable` stand to each other
as above; `FrontierInvariant` and `FrontierRun` hold the invariant, victory and setup, `FrontierMarket` the conservation
laws of the market, `FrontierVerdicts` when each action is accepted, told from flags, forts, offers and inventories,
`FrontierTurns` what may be claimed over whole turns, and `FrontierClient` the browser's reducer with the proof that folding
events over the snapshot gives the server's projection.

Shared parts: `Hex`, `Board`, `KingdomsMap` and `FrontierMap` (geometry and boards), `Random` (seeding, xorshift32 and the
shuffles on 32-bit words), `Connectivity` (the supply search), `Combat` (battles), `Rounds` (turn orders, round manager,
player manager), `Inventory`, and `GameCore` (submit, event stamping, journal, replay), which `KingdomsEngine` and
`FrontierEngine` apply to the two games.

**Arithmetic.** Strengths, multipliers and scaled draws are exact reals and integers instead of floats. Strengths are compared
by their squares; `Combat.OutcomeAgreesWithRoots` ties the squares back to the formulas with roots. The 32-bit words of
the generators wrap around as in the source. The wares of Frontier are exact reals: the quantities of an offer may be
fractional or missing, and arithmetic on a missing one gives no number, as in JavaScript.

**Where code and prose disagree**, the model follows the code. The recruit comment prices the fourth and the tenth Noble at
23 and 663 gold; the formula gives 8 · 1.7² = 23.12, rounded up to 24, and 8 · 1.7⁸ = 558.06, rounded up to 559. The
combat comments speak of a 50 % cap; the code caps a winning defender's losses at 40 %. The scenario header says starving
units are disbanded; they are not, and food bought at the round end is put in stock rather than eaten. The Frontier header
promises victory at 12 points on 19 tiles; the code asks for 18 on 37. Its homes are announced on ring 2, three of them as
an equilateral triangle; they lie on ring 3, and two of three are six steps apart, the third five from both. The browser
never updates the round it shows.

**Where browser and server part.** The browser is meant to keep the server's view by folding events. It does exactly when
every event carries the numbers it needs (`FrontierClient.BrowserAgreesWithServer`). The validator lets through an offer
in which quantities are missing. The server then leaves such a ware alone, while the browser's count of it becomes no
number: at once for a ware offered (`FrontierClient.EmptyPostGarbles`), on acceptance for a ware asked for. The first
snapshot lists the players in the order they were passed in, later ones by seat; these agree exactly when the players came
in by seat (`FrontierClient.SnapshotsAgreeIffSeated`). The game runner, the only caller, puts player i on seat i, so in
hosted games the difference never shows (`FrontierClient.HostedGamesAgree`).

## Model

| member | source | states |
|---|---|---|
| Hex.DistanceIsExactMax | boardgame-framework/packages/game-core/src/map/coordinate.ts:37-41 | The halving is exact on every pair of coordinates, and the distance is the largest of the three axis differences. |
| Hex.DistanceIsMetric | boardgame-framework/packages/game-core/src/map/coordinate.ts:37-41 | Distance is symmetric, zero exactly on equal coordinates, and obeys the triangle inequality. |
| Hex.NeighbourCharacterisations | boardgame-framework/packages/game-core/src/map/game-map.ts:38-43 | The box test, distance one and the table of six directions describe the same adjacency. |
| Hex.Ring | boardgame-framework/packages/game-core/src/scenarios/kingdoms/map.ts:24-49 | For every radius, also negative ones, the walk produces exactly the six sides of the ring in order. |
| Hex.RingIsSphere | boardgame-framework/packages/game-core/src/scenarios/kingdoms/map.ts:24-49 | For every k > 0 the ring is repetition-free, has 6k coordinates and is exactly the set at distance k from the origin. |
| Hex.SpiralIsBall | boardgame-framework/packages/game-core/src/scenarios/kingdoms/map.ts:51 | Rings 0..R together list the ball of radius R without repetition: 3R²+3R+1 coordinates. |
| Hex.HexesInRange | boardgame-framework/packages/game-core/src/map/hex-tile.ts:8-18 | The double loop lists exactly the coordinates within the radius, each once, around any centre. |
| Hex.BallListing | boardgame-framework/packages/game-core/src/map/hex-tile.ts:8-18 | Any repetition-free listing of the ball is a permutation of the shifted spiral and has 3R²+3R+1 elements. |
| Random.SeedFromString | boardgame-framework/packages/game-core/src/dice/random.ts:5-12 | The hash loop computes the FNV-1a fold of the characters, never zero. |
| Random.SeedIsHash | boardgame-framework/packages/game-core/src/dice/random.ts:5-12 | The seed is the hash of the string, or one for a string that hashes to zero. |
| Random.KnownValues | boardgame-framework/packages/game-core/src/dice/random.ts:5-43 | The step and the hash take the published values of xorshift32 with shifts 13, 17, 5 and of 32-bit FNV-1a. |
| Random.StepIsBijective | boardgame-framework/packages/game-core/src/dice/random.ts:35-43 | The xorshift step on 32-bit words has a two-sided inverse, so it is injective. |
| Random.NeverZero | boardgame-framework/packages/game-core/src/dice/random.ts:30-43 | From the starting word of any seed, zero included, no number of steps reaches the zero state. |
| Random.ZeroIsOne | boardgame-framework/packages/game-core/src/dice/random.ts:30-43 | A generator seeded with zero draws what one seeded with one draws, and every other seed its own. |
| Random.ScaledIndexInRange | boardgame-framework/packages/game-core/src/dice/random.ts:45-48 | Scaling a 32-bit word by n / 2^32 always gives an index below n. |
| Random.SeededRandom.IntInRange | boardgame-framework/packages/game-core/src/dice/random.ts:45-48 | Draws within the range and advances the state once, or throws on an empty range without touching it. |
| Random.ShuffleIsPermutation | boardgame-framework/packages/game-core/src/scenarios/kingdoms/map.ts:85-97 | Both shuffles, for every list and every generator state, only reorder the list. |
| Random.ShuffleIsWalk | boardgame-framework/packages/game-core/src/scenarios/kingdoms/map.ts:85-97 | The shuffle swaps, from the last position down, with an index drawn from the whole range up to the position: the word of the generator modulo, or scaled to, the number of places left. |
| Random.EveryOrderIsReached | boardgame-framework/packages/game-core/src/scenarios/kingdoms/map.ts:85-97 | Every reordering of every list is reached by some draws in these ranges. |
| Random.DrawsAreUnique | boardgame-framework/packages/game-core/src/scenarios/kingdoms/map.ts:85-97 | Of a list without repetitions different draws give different orders, so each order has exactly one sequence of draws. |
| Random.SeededShuffle | boardgame-framework/packages/game-core/src/scenarios/kingdoms/map.ts:85-97 | The in-place loop on a copy with its inlined generator computes that shuffle. |
| Random.RandomShuffle | boardgame-framework/packages/game-core/src/scenarios/demo/map.ts:47-58 | The same walk driven by the shared generator object computes that shuffle and is a permutation. |
| KingdomsMap.BuildKingdomsMap | boardgame-framework/packages/game-core/src/scenarios/kingdoms/map.ts:129-144 | The builder loop yields the board of the seed: spiral coordinates with the shuffled terrains. |
| KingdomsMap.EveryBoardHasTheSameMix | boardgame-framework/packages/game-core/src/scenarios/kingdoms/map.ts:51-97 | For every seed: 61 distinct coordinates, exactly the ball of radius 4, with 25 plains, 15 forest, 12 hills and 9 mountain tiles. |
| KingdomsMap.TileContents | boardgame-framework/packages/game-core/src/scenarios/kingdoms/map.ts:103-144 | Every tile carries its own coordinate, its terrain's resource, and the economic value 5 less its distance from the centre, at least 1. |
| KingdomsMap.EveryBoardYieldsTheSame | boardgame-framework/packages/game-core/src/scenarios/kingdoms/map.ts:103-144 | For every seed 25 tiles yield food, 15 wood and 21 iron, and 25, 27 and 9 tiles count one, two and three in combat. |
| KingdomsMap.HomesAreApart | boardgame-framework/packages/game-core/src/scenarios/kingdoms/map.ts:146-159 | Two or three players start eight steps from each other; of four everybody has two others eight steps away and one four. |
| Connectivity.GetConnectedTiles | boardgame-framework/packages/game-core/src/utils/connectivity.ts:31-71 | The search terminates on every map and returns exactly the connected set, each tile once. |
| Connectivity.ConnectedIsLeastArea | boardgame-framework/packages/game-core/src/utils/connectivity.ts:31-71 | The connected set contains the capital, is closed under supply steps, lies inside every set with these properties, and holds owned tiles only, so no bridged tile. |
| Connectivity.ConnectedIffSupplyLine | boardgame-framework/packages/game-core/src/utils/connectivity.ts:42-68 | A tile is connected exactly when a chain of adjacent or gate-bridged steps runs to it from the owned capital. |
| Connectivity.ConnectedIsMonotone | boardgame-framework/packages/game-core/src/utils/connectivity.ts:53-66 | Enlarging the owned set or the gate set never disconnects a tile, although gates bridge only unowned tiles. |
| Combat.PickRandom | boardgame-framework/packages/game-core/src/rules/combat.ts:96-111 | The swap loop on a copy returns the partial Fisher-Yates selection, with and without a generator. |
| Combat.PickIsDrawWithoutReplacement | boardgame-framework/packages/game-core/src/rules/combat.ts:96-111 | For every generator state the selection has the requested size, capped by what there is, and is a sub-bag of the items. |
| Combat.PickFollowsWords | boardgame-framework/packages/game-core/src/rules/combat.ts:96-111 | A selection is the front of the swap walk whose k-th draw scales the generator's (k+1)-th word to the positions not yet settled, one step of the generator for each item; nothing is drawn when all or none are asked for. |
| Combat.EverySelectionIsReached | boardgame-framework/packages/game-core/src/rules/combat.ts:96-111 | Every selection of every size, in every order, is drawn by some draws in these ranges. |
| Combat.AnotherStructure | boardgame-framework/packages/game-core/src/rules/combat.ts:119-125 | One more structure multiplies the defender's strength by its multiplier. |
| Combat.StructuresInAnyOrder | boardgame-framework/packages/game-core/src/rules/combat.ts:119-125 | The order of the structures does not matter. |
| Combat.Resolve | boardgame-framework/packages/game-core/src/rules/combat.ts:139-190 | The battle routine returns the result and leaves the generator state that the exact-arithmetic description gives. |
| Combat.BattleOutcome | boardgame-framework/packages/game-core/src/rules/combat.ts:139-190 | The attack is won iff nobody defends or the attackers are strictly stronger; an undefended tile costs nothing; the loser dies whole; the winner's losses number what the casualty formula gives, strictly less than half of a winning attacker and at most two fifths of a winning defender, drawn from its own side. |
| Combat.CasualtiesAreTheFloor | boardgame-framework/packages/game-core/src/rules/combat.ts:166-181 | The casualty count found on squares is the floor of size × share × weaker / stronger. |
| Combat.OutcomeAgreesWithRoots | boardgame-framework/packages/game-core/src/rules/combat.ts:113-190 | With the square roots of the two sizes at hand, the winner returned is the one of the unsquared formulas, and the number of losses returned the floor of size × share × weaker / stronger in them. |
| Combat.SurvivorMeansDefendersDied | boardgame-framework/packages/game-core/src/rules/combat.ts:162-175 | If any attacker is left, the attack was won and every defender died. |
| Rounds.ClockwiseIsSeatSuccessor | boardgame-framework/packages/game-core/src/rounds/turn-order.ts:27-37 | The turn goes to the active player on the next higher seat, and wraps to the lowest active seat exactly when no higher one is active. |
| Rounds.ClockwiseNamesActivePlayer | boardgame-framework/packages/game-core/src/rounds/turn-order.ts:27-37 | The order throws iff nobody is active, and otherwise names an active player, even for an eliminated current player. |
| Rounds.RoundManager.End | boardgame-framework/packages/game-core/src/rounds/round-manager.ts:62-78 | Ending a turn leaves the described turn, with the flags reset, and round and reports the wrap; nothing changes when the order throws. |
| Rounds.RoundManager.SetPhase | boardgame-framework/packages/game-core/src/rounds/round-manager.ts:41-48 | Changes the phase exactly when the current one allows it, else throws and changes nothing. |
| Rounds.StepOfTurn | boardgame-framework/packages/game-core/src/rounds/round-manager.ts:62-78 | With eliminations of others in between, either the seat rises and the round stays, or the turn wraps to the lowest active seat and the round rises by one. |
| Rounds.SeatsRise | boardgame-framework/packages/game-core/src/rounds/round-manager.ts:62-78 | Within a round of any run, later turns have strictly higher seats. |
| Rounds.EverybodyPlaysOncePerRound | boardgame-framework/packages/game-core/src/rounds/round-manager.ts:62-78 | In a whole round of any run everybody still in at its end had exactly one turn in it. |
| Rounds.PlayerManager.Eliminate | boardgame-framework/packages/game-core/src/players/player-manager.ts:55-60 | Marks the named player in place, or throws for an unknown id and changes nothing. |
| Rounds.EliminateMarksOne | boardgame-framework/packages/game-core/src/players/player-manager.ts:47-60 | Elimination keeps ids and seats, adds exactly the named player to the eliminated, and is permanent. |
| Rounds.SnakeTurnOrder.Next | boardgame-framework/packages/game-core/src/rounds/turn-order.ts:48-62 | The stateful step flips the direction at the ends; whatever eliminations happened before, it names an active player or throws iff there is none. |
| Rounds.SnakeWalkClosedForm | boardgame-framework/packages/game-core/src/rounds/turn-order.ts:41-63 | Driven by its own output over n fixed players the order has period 2n: forward, then back, ends doubled. |
| Rounds.Seated | boardgame-framework/packages/game-core/src/players/player-manager.ts:17-25 | The seated roster has the same players, all active, and the player on the lowest seat holds the first turn. |
| Inventory.Inventory.Add | boardgame-framework/packages/game-core/src/resources/inventory.ts:14-17 | Adds to one count and the total, or throws on a negative quantity and changes nothing; no count becomes negative. |
| Inventory.Inventory.Remove | boardgame-framework/packages/game-core/src/resources/inventory.ts:19-24 | Takes from one count and the total exactly when that much is there, else throws and changes nothing. |
| Inventory.Inventory.Total | boardgame-framework/packages/game-core/src/resources/inventory.ts:31-35 | The loop returns the sum of all counts. |
| Inventory.TotalAfterSet | boardgame-framework/packages/game-core/src/resources/inventory.ts:14-35 | Changing one count, listed or new, changes the total by the difference. |
| KingdomsState.NobleGold | boardgame-framework/packages/game-core/src/scenarios/kingdoms/actions/recruit.ts:31-37 | The smallest whole amount covering 8 · 1.7^(n-1), computed without fractions. |
| KingdomsEffects.NoblesGetDearer | boardgame-framework/packages/game-core/src/scenarios/kingdoms/actions/recruit.ts:26-37 | Every further Noble costs at least five gold more than the one before. |
| KingdomsState.StructureQueryIsExact | boardgame-framework/packages/game-core/src/scenarios/kingdoms/actions/helpers.ts:88-100 | The first-match query finds nothing exactly when no structure of the wanted kinds stands on the tile. |
| KingdomsState.EliminationShrinksActive | boardgame-framework/packages/game-core/src/players/player-manager.ts:55-60 | Eliminating a player takes exactly that id out of the active ids and none out of the roster. |
| KingdomsEconomy.CalculateTileIncome | boardgame-framework/packages/game-core/src/scenarios/kingdoms/economy.ts:85-113 | The multiplier loop computes the described tile income. |
| KingdomsEconomy.TileIncomeIsPositive | boardgame-framework/packages/game-core/src/scenarios/kingdoms/economy.ts:85-113 | Gold is at least the economic value; a resource tile yields two, three with a farm; a barren tile yields none. |
| KingdomsEconomy.BuildStructureMap | boardgame-framework/packages/game-core/src/scenarios/kingdoms/income.ts:49-61 | The map built in one pass holds, for every tile, exactly the unmortgaged structure kinds on it. |
| KingdomsEconomy.FindGates | boardgame-framework/packages/game-core/src/scenarios/kingdoms/connectivity.ts:50-58 | The loop collects exactly the tiles carrying a gate of the player. |
| KingdomsEconomy.PlayerConnectedTiles | boardgame-framework/packages/game-core/src/scenarios/kingdoms/connectivity.ts:66-79 | Capital lookup, owned tiles, gates and search together give the connected set. |
| KingdomsEconomy.ComputeIncome | boardgame-framework/packages/game-core/src/scenarios/kingdoms/income.ts:85-120 | The loop over the search result adds up exactly what the supplied tiles yield, whatever order the search found them in. |
| KingdomsEconomy.ComputeFoodCost | boardgame-framework/packages/game-core/src/scenarios/kingdoms/income.ts:137-153 | Unit and structure upkeep collected apart add up to the total upkeep. |
| KingdomsEconomy.UpkeepByKinds | boardgame-framework/packages/game-core/src/scenarios/kingdoms/income.ts:137-153 | A player's upkeep is one food for each of its own spearmen and nobles and two for each of its own cannoneers and cities, mortgaged pieces excepted. |
| KingdomsEconomy.LossesSaveUpkeep | boardgame-framework/packages/game-core/src/scenarios/kingdoms/income.ts:137-153 | Losing any pieces saves their owners exactly what those pieces ate, and nobody else anything. |
| KingdomsEconomy.IncomeInAnyOrder | boardgame-framework/packages/game-core/src/scenarios/kingdoms/income.ts:96-117 | Listing the supplied tiles in any order, with tiles off the map or not, gives the same income. |
| KingdomsEconomy.ExchangeConserves | boardgame-framework/packages/game-core/src/scenarios/kingdoms/resources.ts:61-84 | The exchange preserves 3·food + gold, never overdraws, and stops only when the deficit is met or gold is below 3. |
| KingdomsEconomy.CycleIsSolvent | boardgame-framework/packages/game-core/src/scenarios/kingdoms/economy-loop.ts:103-162 | A cycle keeps all resources non-negative; covered upkeep is paid; otherwise the bought food stays in the larder, as the code and not its prose has it. |
| KingdomsEconomy.OldestCityIsOldest | boardgame-framework/packages/game-core/src/scenarios/kingdoms/economy-loop.ts:69-83 | The search finds a city iff the player has one that is not mortgaged, and of those the first listed among the ones with the lowest number. |
| KingdomsEconomy.DebtMortgages | boardgame-framework/packages/game-core/src/scenarios/kingdoms/economy-loop.ts:149-161 | A cycle mortgages that city exactly if it ends in debt, and touches nothing but the player's stock besides. |
| KingdomsEconomy.RoundEndIsSimultaneous | boardgame-framework/packages/game-core/src/scenarios/kingdoms/economy-loop.ts:174-181 | Running the players one after the other equals running all of them from the same state. |
| KingdomsEconomy.RoundEndIsOrderFree | boardgame-framework/packages/game-core/src/scenarios/kingdoms/economy-loop.ts:174-181 | The round end leaves the same state for every permutation of the players, and mortgages nothing. |
| KingdomsEconomy.IncomeIsMonotone | boardgame-framework/packages/game-core/src/scenarios/kingdoms/income.ts:85-120 | Between any two situations on the same board and with the same capitals: if a player's territory, its gates and the yields only grow, neither its gold nor any of its three resource incomes falls. |
| KingdomsEconomy.TerritoryPays | boardgame-framework/packages/game-core/src/scenarios/kingdoms/income.ts:85-120 | Giving a player more territory, nothing else changed, lowers none of its four incomes, although gates bridge unowned tiles only. |
| KingdomsEconomy.PreviewsAddUpToPayout | boardgame-framework/packages/game-core/src/scenarios/kingdoms/view-builder.ts:191-220 | The tile previews of a player sum to the gold paid, and per resource to the amount paid less two per developed connected tile. |
| KingdomsEconomy.BuildTilePreviews | boardgame-framework/packages/game-core/src/scenarios/kingdoms/view-builder.ts:172-220 | One supply search per player in the game and one pass over the tiles produce exactly the described previews. |
| KingdomsEffects.PreviewsHoldInPlay | boardgame-framework/packages/game-core/src/scenarios/kingdoms/view-builder.ts:223-231 | In every state satisfying the invariant, for every player still in, the previews add up to the payout. |
| KingdomsEffects.DemolishUndoesBuild | boardgame-framework/packages/game-core/src/scenarios/kingdoms/actions/build.ts:51-107 | Demolishing what was just built is allowed and restores the state, except for the id used up and the unrefunded half of the cost. |
| KingdomsEffects.MoveBackLater | boardgame-framework/packages/game-core/src/scenarios/kingdoms/actions/move.ts:20-64 | A second move in the turn is refused. After turns have only been ended, in a later turn the way back is open exactly when the tile the unit came from was in supply, and taking it restores the piece table. |
| KingdomsEffects.RecruitAddsOne | boardgame-framework/packages/game-core/src/scenarios/kingdoms/actions/recruit.ts:80-95 | One more unit of that kind on that tile under an unused id, for the listed price (the least gold covering 8 · 1.7^(n-1) for a Noble), its keep due from now on, and nothing else changed for anybody; reported as such. |
| KingdomsEffects.BuildAddsOne | boardgame-framework/packages/game-core/src/scenarios/kingdoms/actions/build.ts:51-63 | Building likewise. |
| KingdomsEffects.MoveMovesOne | boardgame-framework/packages/game-core/src/scenarios/kingdoms/actions/move.ts:51-64 | A move takes one unit to another tile and notes that it has moved; nothing else changes. |
| KingdomsEffects.DemolishRemovesOne | boardgame-framework/packages/game-core/src/scenarios/kingdoms/actions/build.ts:90-107 | The structure goes, half of each part of its price comes back rounded down, its keep is saved, and nothing else changes. |
| KingdomsEffects.DevelopMarksTile | boardgame-framework/packages/game-core/src/scenarios/kingdoms/actions/develop.ts:85-108 | Eight gold less, one tile more developed, and the event names the tile's resource or the one its terrain unlocks. |
| KingdomsEffects.DevelopmentPays | boardgame-framework/packages/game-core/src/scenarios/kingdoms/actions/develop.ts:85-108 | Developing a supplied tile adds exactly two of its resource to the owner's income. |
| KingdomsEffects.StructurePays | boardgame-framework/packages/game-core/src/scenarios/kingdoms/actions/build.ts:51-63 | A farm adds one of the tile's resource to the income, a city the tile's economic value in gold, a castle nothing. |
| KingdomsEffects.GatePays | boardgame-framework/packages/game-core/src/scenarios/kingdoms/actions/build.ts:51-63 | After an accepted gate, which may connect further tiles, none of its owner's four incomes is lower than before. |
| KingdomsInvariant.InvariantReadings | boardgame-framework/packages/game-core/src/scenarios/kingdoms/actions/attack.ts:142-174 | What the invariant says: eliminated players have no tile and no piece; unowned tiles are empty; every piece stands on its owner's tile; at most one structure a tile; each player still in has exactly its own capital base on its own capital tile. |
| KingdomsInvariant.GuardPassed | boardgame-framework/packages/game-core/src/scenarios/kingdoms/actions/helpers.ts:140-150 | In every such state the guard passes exactly the holder of the turn, who has an inventory and is in the game. |
| KingdomsInvariant.RecruitKeepsInv | boardgame-framework/packages/game-core/src/scenarios/kingdoms/actions/recruit.ts:39-95 | An accepted recruit succeeds and keeps the invariant, unit limits included. |
| KingdomsInvariant.MoveKeepsInv | boardgame-framework/packages/game-core/src/scenarios/kingdoms/actions/move.ts:20-64 | An accepted move succeeds and keeps the invariant. |
| KingdomsInvariant.BuildKeepsInv | boardgame-framework/packages/game-core/src/scenarios/kingdoms/actions/build.ts:22-63 | An accepted build succeeds and keeps the invariant. |
| KingdomsInvariant.DemolishKeepsInv | boardgame-framework/packages/game-core/src/scenarios/kingdoms/actions/build.ts:69-107 | An accepted demolition succeeds and keeps the invariant. |
| KingdomsInvariant.DevelopKeepsInv | boardgame-framework/packages/game-core/src/scenarios/kingdoms/actions/develop.ts:51-108 | An accepted development succeeds and keeps the invariant. |
| KingdomsConquest.BattleKillsUnits | boardgame-framework/packages/game-core/src/scenarios/kingdoms/actions/attack.ts:108-121 | Whatever the draws, only units that took part die, and if any attacker is left every defending unit on the tile died. |
| KingdomsConquest.ReportCountsTheDead | boardgame-framework/packages/game-core/src/scenarios/kingdoms/actions/attack.ts:78-121 | The casualties reported number the pieces removed exactly when the attacker's losses name no unit twice: always without repeated ids in the selection, and only then when the attack is lost. |
| KingdomsBattle.ForceIsSelection | boardgame-framework/packages/game-core/src/scenarios/kingdoms/actions/attack.ts:82-88 | Exactly the selected units fight, repeated ids counted each time, or all units standing on the tile without a selection. |
| KingdomsBattle.BattleByKinds | boardgame-framework/packages/game-core/src/scenarios/kingdoms/actions/attack.ts:82-109 | Winner, strengths and toll by what stands on the two tiles: three for a spearman, eight for a cannoneer, one for a noble, the terrain, and doubled defence with a capital base or castle. |
| KingdomsBattle.BattleOnTheTable | boardgame-framework/packages/game-core/src/scenarios/kingdoms/actions/attack.ts:117-137 | The report of every accepted attack, field by field, in these terms: the attacker wins iff nobody stands there or (Σa)²·nA > (Σd)²·nD·shelter², the casualties are the exact toll, and the generator moves on by one step for each casualty drawn. |
| KingdomsBattle.WhoIsLeft | boardgame-framework/packages/game-core/src/scenarios/kingdoms/actions/attack.ts:111-121 | Every unit that stood there is gone after a won attack, every unit sent after a lost one, and nobody else but all of an enemy whose capital has fallen. |
| KingdomsBattle.OccupationOnTheTable | boardgame-framework/packages/game-core/src/scenarios/kingdoms/actions/attack.ts:139-186 | The tile's loyalty or owner changes exactly if a Noble that took part is still on the table: down by 45, or, where no more is left, captured with full loyalty; a fallen capital eliminates its owner and frees its other tiles; nothing else changes hands; the events say so. |
| KingdomsBattle.PiecesAfterAttack | boardgame-framework/packages/game-core/src/scenarios/kingdoms/actions/attack.ts:139-188 | Whatever is left stands as it was, except that the structure on a captured tile goes to the captor; of a player whose capital falls nothing is left; all other parts of the state stay. |
| KingdomsConquest.TakeTileKeepsInv | boardgame-framework/packages/game-core/src/scenarios/kingdoms/actions/attack.ts:148-182 | Taking an ordinary tile, with or without a structure handed over, keeps the invariant. |
| KingdomsConquest.TakeCapitalKeepsInv | boardgame-framework/packages/game-core/src/scenarios/kingdoms/actions/attack.ts:155-174 | Taking a capital, with elimination, deletion of pieces and neutralised tiles, keeps the invariant. |
| KingdomsConquest.AttackKeepsInv | boardgame-framework/packages/game-core/src/scenarios/kingdoms/actions/attack.ts:29-189 | An accepted attack, also one with repeated unit ids, succeeds and keeps the invariant. |
| KingdomsRun.FinishKeepsInv | boardgame-framework/packages/game-core/src/scenarios/kingdoms/actions/end-turn.ts:20-55 | Ending the turn succeeds in every such state and keeps the invariant. |
| KingdomsRun.RoundEndSettles | boardgame-framework/packages/game-core/src/scenarios/kingdoms/economy-loop.ts:174-198 | The round end changes nothing but the stocks of the active players, each by its own cycle. |
| KingdomsRun.AcceptedActionKeepsInv | boardgame-framework/packages/game-core/src/game.ts:52-57 | Any action its validator accepts runs through without an exception and keeps the invariant. |
| KingdomsRun.SetupIsOk | boardgame-framework/packages/game-core/src/scenarios/kingdoms/scenario.ts:86-137 | Setup of 2 to 4 players establishes the invariant and gives everybody the starting stock and the pieces at home. |
| KingdomsRun.SetupPlacesPieces | boardgame-framework/packages/game-core/src/scenarios/kingdoms/scenario.ts:86-137 | After setup every player has a capital base, two spearmen, a noble and 10 wood, 8 food, 6 iron, 30 gold on its corner, there is no other piece, ids are issued from 101 on, and all trackers are empty. |
| KingdomsRun.EveryReachableStateIsOk | boardgame-framework/packages/game-core/src/scenarios/kingdoms/scenario.ts:86-137 | For every seed, every seating and every sequence of commands: no executor throws and the invariant holds. |
| KingdomsRun.RunsGoOnward | boardgame-framework/packages/game-core/src/scenarios/kingdoms/actions/helpers.ts:63-67 | Over any run nobody comes back from elimination and no piece id is ever reused. |
| KingdomsRun.GameGoesOn | boardgame-framework/packages/game-core/src/scenarios/kingdoms/actions/helpers.ts:140-150 | In every such state the turn holder is in the game, may end the turn, and ending it succeeds. |
| KingdomsRun.OneAttackPerTurn | boardgame-framework/packages/game-core/src/scenarios/kingdoms/actions/attack.ts:47-48 | Over any run of commands within a turn at most one attack is accepted. |
| KingdomsRun.VictoryIsLastSurvivor | boardgame-framework/packages/game-core/src/scenarios/kingdoms/victory.ts:8-29 | The victory condition fires exactly when one player is left, names that player, and is never a draw. |
| KingdomsTurns.RunIsTurnRun | boardgame-framework/packages/game-core/src/rounds/round-manager.ts:62-78 | The turns of any Kingdoms run, captures and eliminations included, form a run of the scheduler. |
| KingdomsTurns.EveryGameIsFair | boardgame-framework/packages/game-core/src/rounds/turn-order.ts:27-37 | In every Kingdoms game everybody still in at the end of a round had exactly one turn in it. |
| KingdomsTurns.FinishOpensTurn | boardgame-framework/packages/game-core/src/scenarios/kingdoms/actions/end-turn.ts:24-33 | Ending a turn hands it over untouched: no unit counts as moved, no attack as made, the flags are empty, the number is the next. |
| KingdomsTurns.FreshTurnRefusesNothing | boardgame-framework/packages/game-core/src/scenarios/kingdoms/actions/end-turn.ts:24-33 | In a turn so begun no move is refused for having been made, and no attack for being a second one. |
| KingdomsTurns.TurnsAreNumbered | boardgame-framework/packages/game-core/src/rounds/round-manager.ts:62-78 | Over any run the turn number rises by one for each turn ended. |
| KingdomsLedger.TileBrings | boardgame-framework/packages/game-core/src/scenarios/kingdoms/economy.ts:85-113 | A tile brings its economic value in gold, twice with a city, one more with a capital base; two of its resource, three with a farm; two more of what it was developed for. |
| KingdomsLedger.EventsAccountForStocks | boardgame-framework/packages/game-core/src/scenarios/kingdoms/economy-loop.ts:103-162 | After any turn is ended every player's stock is its stock before plus what the events book for it: income in, food eaten, food bought, gold paid. |
| KingdomsLedger.RoundEndReports | boardgame-framework/packages/game-core/src/scenarios/kingdoms/economy-loop.ts:174-198 | The events of a turn's end tell the truth and leave nothing out: new holder and round, the income of everybody still in, everybody's upkeep by its own pieces, food at three gold, all tiles cut off from supply, and no mortgage. |
| KingdomsLedger.MortgageIsReported | boardgame-framework/packages/game-core/src/scenarios/kingdoms/economy-loop.ts:149-161 | A cycle reports a mortgage exactly when it makes one. |
| KingdomsVerdicts.RecruitVerdict | boardgame-framework/packages/game-core/src/scenarios/kingdoms/actions/recruit.ts:39-78 | The verdict in table terms, errors in order: unit kind, own tile, on a line of supply from the own capital, capital base or city there, fewer than 20, 8 or 10, the price in stock, food in stock. |
| KingdomsVerdicts.MoveVerdict | boardgame-framework/packages/game-core/src/scenarios/kingdoms/actions/move.ts:20-49 | Own piece, a unit, not moved in the turn, another tile, own, on a supply line. |
| KingdomsVerdicts.AttackVerdict | boardgame-framework/packages/game-core/src/scenarios/kingdoms/actions/attack.ts:29-74 | Own tile on a supply line, target not own and adjacent on the board, a unit there, first attack of the turn, a fitting selection, and against an enemy somebody other than a Noble. |
| KingdomsVerdicts.BuildVerdict | boardgame-framework/packages/game-core/src/scenarios/kingdoms/actions/build.ts:22-49 | Farm, city, castle or gate, own tile on a supply line without a structure, at most five, three and three, price in stock. |
| KingdomsVerdicts.DemolishVerdict | boardgame-framework/packages/game-core/src/scenarios/kingdoms/actions/build.ts:69-88 | Own tile with a structure that is no capital base. |
| KingdomsVerdicts.DevelopVerdict | boardgame-framework/packages/game-core/src/scenarios/kingdoms/actions/develop.ts:51-83 | Own tile on a supply line, not developed yet, eight gold. |
| KingdomsVerdicts.TurnVerdict | boardgame-framework/packages/game-core/src/scenarios/kingdoms/actions/helpers.ts:140-150 | Without a player, or with an empty id, nobody; out of turn nobody else; and the holder may always end its turn. |
| KingdomsLoyalty.CommandFollowsHappenings | boardgame-framework/packages/game-core/src/scenarios/kingdoms/actions/attack.ts:142-184 | A command moves a tile's loyalty exactly by its happenings, an attack after which a Noble that took part is still on the table or a round end, and gives it a new owner exactly when they capture it. |
| KingdomsLoyalty.RunFollowsHistory | boardgame-framework/packages/game-core/src/scenarios/kingdoms/actions/end-turn.ts:39-50 | Over any run, loyalty and the number of conquests of a tile are the fold of its happenings. |
| KingdomsLoyalty.FewerThanThreeNeverCapture | boardgame-framework/packages/game-core/src/scenarios/kingdoms/actions/attack.ts:23-25 | From full loyalty two occupations never capture, however spaced. |
| KingdomsLoyalty.ThreeAtOnceCapture | boardgame-framework/packages/game-core/src/scenarios/kingdoms/actions/attack.ts:142-150 | Three is sharp: three occupations within a round capture. |
| KingdomsLoyalty.SpacedNeverCaptures | boardgame-framework/packages/game-core/src/scenarios/kingdoms/actions/end-turn.ts:39-50 | Five or more round ends between occupations: never captured. |
| KingdomsLoyalty.PressureCapturesWithinTwelve | boardgame-framework/packages/game-core/src/scenarios/kingdoms/actions/attack.ts:142-150 | At most four round ends between occupations: captured by the twelfth. |
| KingdomsLoyalty.ElevenMayNotSuffice | boardgame-framework/packages/game-core/src/scenarios/kingdoms/actions/attack.ts:142-150 | Twelve is sharp: with exactly four in between, eleven do not capture. |
| KingdomsLoyalty.ConquestTakesPersistence | boardgame-framework/packages/game-core/src/scenarios/kingdoms/actions/attack.ts:142-184 | The three bounds for every tile over every run of commands. |
| KingdomsTable.FindUnits | boardgame-framework/packages/game-core/src/scenarios/kingdoms/actions/helpers.ts:71-86 | The loop with its three skips returns exactly the matching ids in table order. |
| KingdomsTable.FindStructure | boardgame-framework/packages/game-core/src/scenarios/kingdoms/actions/helpers.ts:88-100 | The loop with early return gives the first matching structure. |
| KingdomsTable.CountPieces | boardgame-framework/packages/game-core/src/scenarios/kingdoms/actions/helpers.ts:102-112 | The loop counts the pieces of a player and kind. |
| KingdomsTable.FindOldestCity | boardgame-framework/packages/game-core/src/scenarios/kingdoms/economy-loop.ts:69-83 | The loop finds the first unmortgaged city with the lowest id number. |
| KingdomsTable.RecoverLoyalty | boardgame-framework/packages/game-core/src/scenarios/kingdoms/actions/end-turn.ts:40-50 | The loop over the entries, deleting or raising each, gives the recovered map. |
| KingdomsTable.CheckRecruit | boardgame-framework/packages/game-core/src/scenarios/kingdoms/actions/recruit.ts:39-78 | The validator run step by step gives the described verdict, errors in order. |
| KingdomsTable.CheckMove | boardgame-framework/packages/game-core/src/scenarios/kingdoms/actions/move.ts:20-49 | Likewise for moves. |
| KingdomsTable.CheckAttack | boardgame-framework/packages/game-core/src/scenarios/kingdoms/actions/attack.ts:29-74 | Likewise for attacks, with the loops over the selected units. |
| KingdomsTable.CheckBuild | boardgame-framework/packages/game-core/src/scenarios/kingdoms/actions/build.ts:22-49 | Likewise for building. |
| KingdomsTable.CheckDevelop | boardgame-framework/packages/game-core/src/scenarios/kingdoms/actions/develop.ts:51-83 | Likewise for developing. |
| KingdomsTable.Table.SetUp | boardgame-framework/packages/game-core/src/scenarios/kingdoms/scenario.ts:86-137 | The loop over the players leaves the described starting state. |
| KingdomsTable.Table.RecruitUnit | boardgame-framework/packages/game-core/src/scenarios/kingdoms/actions/recruit.ts:80-95 | The executor on mutable state draws the new id, pays and places the piece, leaving exactly the described state and event, or throws. |
| KingdomsTable.Table.DemolishStructure | boardgame-framework/packages/game-core/src/scenarios/kingdoms/actions/build.ts:90-107 | Finds the structure by its loop, removes it and credits half its cost; leaves exactly the described state and event. |
| KingdomsTable.Table.AttackTile | boardgame-framework/packages/game-core/src/scenarios/kingdoms/actions/attack.ts:76-189 | Battle on the shared generator, deletions one by one, erosion, capture, elimination and hand-over in place leave exactly the described state and events. |
| KingdomsTable.Table.ExchangeForFood | boardgame-framework/packages/game-core/src/scenarios/kingdoms/resources.ts:77-84 | Buys what is needed and affordable and returns how much. |
| KingdomsTable.Table.ProcessPlayerCycle | boardgame-framework/packages/game-core/src/scenarios/kingdoms/economy-loop.ts:103-162 | The cycle on mutable stocks leaves the described stock, mortgage list and events. |
| KingdomsTable.Table.ProcessRoundEnd | boardgame-framework/packages/game-core/src/scenarios/kingdoms/economy-loop.ts:174-198 | The two loops over the active players leave the described state and events. |
| KingdomsTable.Table.FinishTurn | boardgame-framework/packages/game-core/src/scenarios/kingdoms/actions/end-turn.ts:20-55 | Tracker reset, turn change, round end and recovery in place leave the described state and events. |
| KingdomsTable.Table.Take | boardgame-framework/packages/game-core/src/game.ts:52-57 | Any of the seven actions on mutable state, moves, building and development among them, from every state satisfying the invariant: a rejected command changes nothing, an accepted one leaves the described state and events, and the invariant holds afterwards. |
| FrontierMap.BuildFrontierMap | boardgame-framework/packages/game-core/src/scenarios/demo/map.ts:47-63 | Shuffle and builder loop yield the board of the generator state. |
| FrontierMap.CoordsAreTheSpiral | boardgame-framework/packages/game-core/src/scenarios/demo/map.ts:12-30 | The written-out list equals the ring walk of radius 0 to 3: the ball of radius 3 without repetition. |
| FrontierMap.EveryFrontierBoardHasTheSameMix | boardgame-framework/packages/game-core/src/scenarios/demo/map.ts:37-63 | For every seed 37 tiles: 12 plains, 14 forests, 11 mountains. |
| FrontierMap.HomesAreApart | boardgame-framework/packages/game-core/src/scenarios/demo/scenario.ts:68-79 | Two players start six steps apart; of three the third five from two that are six apart, so no equilateral triangle; of four everybody has two others six steps away and one three. |
| FrontierInvariant.ClaimKeepsInv | boardgame-framework/packages/game-core/src/scenarios/demo/actions.ts:72-131 | An accepted claim succeeds and keeps: one flag per tile, distinct issued offer ids, at most three offers a player, forts on own flags, no negative inventory. |
| FrontierInvariant.FinishKeepsInv | boardgame-framework/packages/game-core/src/scenarios/demo/actions.ts:144-191 | Ending a turn succeeds and keeps the invariant. |
| FrontierInvariant.TradeKeepsInv | boardgame-framework/packages/game-core/src/scenarios/demo/actions.ts:197-232 | An accepted trade succeeds and keeps the invariant. |
| FrontierInvariant.FortifyKeepsInv | boardgame-framework/packages/game-core/src/scenarios/demo/actions.ts:238-275 | An accepted fortification succeeds and keeps the invariant. |
| FrontierInvariant.PostKeepsInv | boardgame-framework/packages/game-core/src/scenarios/demo/actions.ts:288-330 | An accepted post, also one with fractional or missing quantities, succeeds and keeps the invariant. |
| FrontierInvariant.AcceptKeepsInv | boardgame-framework/packages/game-core/src/scenarios/demo/actions.ts:336-379 | An accepted accept succeeds and keeps the invariant. |
| FrontierInvariant.CancelKeepsInv | boardgame-framework/packages/game-core/src/scenarios/demo/actions.ts:386-416 | An accepted cancel succeeds and keeps the invariant. |
| FrontierMarket.MarketConserves | boardgame-framework/packages/game-core/src/scenarios/demo/actions.ts:288-416 | Post, accept and cancel leave the sum of all inventories and all open offers' reserved gives unchanged, for every ware. |
| FrontierMarket.ActionMintsItsEvents | boardgame-framework/packages/game-core/src/scenarios/demo/actions.ts:100-416 | Every accepted action changes the total of each ware by exactly what its events announce. |
| FrontierMarket.CancelUndoesPost | boardgame-framework/packages/game-core/src/scenarios/demo/actions.ts:312-416 | Cancelling an offer just posted restores the state up to the issued id. |
| FrontierMarket.DealSwaps | boardgame-framework/packages/game-core/src/scenarios/demo/actions.ts:312-379 | Posting sets aside what the offer says it gives; accepted, the poster has given what it gives and got what it wants, the accepter the reverse, and everybody else is untouched. |
| FrontierRun.ClaimAwards | boardgame-framework/packages/game-core/src/scenarios/demo/actions.ts:100-131 | A claim pays one, two or three points for its terrain plus 0, 1 or 2 for two dice below 7, below 10 or higher, and the terrain's resource, to the claimant alone, plants its flag and spends the leap; the event says so. |
| FrontierRun.DiceByWord | boardgame-framework/packages/game-core/src/dice/random.ts:45-48 | Each face of either die falls exactly when the generator word lies in that face's sixth of the 32-bit words. |
| FrontierRun.OneClaimPerTurn | boardgame-framework/packages/game-core/src/scenarios/demo/actions.ts:78-81 | Over any run of commands within a turn, leaps included, at most one tile is claimed. |
| FrontierTurns.FinishOpensTurn | boardgame-framework/packages/game-core/src/scenarios/demo/actions.ts:144-151 | Ending a turn hands it over untouched: the new holder may claim exactly the free tiles next to one of its flags. |
| FrontierTurns.SetupIsUntouched | boardgame-framework/packages/game-core/src/scenarios/demo/scenario.ts:108-131 | Setup too leaves an untouched first turn of the first round. |
| FrontierTurns.TradeOpensTheBoard | boardgame-framework/packages/game-core/src/scenarios/demo/actions.ts:197-232 | With no claim made in the turn: after two stone every free tile may be claimed, wherever it lies; after two wood, no leap pending, still only the free ones at distance one from an own flag. |
| FrontierTurns.TurnOpensOneClaim | boardgame-framework/packages/game-core/src/scenarios/demo/actions.ts:72-98 | Over any turn, whatever was traded, posted or fortified in it: a claim is open iff none has been made, the tile is free, and it is next to an own flag or stone was traded for a leap. |
| FrontierTurns.TurnsAreNumbered | boardgame-framework/packages/game-core/src/rounds/round-manager.ts:62-78 | Over any run the turn number rises by one for each turn ended. |
| FrontierVerdicts.ClaimVerdict | boardgame-framework/packages/game-core/src/scenarios/demo/actions.ts:72-98 | The verdict in table terms, errors in order: no claim yet, on the board, free, and, without a leap, a flag of one's own at distance one. |
| FrontierVerdicts.TradeVerdict | boardgame-framework/packages/game-core/src/scenarios/demo/actions.ts:197-214 | Two of the ware, and for stone no leap pending. |
| FrontierVerdicts.FortifyVerdict | boardgame-framework/packages/game-core/src/scenarios/demo/actions.ts:238-258 | Two wood and a stone, on the board, an own flag there, no fort yet. |
| FrontierVerdicts.PostVerdict | boardgame-framework/packages/game-core/src/scenarios/demo/actions.ts:288-310 | No negative quantity, not two zeros given or wanted, no more than there is, at most two offers open before; missing quantities pass. |
| FrontierVerdicts.AcceptVerdict | boardgame-framework/packages/game-core/src/scenarios/demo/actions.ts:336-353 | An open offer of somebody else, asking no more than there is. |
| FrontierVerdicts.CancelVerdict | boardgame-framework/packages/game-core/src/scenarios/demo/actions.ts:386-399 | An open offer of one's own. |
| FrontierVerdicts.TurnVerdict | boardgame-framework/packages/game-core/src/scenarios/demo/actions.ts:136-143 | Without a player, or with an empty id, nobody; out of turn nobody else; and the holder may always end its turn. |
| FrontierRun.RoundEndPays | boardgame-framework/packages/game-core/src/scenarios/demo/actions.ts:153-187 | At a round end everybody gets a point per own fort, a wood per own forest and a stone per own mountain; otherwise nothing. |
| FrontierRun.RaceWinner | boardgame-framework/packages/game-core/src/scenarios/demo/victory.ts:10-25 | The race is won by the first holder in inventory order with eighteen points, and by nobody iff nobody has them. |
| FrontierRun.FullBoardWinner | boardgame-framework/packages/game-core/src/scenarios/demo/victory.ts:31-67 | The second condition fires exactly on a full board; its winner is the only player with the highest score, and there is none on a tie. |
| FrontierRun.VictoryVerdict | boardgame-framework/packages/game-core/src/scenarios/demo/victory.ts:10-67 | Both conditions together: whoever is first in inventory order with eighteen points wins, on a full board too; before that a full board goes to the only player on top, else to nobody. |
| FrontierRun.SetupIsOk | boardgame-framework/packages/game-core/src/scenarios/demo/scenario.ts:108-131 | Setup of 2 to 4 players establishes the invariant; the flags are the home tiles. |
| FrontierRun.SetupPays | boardgame-framework/packages/game-core/src/scenarios/demo/scenario.ts:108-131 | After setup everybody holds its home tile and one, two or three points for its terrain, nothing else; the lowest seat begins. |
| FrontierRun.RunsKeepInv | boardgame-framework/packages/game-core/src/scenarios/demo/actions.ts:72-416 | No run throws, the invariant holds throughout, and every ware is accounted for by the events. |
| FrontierRun.EveryReachableStateIsOk | boardgame-framework/packages/game-core/src/scenarios/demo/scenario.ts:108-131 | The same from setup for every seed, seating and sequence of commands. |
| FrontierClient.ViewShowsTable | boardgame-framework/apps/game-engine/src/engine/engine.service.ts:156-204 | The projection shows the table: every tile with its terrain and the player whose flag stands there, every player with seat, inventory and turn, homes, forts, offers, round and result. |
| FrontierClient.ActionShows | boardgame-framework/apps/web/src/store/game.ts:70-211 | Folding the events of an accepted action over an agreeing view gives the view of the new state, so no clamp at zero ever bites, provided no event lacks a number. |
| FrontierClient.BrowserAgreesWithServer | boardgame-framework/apps/web/src/store/game.ts:70-211 | Snapshot, all events of any run and the end of the game fold to the server projection of the final state in every field except the round, exactly when no event of the run lacks a number; otherwise some count on the screen is no number. |
| FrontierClient.BrowserAgreesIffLegible | boardgame-framework/apps/web/src/store/game.ts:70-211 | From any opening, over any run, for the players in the order passed in: agreement in every field except the round, which stays 1, exactly when no event lacks a number. |
| FrontierClient.SnapshotsAgreeIffSeated | boardgame-framework/apps/game-engine/src/engine/engine.service.ts:123-124 | From any opening, over any run: agreement with what a later snapshot says, which lists the players by seat, exactly when no event lacks a number and the players were passed in by seat. |
| FrontierClient.EveryBrowserAgrees | boardgame-framework/apps/game-engine/src/engine/engine.service.ts:156-204 | Both, with their exact conditions, from setup on every seed. |
| FrontierClient.NamedPostsAreLegible | boardgame-framework/packages/game-core/src/scenarios/demo/actions.ts:312-416 | If every post of a run names all four quantities, no event of the run lacks a number. |
| FrontierClient.HostedGamesAgree | boardgame-framework/apps/game-engine/src/engine/game-runner.service.ts:33-41 | With player i on seat i, as the runner seats them, and posts that name all four quantities, the browser shows after every run what a fresh snapshot would, in every field except the round. |
| FrontierClient.UnsortedPlayersDisagree | boardgame-framework/apps/game-engine/src/engine/engine.service.ts:123-124 | Two players passed in against their seats: the browser and the next snapshot list them differently, on every seed. |
| FrontierClient.EmptyPostGarbles | boardgame-framework/packages/game-core/src/scenarios/demo/actions.ts:288-330 | An offer without a single field is accepted from the holder of the turn, and the browser then disagrees with the server. |
| FrontierTable.CheckClaim | boardgame-framework/packages/game-core/src/scenarios/demo/actions.ts:72-98 | The claim validator with its loops over owned coordinates and directions gives the described verdict. |
| FrontierTable.CheckRace | boardgame-framework/packages/game-core/src/scenarios/demo/victory.ts:10-20 | The loop with early return finds the race winner. |
| FrontierTable.CheckBoardFull | boardgame-framework/packages/game-core/src/scenarios/demo/victory.ts:31-67 | The loop with running winner, top score and tie flag gives the described result. |
| FrontierTable.ProjectView | boardgame-framework/apps/game-engine/src/engine/engine.service.ts:156-204 | The claim map filled piece by piece gives the described view. |
| FrontierTable.Table.SetUp | boardgame-framework/packages/game-core/src/scenarios/demo/scenario.ts:108-131 | The loop over the players leaves the described starting state. |
| FrontierTable.Table.ClaimTile | boardgame-framework/packages/game-core/src/scenarios/demo/actions.ts:100-131 | Two draws, inventory changes, flag and turn flags in place leave exactly the described state and event. |
| FrontierTable.Table.FinishTurn | boardgame-framework/packages/game-core/src/scenarios/demo/actions.ts:144-191 | Fort loop, income record and payout loop leave the described state and events. |
| FrontierTable.Table.Trade | boardgame-framework/packages/game-core/src/scenarios/demo/actions.ts:216-232 | Takes the ware, then pays out, leaving exactly the described state and event. |
| FrontierTable.Table.PostOffer | boardgame-framework/packages/game-core/src/scenarios/demo/actions.ts:312-330 | Reserves the two wares one at a time, only those above zero, and adds the offer under the next id; leaves exactly the described state and event. |
| FrontierTable.Table.AcceptOffer | boardgame-framework/packages/game-core/src/scenarios/demo/actions.ts:355-379 | The payments, made one ware at a time, leave exactly the described state and event. |
| FrontierTable.Table.CancelOffer | boardgame-framework/packages/game-core/src/scenarios/demo/actions.ts:401-416 | The refunds, made one ware at a time, leave exactly the described state and event. |
| FrontierTable.Table.Take | boardgame-framework/packages/game-core/src/game.ts:52-57 | Any of the seven actions on mutable state, fortification among them: a rejected command changes nothing, an accepted one leaves the described state and events, and the invariant holds afterwards. |
| GameCore.GameEventEmitter.Emit | boardgame-framework/packages/game-core/src/events/event-emitter.ts:30-35 | Stamps with the next number, delivers, and counts on. |
| GameCore.ActionHistory.Append | boardgame-framework/packages/game-core/src/actions/action-history.ts:19-28 | Appends an entry numbered one more than the length. |
| GameCore.SinceIsSuffix | boardgame-framework/packages/game-core/src/actions/action-history.ts:34-36 | On a journal numbered in order, asking for what came after a number gives exactly the suffix. |
| GameCore.ResponseTells | boardgame-framework/packages/game-core/src/game.ts:52-73 | A submission is turned down exactly with the validator's error, and an accepted one answers with what goes out. |
| GameCore.Game.Submit | boardgame-framework/packages/game-core/src/game.ts:52-73 | The emit loop, journaling and victory check give exactly the described response and state; a rejected action changes nothing. |
| GameCore.SubmitIsFaithful | boardgame-framework/packages/game-core/src/game.ts:52-73 | An accepted submission keeps the journal faithful. |
| GameCore.SessionIsFaithful | boardgame-framework/packages/game-core/src/game.ts:52-73 | At every point of every session of any scenario: the journal replays to the current state, events are numbered 1, 2, 3, ..., entries likewise, what went out is the journaled events followed by one game-ended iff the game is over; and after the first accepted action it is over iff the victory condition holds. |
| GameCore.SoundSessionsRun | boardgame-framework/packages/game-core/src/game.ts:52-73 | If accepted actions keep a state predicate and never throw, no session crashes, not even at the end-of-game transition. |
| KingdomsEngine.EverySessionIsFaithful | boardgame-framework/packages/game-core/src/game.ts:52-73 | All of this for every Kingdoms session, and an ended one has exactly one player left, announced by the last event. |
| FrontierEngine.EverySessionIsFaithful | boardgame-framework/packages/game-core/src/game.ts:52-73 | All of this for every Frontier session on every board. |
| FrontierEngine.BrowserAgreesInSession | boardgame-framework/apps/web/src/store/game.ts:70-211 | In every session everything heard since the snapshot, the end of the game included, folds to the projection of the current state in every field except the round, exactly when no event heard lacks a number. |

## Left out

- KingdomsEffects.StructurePays: gives the exact change for farms, cities and castles; how much a gate adds depends on what it connects, and `KingdomsEffects.GatePays` states that nothing falls.
- KingdomsEconomy.CycleIsSolvent: assumes no resource is negative at the start, which the invariant guarantees.
- Combat.BattleOutcome: assumes positive attack values and defence multipliers, as the unit, structure and terrain tables have them.
- GameCore.SessionIsFaithful: a session stops when the game ends, because the engine drops the game there; `submit` itself does not check.
- Piece, unit and terrain names outside the tables, and payload fields of the wrong type: names are datatypes, and the quantities of an offer are numbers or missing, never null, strings or infinite. A trade for anything but wood or stone is the one unknown name that is modelled.
- The text of ids: piece ids, offer ids and tile ids are structured values, so the ways in which two different ids could read the same are not modelled, nor is the numeric ordering of integer-like keys in JavaScript objects.
- A player without an inventory: the Frontier validators would raise an exception for one; here such a player counts as having nothing. The invariant excludes it.
- Rounding of fractional quantities: JavaScript numbers are binary floating point, so sums of fractions may differ in the last bit; here they are exact.
- Inventories, the round state and the generator are values inside the two state datatypes. The classes Inventory, RoundManager, PlayerManager and SeededRandom are proved on their own; KingdomsTable and FrontierTable use the last three as objects and keep inventories as maps of records.
- Executors handed to `GameCore.Game` are functions; KingdomsTable and FrontierTable prove that the executors on mutable state compute those functions.
- Listener registration: one listener to all events stands for all of them. Timestamps are dropped.
- Follow-up rules of the rule engine, cards, decks, vertices, edges, registries and the shared resource pool: neither game uses them.
- Hit points of capital bases, display names, colours, reasons as text and the player part of the Kingdoms view: carried along, never read by the rules.
- Events of the round end list disconnected tiles as a set, not in object order.
- Statuses of players before the game: the round manager is built from players that are all active.
- The map builder's pending-property step: tiles get their properties when they are added.
- The lobby, persistence, message bus, sockets, authentication and all user interface code.
- Crash recovery and the engine ownership lock described in the documents: not in the code.
