# Crown Clash battle model

Crown Clash is a game of towers and roads: two sides own towers, towers produce units, and units march
along roads to reinforce or capture. The rules run on a Go server that writes its state in place and,
as a mostly pure twin, in the TypeScript client. This project models both. The server's loops and
objects are methods and classes; the rules they compute are functions of the state before them. Every
method is proved to compute its function, or the property it is there for, and the promises of the game
are proved about the functions, over every input, run or reachable state.

| files | part of the game |
|---|---|
| Text, Sorting, World | texts and their order, stable sorting, towers, armies and the battle state |
| Routes, RouteSearch, RouteText, DispatchRoute | least-cost routes through friendly towers, the route of a dispatch, fog of war |
| March | the leg-by-leg mover and the arrival predictor |
| Combat, BattleRules, Battle | fights, dispatches, abilities, production, the step and its verdict, and the mutable battle |
| OrderLaws, Verdicts, StepLaws | when an order is accepted and what it does; who has won, by the towers held; a step army by army and tower by tower |
| BattleInvariants, Production, ProductionRuns, Roles | where every unit goes, accumulators and recovery, the exchange of sides |
| TacticalRules, TacticalOrders, TacticalBot | the bot's moves and its one ability, and why they are always legal |
| TacticalChoice, AbilityChoice | what the bot decides, said without its loops |
| ReplayRules, ReplayLaws, ActionLaws, Replayer | the replay of a recorded bot battle and the history behind it |
| LaneRules, LaneLaws, LaneSteps, LaneRate, LanePlan, LaneChoice, LaneBattle, LaneEnd, LaneEngine, LaneReplay | lanes that stream single soldiers, their planner and what it decides, engine and replay |
| Canonical, Simulation2v2, SimulationLaws | the canonical action log of a four-player battle and its simulation |
| Draft, MatchSlots, MatchRules, MatchLaws, MatchOrders, MatchOutcomes, MatchRuns, MatchHistory, LiveMatch | the four-player match: draft, seats, messages, forfeit, outcomes, settlement, rematch |
| Battlefields, BattlefieldChecks, Hops | the battlefield validator, its mirror, and hop distances |

Times, progress, distances and accumulators are exact reals; units, counters and costs are integers.
`Board.distance` is an arbitrary non-negative function of two towers, so nothing depends on where
towers are drawn. A function of the rules that only computes has no row below; the method that
computes it in place, or the lemma that says what it means, has one.

A run of a match starts from a created match and is any sequence of joins, leaves, loops with messages
and shutdowns in which the ticks of the loops do not go back. A created match has four different
players in their places, a match id of 1 to 128 characters, a battlefield id, and no tower with an
empty id. "In every run" means this below, and the invariant of a match is `MatchLaws.Good2v2`.

Results that a reader of the code may not expect:

- Breaking ties between routes by their joined text needs a condition on the tower ids. Ids of which
  none is a prefix of another always do, with the separating vertical bar in them or without; ids
  free of the bar do exactly when none goes on with a character below the bar after the end of
  another (`Text.KeepsOrderIff`, `RouteText.LeastTextsIff`). With towers `k` and `k!` the search
  settles a route that is not the least (`RouteText.SearchMisses`).
- A step treats both sides alike except when it leaves both of them without towers and armies
  (`Roles.StepCommutesIff`).
- A lane battle goes on exactly when each side held a tower before the step, time is left, and each
  side has a tower or a soldier in flight after it (`LaneEnd.PlaysOnIff`). So soldiers in flight spare
  a side without towers for one step and no longer (`LaneEnd.FlyingSoldiersSaveNobody`,
  `LaneEnd.LastStand`).
- The mirror of a battlefield is an automorphism of its roads only if road texts tell roads apart; with
  ids that contain `<->` an accepted battlefield can have a road without a mirror image
  (`Battlefields.TwistedRoadUnmirrored`).
- A simulation ends undecided exactly when its rules have capture recovery, rounding its time limit to
  nanoseconds lowers it, and neither side is out (`Simulation2v2.SimulationDecides`).
- The loop that brings the fourth vote decides for good whether there is a rematch: one whose creation
  fails then can never be created (`MatchHistory.FourthVoteCreates`, `MatchRuns.FailedRematchIsFinal`).

## Model

| member | source | states |
|---|---|---|
| Text.ExtendKeepsOrder | apps/server-nakama/tactical.go:98-116 | Over order-safe ids (none is a prefix of another, or all are free of the bar and none goes on with a character below the bar after the end of another) the text order of two routes survives extending both by the same tower, so a tie broken once stays broken |
| Text.KeepsOrderIff | apps/server-nakama/tactical.go:98-116 | Over ids free of the bar the text order of routes survives every extension, for routes to one tower too, exactly when no id goes on with a character below the bar after the end of another |
| RouteText.LeastTextsIff | apps/server-nakama/tactical.go:102-133 | Over four or more ids free of the bar, the search settles a route of least text on every board, for every ownership and source, exactly under that condition |
| RouteText.SearchMisses | apps/server-nakama/tactical.go:102-133 | A board on which it does not: x is settled by way of k although the way by k! and k costs the same and reads less |
| Text.KeyPrefixIsPathPrefix | apps/server-nakama/tactical.go:98 | Over prefix-free ids, the joined text of a route is a prefix of another text only when the route itself is a prefix of the other route |
| Routes.FriendlyPaths | apps/server-nakama/tactical.go:102-133 | The loop over the sorted queue and the `best` map computes the least-cost search through the owner's towers, for any road list, ownership and source, and terminates |
| Routes.PushNeighbors | apps/server-nakama/tactical.go:118-130 | Pushes exactly the unsettled friendly neighbours of the settled tower, each with the route and cost extended by one leg |
| RouteSearch.FriendlyPathsCorrect | apps/server-nakama/tactical.go:102-133 | The search settles exactly the towers reachable by a walk through friendly towers; each gets a simple road path from the source whose cost is its leg sum and no walk is cheaper; among equal costs the path text is least when ids are order-safe |
| RouteSearch.WalkNoBetter | apps/server-nakama/tactical.go:102-133 | No friendly walk to a tower is cheaper than the settled route, nor, over order-safe ids, an equally cheap simple path with a smaller text |
| DispatchRoute.FindDispatchRoute | apps/server-nakama/tactical.go:139-176 | The route chooser: straight pair before v3; from v3 the direct road for an attack on a neighbour, the settled route for a supply, otherwise the best entry over the target's neighbours |
| DispatchRoute.BestEntryInto | apps/server-nakama/tactical.go:155-175 | The loop over the target's neighbours keeps the cheapest entering route, ties by text |
| DispatchRoute.FindRouteCorrect | apps/server-nakama/tactical.go:139-176 | Under v3 and v4 the chooser returns nothing exactly when no legal route exists; otherwise a simple road path from source to target whose inner towers are friendly, the direct road when attacking a neighbour, else a route no legal route beats in cost (or, with order-safe ids, in cost and text) |
| DispatchRoute.ChosenIsShortest | apps/server-nakama/tactical.go:94-176 | No legal route is shorter than the chosen one but for half a thousandth of a unit per leg, which rounding the costs may hide; a direct attack takes its road whatever its length |
| DispatchRoute.ComputeVisible | packages/game-core/src/fog.ts:11-22 | Visible are exactly the own towers and the towers one road away from one |
| DispatchRoute.RouteIsVisible | packages/game-core/src/fog.ts:4-22 | Every stop of every route the chooser returns, the target included, is visible to the owner, as the fog module's comment promises |
| March.AdvanceRoutedArmy | apps/server-nakama/tactical.go:191-207 | The leg-by-leg mover carries left-over time across waypoints and stops at the first tower that is no longer its own, or at the target |
| March.ArmyArrivalSeconds | apps/server-nakama/tactical.go:221-232 | The predictor sums the rest of the current leg and the legs up to the army's destination |
| March.JourneyIs | apps/server-nakama/tactical.go:191-232 | The prediction is the way to the first stop ahead that is not the army's own, or to the last: the rest of the present leg, and for each further leg its distance at 140 a second times the pace, but no less than two seconds |
| March.AdvanceMatchesPrediction | apps/server-nakama/tactical.go:191-232 | With ownership frozen, an army reports arrival after d seconds exactly when d is at least the predicted time, and it arrives at the predicted destination |
| March.AdvanceAdds | apps/server-nakama/tactical.go:191-207 | Moving for d1 and then for d2 is moving for d1 + d2, also across waypoints |
| BattleInvariants.PredictionsAreExact | apps/server-nakama/tactical.go:191-232 | In every state a run of dispatches, abilities and steps reaches under v3 and v4, the predicted arrival of every marching army is exact while no tower changes hands |
| Combat.HostileArrivalCosts | apps/server-nakama/domain.go:702-742 | A hostile arrival that captures leaves between one unit and the attackers minus the defenders; one that fails leaves the owner no more units than before, and exactly the difference at plain unshielded strength |
| Combat.ArrivalExact | apps/server-nakama/domain.go:702-742 | An attack breaks a tower exactly when it exceeds the defenders times their defence, rounded up, and keeps what exceeds it; one that fails leaves the defence that is left, in defenders, rounded up |
| Combat.ReinforcingWaves | apps/server-nakama/domain.go:730-742 | Friendly waves add up without loss |
| Combat.WavesNeverBeatOneArmy | apps/server-nakama/domain.go:702-742 | For any garrison, tower kind, shield and list of same-team waves: if the waves capture, one army of their sum captures with at least as many units left; if neither captures, the single army leaves no more defenders |
| Combat.WaveThenRest | packages/game-core/src/combat.ts:8-94 | One wave followed by one army is never better than both together |
| Battle.Battle.Dispatch | apps/server-nakama/domain.go:748-792 | Checks source, target, ownership, route and units in that order; accepted exactly if an own tower of two units or more sends to another tower along a legal route, and then half of the garrison marches as one new army and is counted; a refused dispatch leaves the battle untouched |
| Battle.Battle.ApplyTeamAbility | apps/server-nakama/abilities.go:40-98 | Accepted exactly once per team after 15 seconds of an undecided v4 battle at an own tower: shield for 8 s, five units, or a charge of doubled strength at 1.5 times the speed; an illegal use leaves the battle untouched |
| OrderLaws.DispatchIff | apps/server-nakama/domain.go:748-792 | A send is accepted exactly when an own tower of two units or more and another tower are named and, under v3 and v4, a legal route exists; nothing but the garrison, the count of the sender and one new army changes, which starts its first leg with half of the garrison on a route no legal route beats |
| OrderLaws.AbilityIff | apps/server-nakama/abilities.go:40-98 | An ability is accepted exactly under v4 rules in an undecided battle of 15 seconds or more, once per team, at an own tower, by a commander whose ability allows the towers named; its whole effect is a shield, five units, or a charge |
| OrderLaws.ShieldHolds | apps/server-nakama/abilities.go:40-66 | A shield put up at one moment doubles the defence of its tower for the eight seconds since, and no longer |
| Battle.Battle.Charge | apps/server-nakama/abilities.go:73-88 | A charge dispatches and then doubles the army just sent, counting the extra units as sent |
| Battle.Battle.TickGeneration | apps/server-nakama/domain.go:806-837 | Production over the fixed tower order with snapped accumulators, written in place, computes the production function |
| Battle.Battle.GenerateAt | apps/server-nakama/domain.go:809-835 | One tower: no production when neutral, idle or full; otherwise whole units up to capacity, the rest stays accumulated |
| Battle.Battle.MarchArmies | apps/server-nakama/domain.go:860-903 | The armies of the step are handled in list order; those still on the road are kept |
| Battle.Battle.ArmyArrives | apps/server-nakama/domain.go:871-897 | An arrival fights or reinforces; a capture counts, starts the production recovery unless one is running, and clears the accumulator |
| Battle.Battle.DecideStatus | apps/server-nakama/domain.go:905-936 | The ruling by the sets of towers held: an enemy without tower and army has lost, else a player without; else, when time is up, more towers win, or equally many with more units in them, and neither is a draw |
| Battle.Battle.StepSimulation | apps/server-nakama/domain.go:839-938 | Clock, armies, production and verdict in that order, in place, army by army and tower by tower as the row StepLaws.StepIs says; a decided battle does not move |
| Verdicts.VerdictIs | apps/server-nakama/domain.go:905-936 | The verdict read off the loop's four counters is the ruling by the sets of towers held, their sizes and the sums of their garrisons, towers before units |
| Verdicts.StepRules | apps/server-nakama/domain.go:839-938 | Every step of an undecided battle keeps its towers listed once each and leaves it with the status the rules give the state it reaches |
| StepLaws.StepIs | apps/server-nakama/domain.go:839-938 | A step of an undecided battle is a history with one state per army: the clock runs on, each army still in need of more time than the step goes on and needs that much less to the same tower, each other one fights or reinforces the tower it is bound for, with its capture counted and the recovery started; then every tower produces by its own rate, kind and recovery, up to capacity; then comes the ruling |
| BattleInvariants.StepKeeps | apps/server-nakama/domain.go:839-938 | A step keeps garrisons non-negative and every army at one unit or more on a legal leg; garrisons plus marching units change by production minus non-negative casualties exactly |
| BattleInvariants.ArriveKeeps | apps/server-nakama/domain.go:730-742 | An arrival loses exactly the casualties of the fight and never a negative number |
| BattleInvariants.DispatchKeeps | apps/server-nakama/domain.go:748-792 | A dispatch keeps the total of garrisons and marching units and leaves at least one unit behind |
| BattleInvariants.AbilityKeeps | apps/server-nakama/abilities.go:40-98 | An ability changes the total by exactly what it grants: nothing, five, or the doubled part of a charge |
| BattleInvariants.RunKeeps | apps/server-nakama/domain.go:730-938 | Over every run of dispatches, abilities and steps the invariant holds and units change only by production, ability grants and non-negative casualties |
| ProductionRuns.RunDrift | apps/server-nakama/domain.go:806-837 | Over any run of steps, sends and abilities in which no army reaches an owned tower and no order is given from it: its garrison only grows, up to capacity, its accumulator stays in [0, 1), and below capacity the units granted plus the change of the accumulator differ from its exact production, recovery included, by at most 1e-9 a step |
| ProductionRuns.RunKeepsBounds | apps/server-nakama/domain.go:806-897 | Over every run every accumulator stays in [0, 1), and under rules with capture recovery no tower ever has more than 3000 ms of recovery ahead |
| Production.StepKeepsInterval | apps/server-nakama/domain.go:806-837 | Every accumulator stays in [0, 1) over every step |
| Production.RecoveryRange | apps/server-nakama/domain.go:648-651 | The recovery multiplier lies in [1/2, 1], is 1 exactly once the recovery is over and 1/2 exactly when 3000 ms or more of it are left |
| Production.StepKeepsRecovery | apps/server-nakama/domain.go:882-889 | No recovery ever ends later than 3000 ms from now, over every step |
| ProductionRuns.CaptureRecovers | apps/server-nakama/domain.go:882-889 | A capture that meets no recovery under way empties the accumulator and halves the rate at once, and the full rate is back exactly three seconds later |
| Production.ProduceIsLocal | packages/game-core/src/generation.ts:29-86 | The in-place loop over the tower order gives every tower the result of its own state before the loop, whatever stands before it in the order |
| BattleInvariants.ProduceTowerBounds | apps/server-nakama/domain.go:811-835 | Production never lowers a garrison and never lifts it above capacity |
| Roles.RoleRoundTrip | apps/server-nakama/live.go:416-472 | Showing a state to a role twice gives the state back |
| Roles.DispatchCommutes | apps/server-nakama/domain.go:748-792 | Dispatching for one side and exchanging the sides is exchanging the sides and dispatching for the other, errors included |
| Roles.StepCommutesIff | apps/server-nakama/domain.go:839-938 | A step commutes with exchanging player and enemy exactly when the step does not leave both sides eliminated |
| Roles.StepCommutes | apps/server-nakama/domain.go:839-938 | On every board with an owned tower the step commutes with the exchange: owned towers never become neutral, so the enemy-first elimination check cannot matter |
| Roles.EmptyBoardFavoursBoth | apps/server-nakama/domain.go:923-926 | On a board without owners or armies the check order does show: both the state and its exchange are a victory for the player |
| TacticalBot.TowerIds | apps/server-nakama/tactical.go:321-325 | Sorting the map's keys gives one list whatever order they come out in |
| TacticalRules.SortedIdsUnique | apps/server-nakama/tactical.go:321-325 | Any two gatherings of the same ids sort to the same list |
| TacticalBot.TacticalIncomingAt | apps/server-nakama/tactical.go:246-260 | The armies bound for a tower, by arrival time and then list position |
| TacticalBot.TacticalForecast | apps/server-nakama/tactical.go:261-274 | The tower after the waves that land within the horizon, production ignored as the source does |
| TacticalChoice.ForecastIs | apps/server-nakama/tactical.go:246-274 | A forecast is the tower after exactly the armies bound for it that land within the time, fighting or reinforcing one after the other in the order of arrival and then of the list |
| TacticalBot.TacticalCandidates | apps/server-nakama/tactical.go:275-316 | The own towers that can send in time without losing themselves, by arrival time and then id |
| TacticalBot.PlanRescue | apps/server-nakama/tactical.go:329-355 | For one tower of its own: no plan unless a wave will take it, and then the shortest list of candidates arriving before the first wave that together hold it; none when no such list does |
| TacticalBot.PlanConquest | apps/server-nakama/tactical.go:359-401 | The senders that conquer a tower together, with the score of the attempt |
| TacticalBot.PlanSupply | apps/server-nakama/tactical.go:434-438 | For one tower: the first of its candidate senders that touches no foreign tower |
| TacticalBot.EvaluateTacticalMoves | apps/server-nakama/tactical.go:317-441 | Nothing in a decided battle; else the shortest rescue of the first tower in id order that can be rescued; only without one the conquest of greatest worth; only without one a supply from the rear to the first frontier tower that wants it; nothing when there is none of these |
| TacticalChoice.TickDecides | apps/server-nakama/tactical.go:317-441 | The planner decides so for every state, said by threats and forecasts alone: a tower is threatened when the forecast at its last hostile arrival loses it, rescued by the shortest list of first senders that all arrive before the first hostile army and turn that forecast, conquered by the fewest first senders that take it, and no other conquest is worth more |
| TacticalChoice.SendersAre | apps/server-nakama/tactical.go:275-316 | The senders to a tower are each tower that can send, once, with half of its garrison, by arrival and then id; a tower can send exactly if it is another own one of four units or more with a route, and the half that stays holds it through the last hostile arrival |
| TacticalChoice.PlansWhatItSends | apps/server-nakama/tactical.go:275-316 | The bot plans with the army its dispatch will send: under v3 and v4 a sender is a dispatch that succeeds, and its army is the very one that marches then |
| TacticalBot.ThreatenedTowers | apps/server-nakama/bot_abilities.go:21-49 | The own towers a hostile wave would take, soonest first |
| TacticalBot.ChooseBotAbility | apps/server-nakama/bot_abilities.go:54-119 | A vanguard charges with the first move; a crown guard shields the strongest tower that a shield saves; a quartermaster feeds the tower five units save that is reached first, or else the source of the first move; nothing unless the ability is ready |
| AbilityChoice.ChoiceIs | apps/server-nakama/bot_abilities.go:54-119 | The choice is so for every state and list of moves, by the forecast of each threatened tower with and without the help; there is none exactly when no tower can be helped so |
| TacticalOrders.OrdersSucceed | apps/server-nakama/tactical.go:275-441 | Moves from distinct own towers with units and routes all dispatch when executed in order |
| TacticalOrders.TacticalMovesOk | apps/server-nakama/tactical.go:317-441 | Every plan of the tactical bot is such a list: distinct sources of its own with two units or more and a route to the target |
| TacticalOrders.ChoiceAccepted | apps/server-nakama/bot_abilities.go:54-119 | Every ability choice is accepted, and the moves chosen with it still dispatch in order afterwards |
| Replayer.ValidateActions | apps/server-nakama/domain.go:1050-1065 | Reports the first structural violation in the order the source checks |
| ReplayLaws.AcceptedIffWellFormed | apps/server-nakama/domain.go:1050-1065 | A record passes exactly when it has at most 120 actions, numbered in order, of known kinds, at non-decreasing times within 90 seconds |
| Replayer.EvaluateAIMove | apps/server-nakama/domain.go:949-1012 | The loops over sources and targets compute the choice of the v2 bot |
| ReplayLaws.AiMoveIsBest | apps/server-nakama/domain.go:949-1012 | That choice is a send from an own tower of eight units or more to another tower at the greatest score over all such pairs, the first in tower order among equals; there is none exactly when no pair scores more than 1e-9. The score is said by the fight the send would win or lose |
| Replayer.Replayer.AdvanceTo | apps/server-nakama/domain.go:1085-1094 | Steps on the fixed 20 ms grid up to the tick of a time, while the battle is undecided |
| Replayer.Replayer.ExecuteAI | apps/server-nakama/domain.go:1109-1134 | One bot turn: the ability before the dispatches, each refused dispatch skipped |
| Replayer.Replayer.ApplyAction | apps/server-nakama/domain.go:1148-1158 | Answers whether the action counts; one that does takes its effect, any other leaves the battle untouched |
| ActionLaws.EffectIff | apps/server-nakama/domain.go:1148-1158 | A send counts exactly when the player can make it and then half of the garrison marches, its ability still unused; an ability action counts exactly when the player can use it, and then it is spent |
| ActionLaws.ReplayHistory | apps/server-nakama/domain.go:1135-1159 | Every replay of a record is a history of states, one per action: the battle brought forward to its time, and then the effect of an action that counts or no change; the count is the number of actions that count in it |
| ActionLaws.BotTurnIs | apps/server-nakama/domain.go:1109-1134 | A bot turn of an undecided battle: the moves are what the tick decides, the ability is chosen well for them and has its effect first, and the moves left are then all sent, every one accepted; under v2 it sends its one best move |
| ReplayLaws.PlansOnTime | apps/server-nakama/domain.go:1135-1161 | While the battle is live, the bot has planned at every multiple of its period up to the time reached: 3.6, 1.8 or 0.9 seconds |
| Replayer.Replayer.PlayActions | apps/server-nakama/domain.go:1135-1159 | Planning ticks due before an action come first; the states run through a history in which each action either counts and takes its effect or changes nothing, and the result is the number of those that count |
| Replayer.SimulateBotBattle | apps/server-nakama/domain.go:1041-1177 | The replay reports the first violation, or has such a history from the opening to a decided status |
| ReplayLaws.BotNeverAborts | packages/game-core/src/pvp.ts:267-284 | The client, which does not catch an illegal bot order, never meets one: its bot turn equals the server's |
| ReplayLaws.StrictReplayAgrees | packages/game-core/src/pvp.ts:224-330 | The client's replay is total and ends in the server's final state |
| ReplayLaws.ReplayDecides | apps/server-nakama/domain.go:1085-1171 | Under rules v2 to v4 every replay ends with a decided status: the final draw is never needed |
| ReplayLaws.StepToTwice | apps/server-nakama/domain.go:1085-1094 | Stepping to t1 and then to t2 is stepping to t2 |
| ReplayLaws.ReachTwice | apps/server-nakama/domain.go:1135-1147 | Bringing the battle with its bot forward in two goes is the same as in one |
| ReplayLaws.ReachShows | apps/server-nakama/domain.go:1085-1147 | A live replay brought forward to a time shows that time, less than one 20 ms step behind it and not ahead |
| ReplayLaws.PrunedReplaySame | apps/server-nakama/domain.go:1135-1159 | Deleting every skipped action and renumbering the rest gives a well-formed record with the same final state, in which every action counts |
| LaneEngine.OpenOneLane | apps/server-nakama/lanes.go:122-144 | A duplicate, a source without a free path or a target without a route changes nothing; otherwise one lane with the next id is appended |
| LaneBattle.OpenIff | apps/server-nakama/lanes.go:122-144 | A player's open adds exactly one lane, with the next id and ready to emit, exactly if it goes from an own tower with a free path to another tower it can reach and does not run yet; any other changes nothing |
| LaneEngine.CutOneLane | apps/server-nakama/lanes.go:146-158 | Removes the lane and says whether there was one |
| LaneEngine.LandSoldiers | apps/server-nakama/lanes.go:177-204 | Each due soldier reinforces up to capacity, duels one defender or takes an empty tower; the others fly on |
| LaneEngine.EmitFrom | apps/server-nakama/lanes.go:212-232 | The emission loop of one lane, unit by unit with its counters |
| LaneEngine.EmitSoldiers | apps/server-nakama/lanes.go:206-234 | All lanes in order over the shared towers; lanes whose source is lost are dropped |
| LaneEngine.PlanForTeam | apps/server-nakama/lanes.go:281-415 | Cuts exactly the running lanes no longer worth it; opens exactly one lane from every tower with a free path and a choice, to the weakest own tower it can help, or else to the foreign tower of least resistance it can storm |
| LaneChoice.PlanIs | apps/server-nakama/lanes.go:281-415 | The plan is so for every state and list of lanes, said without its loops, by garrisons, distances and the lanes that stay |
| LaneChoice.CutsAre | apps/server-nakama/lanes.go:293-307 | The cuts are so for every list of lanes |
| LaneChoice.AttackeeIsLeast | apps/server-nakama/lanes.go:382-412 | The attack of a source has the least score of all its legal targets, the smaller id among equals; there is none exactly when nothing can be attacked |
| LaneEngine.FindCuts | apps/server-nakama/lanes.go:293-307 | Cuts a running lane of the team exactly when its own target has fourteen units or lacks at most one, or the other side's target produces 4.9 units a second or more, a barracks counting 5/4 |
| LaneEngine.FindRescuee | apps/server-nakama/lanes.go:363-376 | The loop over the sorted towers computes the tower a source would rescue |
| LanePlan.RescueeIsWeakest | apps/server-nakama/lanes.go:363-376 | That tower is the weakest of those the source can rescue, the smaller id among equals; there is none exactly when it can rescue none |
| LaneEngine.FindAttackee | apps/server-nakama/lanes.go:382-412 | The best-scored attack of a source, ties by id |
| LaneEngine.LaneEngine.StepLaneSimulation | apps/server-nakama/lanes.go:169-269 | Base step, landings, emissions and the lane verdict, in place, soldier by soldier and lane by lane as the row LaneSteps.LaneStepIs says |
| LaneSteps.LaneStepIs | apps/server-nakama/lanes.go:169-269 | Every lane step is a history: each soldier that needs more time flies on and needs that much less, each other one fills its own tower, removes a defender or takes an empty tower; then each lane whose source is held sends exactly the soldiers due that can be spared, each for the length of its route at 140 a second, and the others end; then comes the verdict, the enemy first |
| LaneEngine.LaneEngine.Step | apps/server-nakama/lanes.go:428-442 | A lane step and, when the bot is due, its plan: all cuts, then all opens |
| LaneEngine.LaneEngine.ApplyPlan | apps/server-nakama/lanes.go:434-440 | Carries out the plan on the engine's lanes |
| LaneEngine.LaneEngine.Open | apps/server-nakama/lanes.go:444-456 | Only from an own tower to another one; the answer says whether the lane runs afterwards |
| LaneEngine.LaneEngine.Cut | apps/server-nakama/lanes.go:458-462 | Cuts the player's lane and says whether there was one |
| LaneLaws.EmitBounds | apps/server-nakama/lanes.go:212-230 | A burst leaves the wait in [0, 0.2 + 1e-9], is paid for by the wait, and never draws the source below one unit |
| LaneLaws.EmitExact | apps/server-nakama/lanes.go:212-230 | A burst sends exactly the soldiers that are due, as far as the source can spare them with one unit left; the next wait is 0.2 seconds longer for each one sent, and starts anew once nothing can be spared |
| LaneLaws.SoldiersLand | apps/server-nakama/lanes.go:177-204 | Soldiers of one team that land fill their own tower up to capacity; elsewhere each removes a defender, and the first beyond the defenders takes the tower, which the others then fill |
| LaneRate.LaneSendsAtRate | apps/server-nakama/lanes.go:206-234 | Over every run of steps, opens, cuts and bot plans lasting T seconds, no lane sends more than (T + 1e-9)/0.2 + 1 soldiers |
| LaneRate.EmittedIsSent | apps/server-nakama/lanes.go:206-234 | The soldiers leaving in a step are exactly those its lanes send |
| LaneBattle.LaneStepKeeps | apps/server-nakama/lanes.go:169-269 | A lane step keeps the invariant; garrisons plus soldiers in flight change exactly by production minus overflow at full friendly towers minus twice the duels |
| LaneBattle.RunKeeps | apps/server-nakama/lanes.go:122-158 | Over every run: one lane per owner, source and target, at most `tier` lanes per source, distinct ids below the next one, every owner holds its source, every lane follows a road path, every wait in [0, 0.2 + 1e-9], garrisons within capacity |
| LaneEnd.PlaysOnIff | apps/server-nakama/lanes.go:169-269 | A lane step leaves the battle undecided exactly when each side held a tower before it, time is left, and each side has a tower or a soldier in flight after it |
| LaneEnd.FlyingSoldiersSaveNobody | apps/server-nakama/lanes.go:259-264 | A side that loses its last tower is spared for that step exactly by soldiers in flight, and the next step goes against it whatever it has in flight, for both sides |
| LaneEnd.LastStand | apps/server-nakama/lanes.go:259-264 | A well-formed battle in which that happens: the enemy loses its last tower while a soldier of its own flies, and the battle ends one step later |
| LanePlan.PlanIsExecutable | apps/server-nakama/lanes.go:281-442 | Each cut removes exactly one lane and each open adds exactly the lane it names: lanes afterwards = before - cuts + opens, at most one open per source |
| LaneBattle.PlannedOrdersRun | packages/game-core/src/lane-ai.ts:41-83 | The bot's plan at a planning tick, as the engine carries it out, is executed in full |
| LaneReplay.ValidateLaneActions | apps/server-nakama/lanes.go:478-499 | Reports the first violation of a lane record |
| LaneReplay.LaneRecordAccepted | packages/game-core/src/lane-replay.ts:41-58 | A lane record is replayed exactly when it has at most 120 orders, numbered in order, of known kinds, at non-decreasing times within 90 seconds, between towers of the battlefield |
| LaneReplay.ReplayLaneBattle | apps/server-nakama/lanes.go:473-532 | The replay reports the first violation, or plays the orders on the 20 ms clock to its last tick along such a history, and counts those that took effect |
| LaneReplay.OrderIff | apps/server-nakama/lanes.go:444-462 | An open counts exactly if its source is the player's, its target another tower, and the lane runs already or may be opened, and adds one lane exactly then; a cut counts exactly if the lane runs, and removes it and no other |
| LaneReplay.LaneHistory | apps/server-nakama/lanes.go:500-532 | Every replay of a lane record is a history of states, one per order: the engine at the order's tick, and then the effect of the order while the battle is undecided; the count is the number of orders that count in it |
| LaneReplay.LaneReplayDecides | apps/server-nakama/lanes.go:526-530 | Every lane replay ends with a decided status and a well-formed lane state |
| LaneReplay.BotPlansOnTime | apps/server-nakama/lanes.go:424-442 | Whatever the player orders, the bot of a lane replay plans first after 10, 8 or 2 seconds and then every 8, 6 or 4.5 |
| LaneReplay.RunShows | apps/server-nakama/lanes.go:500-532 | So does a lane replay |
| LaneReplay.PrunedLaneReplaySame | apps/server-nakama/lanes.go:473-532 | Deleting every order that did not count and renumbering the rest gives an accepted record with the same final battle, in which every order counts |
| LaneReplay.IgnoredChangesNothing | apps/server-nakama/lanes.go:444-462 | An order that does not count leaves the engine untouched |
| Canonical.CanonicalizeActions | apps/server-nakama/simulate2v2.go:205-256 | Stable sort by (tick, server sequence, slot, client sequence), then the checks of the source in its order, with its error codes |
| Canonical.CanonicalIff | apps/server-nakama/simulate2v2.go:205-256 | A log is accepted exactly when it is short enough, its actions are well formed with distinct server sequences, and every client sequence counts the earlier actions of its slot; the result is the same actions in order |
| Canonical.AnyShuffle | packages/game-core/src/pvp2v2.ts:63-97 | Every shuffle of an accepted log is accepted with the same result |
| Canonical.CanonicalUnchanged | apps/server-nakama/simulate2v2.go:205-256 | An acceptable log already in order is returned unchanged |
| Simulation2v2.CreateInitial2v2 | apps/server-nakama/simulate2v2.go:150-199 | The opening or the first error, in the order of the source |
| Simulation2v2.OpeningIff | apps/server-nakama/simulate2v2.go:150-199 | An opening exists exactly for four different slots on four different towers of their sides; only those towers change, each by its own slot's modifiers; the clock, the counts and the roads are new |
| Simulation2v2.Simulate2v2Battle | apps/server-nakama/simulate2v2.go:261-354 | Canonicalizes, opens, steps to each action, refuses what cannot be dispatched with the source's code, and plays out the time |
| SimulationLaws.SimulationPlays | apps/server-nakama/simulate2v2.go:261-354 | A simulation succeeds exactly when its log is canonical up to order, its opening exists and the commands can be played one after the other; it then ends where they and the remaining time lead |
| SimulationLaws.CommandIff | apps/server-nakama/simulate2v2.go:303-339 | Where armies march straight, as in every 2v2 battle, a command of a log plays exactly if the battle is undecided at its tick and its slot's side can make the send, and then half of the garrison marches at the slot's speed |
| Simulation2v2.SimulationIgnoresOrder | packages/game-core/src/pvp2v2.ts:105-190 | The simulated battle does not depend on the order in which the log arrives |
| Simulation2v2.SimulationDecides | apps/server-nakama/simulate2v2.go:303-354 | A simulation processes every action, keeps the time limit asked for (90 seconds when none is), and ends undecided exactly when the rules have capture recovery, rounding the limit to nanoseconds lowers it, and neither side is out at the end |
| Simulation2v2.IdleSimulation | apps/server-nakama/simulate2v2.go:340-344 | A battle nobody plays ends undecided exactly when rounding the clock to nanoseconds misses its time limit; otherwise the time decides it |
| Draft.SortEntries | apps/server-nakama/live2v2.go:148-158 | The in-place insertion sort, which compares on after an element has found its place, sorts by trophies and then id and keeps the entries |
| Draft.AssignSlotsBySnakeDraft | apps/server-nakama/live2v2.go:137-165 | Four named, different players, or the error; then the snake order over the sorted entries |
| Draft.DraftIff | apps/server-nakama/live2v2.go:137-165 | The draft succeeds exactly for four named, different players and seats each of them once |
| Draft.DraftIgnoresOrder | apps/server-nakama/live2v2.go:132-137 | The seats, or the error, do not depend on the order of the entries |
| Draft.DraftBalances | apps/server-nakama/live2v2.go:159-163 | No split of the four players into two pairs has a smaller trophy difference than the draft's |
| MatchSlots.ApplySlotOrder | apps/server-nakama/live2v2.go:307-325 | Seats the users in order, each on the team and base of its slot |
| MatchSlots.ReorderSlotsByUserIds | apps/server-nakama/live2v2.go:241-260 | Looks every slot up before moving any, and moves them to the requested order |
| MatchSlots.ReorderExact | apps/server-nakama/live2v2.go:239-260 | Reordering succeeds exactly for different users who all have a slot, and gives exactly the requested order with matching teams and bases |
| MatchSlots.DraftSeats | apps/server-nakama/live2v2.go:262-289 | Four known, different players are always seated, each once, as the draft orders them |
| MatchSlots.RematchKeepsSeats | apps/server-nakama/live2v2.go:218-235 | A rematch seats the four players exactly as they sat |
| LiveMatch.LiveMatch.constructor | apps/server-nakama/live2v2.go:180-194 | A new match waits for its players, with nothing logged or counted, and meets the invariant |
| LiveMatch.LiveMatch.MatchJoinAttempt | apps/server-nakama/live2v2.go:327-366 | Refuses finished matches, dead slots, strangers and users without a waiting slot, in that order |
| MatchOrders.AdmissionIff | apps/server-nakama/live2v2.go:327-366 | Admitted is exactly who returns to its own living slot, or may play and owns a slot that waits for it, while the match is not over |
| LiveMatch.LiveMatch.MatchJoin | apps/server-nakama/live2v2.go:377-412 | Rebinds known users to their newest session, seats new ones, and starts the countdown once all four are in; keeps the invariant and only moves the match forward |
| MatchOrders.JoinIff | apps/server-nakama/live2v2.go:377-426 | Those who join sit down one after the other, each in its own slot or in the first that waits for it, held by the newest session; the countdown of 200 ticks starts exactly if a waiting match then has all four |
| LiveMatch.LiveMatch.MatchLeave | apps/server-nakama/live2v2.go:437-460 | Only the session that holds the slot can leave it; nothing changes once the match is over; keeps the invariant |
| MatchOrders.LeaveIff | apps/server-nakama/live2v2.go:437-460 | Leaving empties exactly the slots whose sessions leave, while the match is not over, and dates their absence |
| LiveMatch.LiveMatch.EnforceReconnectGrace | apps/server-nakama/live2v2.go:784-801 | Disconnected slots whose 30 seconds have passed are abandoned, then forfeits are checked |
| LiveMatch.LiveMatch.CheckTeamForfeit | apps/server-nakama/live2v2.go:806-829 | Team A first; a team whose two slots are gone loses |
| LiveMatch.LiveMatch.FinishMatch | apps/server-nakama/live2v2.go:943-967 | Settles unless settled; a failed settlement is retried 20 ticks later |
| LiveMatch.LiveMatch.ParticipantOutcomes | apps/server-nakama/live2v2.go:1004-1019 | Each slot's player with its own team's counts: the gone are defeated; a living slot is victorious exactly if its own team won, defeated exactly if the other did, drawn exactly if nobody did |
| MatchOutcomes.OutcomesAreFair | apps/server-nakama/live2v2.go:1004-1019 | The outcomes are so for every match; the sent and capture counts have the player's own side first |
| MatchHistory.LedgerIsFair | apps/server-nakama/live2v2.go:943-1019 | In every run, whatever is settled has the match's own ids and final log and a decided battle, and fair outcomes for the two players of each team; never are players of different teams both victorious |
| LiveMatch.LiveMatch.HandleDispatchMessage | apps/server-nakama/live2v2.go:630-698 | The checks in the order of the source with their codes; from the session that holds the slot it is accepted exactly if the battle runs, the slot is alive, the sequence is its number of logged commands, the log has room and its side can make the send; then the battle, the slot's sequence, the log and the counter advance together, and otherwise nothing does |
| MatchOrders.DispatchAcceptedIff | apps/server-nakama/live2v2.go:630-698 | In every lawful match a dispatch of a slot with a session is accepted exactly then; accepted, it adds exactly itself to the log, one army of half the garrison marches at the slot's speed, and the slot has sent that many more units; refused, it changes nothing and names the first reason that holds |
| MatchOrders.DispatchMessageIff | apps/server-nakama/live2v2.go:586-698 | A dispatch message is accepted exactly if its user's slot is held by the sending session and the slot's dispatch is accepted |
| LiveMatch.LiveMatch.HandleSurrenderMessage | apps/server-nakama/live2v2.go:708-729 | Cancels the lobby; in battle the slot is gone and forfeits are checked |
| MatchOrders.SurrenderIff | apps/server-nakama/live2v2.go:708-729 | A heard surrender cancels a match that has not begun, removes the slot from one that runs, which then loses exactly if both slots of a team are gone, and is refused after that |
| LiveMatch.LiveMatch.HandleVote | apps/server-nakama/live2v2.go:731-780 | One vote per connected slot within the window; the fourth creates the rematch if creation succeeds |
| MatchOrders.VoteIff | apps/server-nakama/live2v2.go:731-780 | A heard vote counts exactly within the window of a settled match without rematch, once a slot; the fourth makes the rematch if creation goes through; any other vote is refused and changes nothing |
| LiveMatch.LiveMatch.HandleClientMessage | apps/server-nakama/live2v2.go:586-628 | Only the session that holds the slot is heard, only with schema version 2 |
| LiveMatch.LiveMatch.DrainMessages | apps/server-nakama/live2v2.go:495-499 | Messages are numbered on from the match's server sequence |
| LiveMatch.LiveMatch.BeginMatch | apps/server-nakama/live2v2.go:833-848 | Opens the battle and sets the deadline, or cancels when there is no opening |
| MatchOrders.OpeningIs | apps/server-nakama/live2v2.go:852-871 | The battle opens exactly if the battlefield exists and its four bases belong to the sides of their slots; then each base has the garrison and the production of its own slot's player, every other tower is as on the battlefield, and 90 seconds are on the clock |
| LiveMatch.LiveMatch.RunLobby | apps/server-nakama/live2v2.go:519-539 | Waiting and countdown timers |
| MatchOrders.WaitingIff | apps/server-nakama/live2v2.go:519-526 | A quiet lobby starts its countdown of 200 ticks exactly once all four are in, and is cancelled exactly when its time runs out before |
| LiveMatch.LiveMatch.RunBattle | apps/server-nakama/live2v2.go:541-561 | One step of the battle, and its end by verdict or deadline |
| LiveMatch.LiveMatch.MatchLoop | apps/server-nakama/live2v2.go:472-563 | The whole tick, and whether the handler lives on; at a tick that does not go back it keeps the invariant and only moves the match forward |
| MatchOrders.QuietLoop | apps/server-nakama/live2v2.go:472-563 | A loop without messages of a running match abandons exactly the slots away for more than 30 seconds; a team both of whose slots are gone then loses; otherwise the battle makes one step of 50 ms, and the match ends exactly with the battle or, past the deadline, in a draw |
| LiveMatch.ValidateSettle2v2Request | apps/server-nakama/store.go:658-692 | Reports the first fault of a settlement request |
| MatchRuns.RunsMoveForward | apps/server-nakama/live2v2.go:377-563 | Between any two moments of any run: the stage moves only forward, or aside to cancelled before it is finished; the dead stay dead; the log grows only by commands of living slots; what is over keeps its record; books only grow |
| MatchRuns.SettlesOnce | apps/server-nakama/live2v2.go:943-1019 | In every run a match settles at most once, never when cancelled, and a finished match has a decided battle and a request without fault; what was settled is its final record |
| MatchLaws.RequestAccepted | apps/server-nakama/store.go:658-692 | The settlement request of a match with a decided battle has no fault |
| MatchLaws.RequestIff | apps/server-nakama/store.go:658-692 | Without fault is exactly a request with a match id of 1 to 128 characters and a battlefield id, of four named, different participants in different slots, each on its slot's team and decided |
| MatchHistory.EndsForAReason | apps/server-nakama/live2v2.go:472-829 | In every run a finished match was lost by a team both of whose slots are surrendered or abandoned, or was drawn by a loop after the deadline, or has the status the rules give its battle: a side is out, or time is up and a side is ahead in towers, or equal in them and ahead in units, or neither is |
| MatchHistory.CountdownEndsIff | apps/server-nakama/live2v2.go:527-539 | A countdown in which nobody surrenders ends exactly at the first loop by which all four have said ready from the session that holds their slot, or at its end; the battle then begins exactly if its opening exists and, without four ready players, all four have joined: from the opening, by one step of 50 ms, with a deadline 120 seconds away |
| MatchHistory.ShutdownIsFinal | apps/server-nakama/live2v2.go:1194-1205 | In every run a shutdown before the match is finished leaves it cancelled for good, never settled, with the record it had; a finished match stays finished |
| MatchRuns.DeadSlotsAreSilent | apps/server-nakama/live2v2.go:636-640 | In every run nothing is logged for a slot after it surrendered or was abandoned |
| MatchRuns.LogIsCanonical | apps/server-nakama/live2v2.go:641-685 | In every run with non-decreasing ticks the canonicalizer returns the log unchanged, from every shuffle of it too, and each slot's next sequence is its number of logged actions |
| MatchRuns.SlotTotalsAddUp | apps/server-nakama/domain.go:786-790 | In every run the units the two slots of a team sent add up to what the simulation counts for its side |
| MatchRuns.RematchOnce | apps/server-nakama/live2v2.go:731-780 | At most one rematch is created, only after settlement, with the same players in the same slots, which seats them as they sat |
| MatchRuns.FailedRematchIsFinal | apps/server-nakama/live2v2.go:744-768 | When creating the rematch fails after the fourth vote, no later event can create one |
| MatchHistory.FourthVoteCreates | apps/server-nakama/live2v2.go:731-780 | In every run the event that brings the fourth vote is a loop, there is no rematch before it, and for the rest of the run there is one exactly if the creation goes through in that loop |
| MatchRuns.InitSlotsSeat | apps/server-nakama/live2v2.go:213-236 | Whenever a match gets slots, four different players sit in them on the right teams and bases |
| MatchRuns.InitSlotsIff | apps/server-nakama/live2v2.go:205-236 | A match gets slots exactly if it is enabled, for four named, different players whose careers are known, unless an order is asked for that names only them, but one of them twice |
| MatchHistory.GraceIsGranted | apps/server-nakama/live2v2.go:784-801 | In every run a slot is abandoned only by a loop more than 30 seconds after its session left, and no session held it in between |
| MatchRuns.RetrySettles | apps/server-nakama/live2v2.go:481-486 | An unsettled finished match settles exactly at a loop from its retry time on whose settlement goes through |
| MatchRuns.OpenUntilTheWindowCloses | apps/server-nakama/live2v2.go:478-517 | The handler is dropped exactly after a cancellation or when a settled match's rematch window has closed |
| MatchRuns.RefusalChangesNothing | apps/server-nakama/live2v2.go:586-729 | A rejected message leaves the match untouched |
| MatchRuns.OldSessionIsRefused | apps/server-nakama/live2v2.go:377-426 | Once newer sessions of a user have joined, every message of a session other than the last of them is refused and changes nothing |
| MatchRuns.AdmittedIsSeated | apps/server-nakama/live2v2.go:327-426 | A user the match admits and that joins holds a slot under the new session |
| BattlefieldChecks.ValidateBattlefieldDefinition | apps/server-nakama/domain.go:86-252 | The validator reports the first fault in the order of its nine checks |
| BattlefieldChecks.UniqueCounterpart | apps/server-nakama/domain.go:182-195 | The first tower opposite and how many there are |
| Battlefields.AcceptedIff | apps/server-nakama/domain.go:86-252 | Accepted are exactly the battlefields with an id, different non-empty tower ids, exactly the named bases for each side (fortresses of tier three in 2v2, opposite on the axis in 1v1), a neutral tower, roads between different towers with different texts, all towers in bounds, a unique opposite tower with equal attributes for each, and for each road a road with its mirror's text, in 2v2 another one |
| Battlefields.MirrorIsInvolution | apps/server-nakama/domain.go:179-217 | Every accepted battlefield has a mirror map that is an involution, exchanges the sides and keeps all attributes |
| Battlefields.RoadsMirroredIff | apps/server-nakama/domain.go:219-252 | The mirror is an automorphism of the roads exactly when no road has the text of another road's mirror image |
| Battlefields.PlainIdsTell | apps/server-nakama/domain.go:257-262 | Ids without the separator `<->` are enough for that |
| Battlefields.TwistedRoadUnmirrored | apps/server-nakama/domain.go:257-262 | Without such a condition it fails: an accepted battlefield whose only road has no mirror image |
| Battlefields.NoSelfMirroredRoad | packages/game-core/src/battlefields.ts:272-300 | In an accepted 2v2 battlefield no road is its own mirror image |
| Hops.BuildAdjacency | tools/verify_battlefield_symmetry.py:366-370 | Each tower's list names exactly its road neighbours |
| Hops.HopsFrom | tools/verify_battlefield_symmetry.py:372-381 | The breadth-first search finds exactly the reachable towers, each with the number of hops of a shortest walk |
| Hops.HopsMirrored | tools/verify_battlefield_symmetry.py:342-381 | Two towers are as many hops apart as their mirror images |

## Left out

- Settlement, claims, coins, levels, quests and leagues in the SQL stores: a settlement is a call that may fail; only the check of its request is modelled.
- RPC handlers, authentication, matchmaking hooks, analytics and rollout: input and output around the rules.
- JSON payloads, broadcasts and kicks of the match handler: messages arrive parsed, replies are codes, presence and session identity are kept.
- The matched 1v1 live handler of live.go beyond the projection of states to roles.
- Per-slot capture counters of the 2v2 match: their snapshot shares the territory map that the step writes in place, so it compares the map with itself.
- Rules v1 replay stepping with remainders and clock corrections: it is not on the tick grid.
- Floating-point rounding: times and accumulators are exact reals, apart from the rounding steps the code itself performs.
- Army ids and display names: no rule reads them; the id of a tower is its key in the territory map.
- Initial territories, upgrade arithmetic and the tactical opening: a battle starts from any opening state that meets the stated conditions.
- Update of a slot through its pointer: the match's four slots are a sequence of values, so moving and writing slots cannot alias.
- Several clock readings within one callback of the match: one callback sees one time.
- A match that is cancelled while it is created: it has no slots and its first loop drops it.
- Match restoration of a stored settlement on a repeated call: the store's idempotence is behind the abstract settlement call.
- The content of the replay payload in a settlement request: it is never empty, which is all the request check asks.
- The state hash and the checkpoints of the 2v2 simulation: they only serve the comparison of the two engines.
- Soldier drawing, headings, swipes, themes and the Phaser client.
- The other checks of the symmetry script (degrees, spacing, fingerprints): they are fixed numbers of one map.
- Any claim that the bot's forecast is what happens: it ignores production and the order of arrivals within one tick.
- Text.ExtendKeepsOrder: asks for order-safe ids, because over other ids free of the bar the text order of routes does not survive extension; for ids with a bar in them that are prefixes of one another nothing is claimed.
- Simulation2v2.SimulationDecides: allows an undecided end for a time limit that nanosecond rounding lowers, because the code has it.
- MatchRuns.LogIsCanonical: asks, as every row that speaks of every run does, for loop ticks that do not go back, which the match runtime provides, and for a created match as described at the top.
- Battlefields.RoadsMirroredIff: asks for road texts that tell roads apart, because the validator compares texts.
- MatchHistory.EndsForAReason: says the rules by the sets of towers held where the battlefield lists its towers once each, as every accepted one does; elsewhere by the counts of the listed order, which is what the code adds up.
- ActionLaws.BotTurnIs: asks for the same of the towers of the battle, and for an undecided one: a replay plans no turn after the verdict.
