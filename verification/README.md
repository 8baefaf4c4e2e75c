# Factory production simulation: a verified model of the server engine

This project models the simulation engine of a factory production game
(`ServerProgram/src/main/java/edu/duke/ece651/hw2/simulation/`). It is a
discrete-time production and logistics scheduler:

- mines, factories, storage buildings and drone ports hold queues of
  production requests;
- a user request for an item is broken down, depth first and one unit at a
  time, into requests to the least-loaded source of each ingredient;
- finished items travel along one-way roads laid on a grid, or by drone,
  and arrive as delayed deliveries;
- each time step delivers what is due, steps every building in the
  topological order of the "is a source of" graph, drops completed user
  requests and removes buildings flagged for removal once they are idle;
- a small text command language drives the engine (request, step, finish,
  verbose, connect, srm, crm, build, remove, rate, pause, printMap);
- configuration input is checked (recipes, types, consistency of sources)
  and buildings without a location are placed on the grid by a search.

The Dafny modules follow the Java classes:

| module | file | models |
|---|---|---|
| `Wrappers` | wrappers.dfy | null references, exceptions, list removal, hash iteration orders |
| `Grid` | grid.dfy | `Coordinate` and the compass directions of `RoadMap` |
| `Roads` | road.dfy | `Road`: one-way enter and exit lists and the shared-use count |
| `Recipes` | recipe.dfy | `Recipe` |
| `Requests` | request.dfy | `Request` and `RequestStatus` |
| `Naming` | naming.dfy | integer text, sanitised type names, `generateUniqueBuildingName` |
| `Drones` | drone.dfy | `Drone` and the fleet loops of `DroneBuilding` |
| `Buildings` | building.dfy | `BasicBuilding` and the four building kinds, their local rules |
| `TopologicalOrder` | topo.dfy | `getTopOrder` (Kahn's algorithm) |
| `RoadNetwork` | roadmap.dfy | `RoadMap`: path search, path laying, breadth-first distance, removals |
| `Logistics` | logistics.dfy | sending items, the drone shortcut, the ingredient dispatcher and its validating twin |
| `Ticks` | ticks.dfy | the `step` of every building kind and delayed deliveries |
| `Simulations` | simulation.dfy | `BasicSimulation`: the clock, the tick, the user commands |
| `Commands` | command.dfy | `CommandProcessor` and the commands' `execute` |
| `Setup` | setup.dfy | the `parseRecipes` and `parseTypes` rules over a JSON tree value |
| `Validation` | validate.dfy | `validateInput` |
| `Placement` | placement.dfy | `assignBuildingLocations` |

Values the Java code mutates through a single owner (roads, drones,
requests, buildings) are Dafny datatypes that the owner replaces. The
simulation and the road map, whose fields the Java methods update step by
step, are classes. Their methods carry `modifies` clauses and state the
whole new state. Loops stay loops, each proved against a specification
function whose properties are lemmas.

## Model

| member | source | states |
|---|---|---|
| Wrappers.RemoveFirst | ServerProgram/src/main/java/edu/duke/ece651/hw2/simulation/BasicSimulation.java:229-232 | removing an object from a list removes one occurrence when present and leaves the list alone otherwise; no other element is lost or gained |
| Wrappers.RemoveFirstAbsent | ServerProgram/src/main/java/edu/duke/ece651/hw2/simulation/BasicSimulation.java:231 | in a duplicate-free list the removed element no longer occurs |
| Wrappers.RemoveFirstNoDup | ServerProgram/src/main/java/edu/duke/ece651/hw2/simulation/BasicSimulation.java:231 | removing an element keeps a list duplicate-free |
| Grid.ManhattanDistance | ServerProgram/src/main/java/edu/duke/ece651/hw2/simulation/Coordinate.java:15-17 | the distance is zero exactly when the two cells are the same cell |
| Grid.ManhattanSymmetric | ServerProgram/src/main/java/edu/duke/ece651/hw2/simulation/Coordinate.java:15-17 | the distance from a to b equals the distance from b to a |
| Grid.Neighbor | ServerProgram/src/main/java/edu/duke/ece651/hw2/simulation/Coordinate.java:19-27 | the neighbour is always exactly one step away, north being y - 1 and south y + 1 |
| Grid.Opposite | ServerProgram/src/main/java/edu/duke/ece651/hw2/simulation/RoadMap.java:70-77 | the opposite of a direction is never the direction itself |
| Grid.OppositeInvolution | ServerProgram/src/main/java/edu/duke/ece651/hw2/simulation/RoadMap.java:70-77 | taking the opposite twice gives the original direction back |
| Grid.OppositeUndoes | ServerProgram/src/main/java/edu/duke/ece651/hw2/simulation/RoadMap.java:59-77 | stepping in the opposite direction returns to the start, and the direction of that step back is the opposite |
| Grid.AdjacentIsNeighbor | ServerProgram/src/main/java/edu/duke/ece651/hw2/simulation/Coordinate.java:19-27 | every cell at distance one is reached from the first by some direction |
| Grid.NeighborInjective | ServerProgram/src/main/java/edu/duke/ece651/hw2/simulation/Coordinate.java:19-27 | different directions lead to different neighbours |
| Grid.DirectionBetween | ServerProgram/src/main/java/edu/duke/ece651/hw2/simulation/RoadMap.java:59-68 | a direction is returned exactly when the cells are adjacent; it leads from the first cell to the second and is the only one that does; otherwise the call fails as Java's IllegalArgumentException |
| Grid.HashCodeConsistent | ServerProgram/src/main/java/edu/duke/ece651/hw2/simulation/Coordinate.java:30-40 | equality is component-wise, equal cells share a hash code, and two different cells (0,31) and (1,0) collide |
| Roads.NewRoad | ServerProgram/src/main/java/edu/duke/ece651/hw2/simulation/Road.java:12-17 | a new road sits at its location with no enter or exit directions and a share count of zero |
| Roads.AddIfAbsent | ServerProgram/src/main/java/edu/duke/ece651/hw2/simulation/Road.java:23-33 | the direction is afterwards present, nothing else is added, the old list is a prefix, at most one element is added, and a duplicate-free list stays duplicate-free |
| Roads.AddEnterDirection | ServerProgram/src/main/java/edu/duke/ece651/hw2/simulation/Road.java:23-27 | the enter list gains the direction and keeps its old entries in order; exit list, count and location are unchanged |
| Roads.AddExitDirection | ServerProgram/src/main/java/edu/duke/ece651/hw2/simulation/Road.java:29-33 | the exit list gains the direction and keeps its old entries in order; enter list, count and location are unchanged |
| Roads.IncreSharedCountBy | ServerProgram/src/main/java/edu/duke/ece651/hw2/simulation/Road.java:43-45 | the share count moves by exactly n, negative values included, and nothing else changes |
| Roads.AddDirectionIdempotent | ServerProgram/src/main/java/edu/duke/ece651/hw2/simulation/Road.java:23-33 | adding the same direction twice has the effect of adding it once |
| Roads.EnterExitIndependent | ServerProgram/src/main/java/edu/duke/ece651/hw2/simulation/Road.java:23-33 | an enter update and an exit update commute |
| Roads.AddersKeepNoDup | ServerProgram/src/main/java/edu/duke/ece651/hw2/simulation/Road.java:23-33 | any road whose enter and exit lists have no duplicates keeps both duplicate-free through any run of the two adders, in any order |
| Recipes.NewRecipe | ServerProgram/src/main/java/edu/duke/ece651/hw2/simulation/Recipe.java:24-29 | the recipe keeps the given output, amounts, latency and ingredient order |
| Recipes.NewRecipeFromKeys | ServerProgram/src/main/java/edu/duke/ece651/hw2/simulation/Recipe.java:32-34 | the ingredient order lists every ingredient of the map exactly once and nothing else |
| Recipes.IngredientAmount | ServerProgram/src/main/java/edu/duke/ece651/hw2/simulation/Recipe.java:69-81 | the amount is the stored one for a required ingredient and 0 for any other name |
| Recipes.NoIngredientsMeansZeroAmounts | ServerProgram/src/main/java/edu/duke/ece651/hw2/simulation/Recipe.java:69-81 | a recipe without ingredients requires nothing and every amount is 0 |
| Requests.NewRequest | ServerProgram/src/main/java/edu/duke/ece651/hw2/simulation/Request.java:23-35 | a new request carries the given id, recipe, requestor, user flag and time and waits for ingredients |
| Requests.SetStatus | ServerProgram/src/main/java/edu/duke/ece651/hw2/simulation/Request.java:91-93 | only the status changes; every other field is kept |
| Requests.CompletionOnlyTouchesStatus | ServerProgram/src/main/java/edu/duke/ece651/hw2/simulation/Request.java:100-102 | a new request is not completed, it is once its status is set to completed, and resetting the status restores the original request |
| Naming.Decimal | ServerProgram/src/main/java/edu/duke/ece651/hw2/simulation/BasicSimulation.java:564-574 | the text of a count is nonempty, all digits, with no leading zero |
| Naming.ValueOfDecimal | ServerProgram/src/main/java/edu/duke/ece651/hw2/simulation/BasicSimulation.java:564-574 | reading the decimal text back gives the number |
| Naming.DecimalInjective | ServerProgram/src/main/java/edu/duke/ece651/hw2/simulation/BasicSimulation.java:564-574 | different numbers have different decimal texts |
| Naming.IntText | ServerProgram/src/main/java/edu/duke/ece651/hw2/simulation/BasicSimulation.java:567-572 | an int is printed as its decimal digits, with a minus sign in front when negative |
| Naming.Sanitize | ServerProgram/src/main/java/edu/duke/ece651/hw2/simulation/BasicSimulation.java:566 | the text keeps its length; letters and digits stay, every other character becomes an underscore |
| Naming.SanitizeIdempotent | ServerProgram/src/main/java/edu/duke/ece651/hw2/simulation/BasicSimulation.java:566 | a sanitised name holds only letters, digits and underscores, so sanitising again changes nothing |
| Naming.CandidateInjective | ServerProgram/src/main/java/edu/duke/ece651/hw2/simulation/BasicSimulation.java:567-572 | the candidate names for two different counts differ |
| Naming.UniqueName | ServerProgram/src/main/java/edu/duke/ece651/hw2/simulation/BasicSimulation.java:564-574 | the name is the candidate for the smallest count from 1 whose name is not yet taken |
| Drones.NewDrone | ServerProgram/src/main/java/edu/duke/ece651/hw2/simulation/Drone.java:8-12 | a new drone is in construction with 10 construction steps to go and no work |
| Drones.AssignWork | ServerProgram/src/main/java/edu/duke/ece651/hw2/simulation/Drone.java:16-18 | the work counter is set to the given steps and the status and construction counter are untouched |
| Drones.SetDroneStatus | ServerProgram/src/main/java/edu/duke/ece651/hw2/simulation/Drone.java:26-28 | only the status changes |
| Drones.DoWork | ServerProgram/src/main/java/edu/duke/ece651/hw2/simulation/Drone.java:20-25 | one work step is used up and the drone becomes idle exactly when the counter reaches 0 |
| Drones.DoConstruction | ServerProgram/src/main/java/edu/duke/ece651/hw2/simulation/Drone.java:29-34 | one construction step is used up and the drone becomes idle exactly when the counter reaches 0 |
| Drones.StepDrone | ServerProgram/src/main/java/edu/duke/ece651/hw2/simulation/Drone.java:35-41 | an active drone works, a drone in construction builds, an idle drone is unchanged |
| Drones.ConstructionFinishesAfter | ServerProgram/src/main/java/edu/duke/ece651/hw2/simulation/Drone.java:29-41 | a drone with k construction steps left stays in construction for k - 1 steps and is idle after exactly k, its work counter untouched |
| Drones.IdleStaysIdle | ServerProgram/src/main/java/edu/duke/ece651/hw2/simulation/Drone.java:35-41 | an idle drone never changes until it is given work |
| Drones.NewDroneReadyAfterTen | ServerProgram/src/main/java/edu/duke/ece651/hw2/simulation/Drone.java:8-12 | a new drone is ready after exactly ten steps and not before |
| Drones.TripFinishesAfter | ServerProgram/src/main/java/edu/duke/ece651/hw2/simulation/Drone.java:20-25 | an active drone given w work steps is active for w - 1 steps and idle after exactly w |
| Drones.NonPositiveTripNeverEnds | ServerProgram/src/main/java/edu/duke/ece651/hw2/simulation/Drone.java:20-25 | a trip of zero or negative length skips past 0, so the drone stays active for ever |
| Drones.Tally | ServerProgram/src/main/java/edu/duke/ece651/hw2/simulation/DroneBuilding.java:48-76 | the count of drones in a status is at most the fleet size |
| Drones.TallyPartition | ServerProgram/src/main/java/edu/duke/ece651/hw2/simulation/DroneBuilding.java:48-76 | the idle, active and in-construction counts add up to the fleet size |
| Drones.TallyPositive | ServerProgram/src/main/java/edu/duke/ece651/hw2/simulation/DroneBuilding.java:20-22 | a count is positive exactly when some drone has that status |
| Drones.CountDrones | ServerProgram/src/main/java/edu/duke/ece651/hw2/simulation/DroneBuilding.java:48-76 | the counting loop returns the number of drones in the status, positive exactly when one exists |
| Drones.HasDrone | ServerProgram/src/main/java/edu/duke/ece651/hw2/simulation/DroneBuilding.java:20-22 | true exactly when some drone of the port is idle |
| Drones.FirstIdle | ServerProgram/src/main/java/edu/duke/ece651/hw2/simulation/DroneBuilding.java:29-35 | the index found is an idle drone with no idle drone before it, and none is found only when no drone is idle |
| Drones.DispatchMovesOneDrone | ServerProgram/src/main/java/edu/duke/ece651/hw2/simulation/DroneBuilding.java:24-37 | with an idle drone exactly one idle drone becomes active and no other drone changes; without one the fleet is unchanged; the fleet size never changes |
| Drones.UseDrone | ServerProgram/src/main/java/edu/duke/ece651/hw2/simulation/DroneBuilding.java:24-37 | the walk over the list gives the first idle drone the trip and activates it, which is the dispatch above |
| Drones.ConstructDrone | ServerProgram/src/main/java/edu/duke/ece651/hw2/simulation/DroneBuilding.java:79-86 | a port with 10 drones is unchanged, any other gains one new drone at the end |
| Drones.StepAll | ServerProgram/src/main/java/edu/duke/ece651/hw2/simulation/DroneBuilding.java:94-96 | every drone takes one step in place and the fleet keeps its size |
| Drones.PortStepSize | ServerProgram/src/main/java/edu/duke/ece651/hw2/simulation/DroneBuilding.java:90-98 | a step adds one drone exactly when the time is a multiple of 10 and the port holds fewer than 10; a port never exceeds 10 drones; existing drones keep their order |
| Drones.StepPort | ServerProgram/src/main/java/edu/duke/ece651/hw2/simulation/DroneBuilding.java:90-98 | the port step is maybe-construct then step every drone in list order |
| Drones.QuietRun | ServerProgram/src/main/java/edu/duke/ece651/hw2/simulation/DroneBuilding.java:90-98 | between construction times a port only steps its drones, each drone having taken n steps of its own |
| Drones.PortFirstEleven | ServerProgram/src/main/java/edu/duke/ece651/hw2/simulation/DroneBuilding.java:90-98 | a new port stepped at times 0 to 10 holds one idle drone and one drone with nine construction steps to go |
| Drones.PortTimeline | ServerProgram/src/main/java/edu/duke/ece651/hw2/simulation/DroneBuilding.java:24-37 | after the first eleven steps one drone is idle; sending it on a 10-step trip and stepping eleven more times leaves two idle drones and a third in construction |
| Buildings.NewBuilding | ServerProgram/src/main/java/edu/duke/ece651/hw2/simulation/BasicBuilding.java:28-36 | a new building keeps its name and sources and starts with an empty queue, no current request, empty storage, no location and no removal mark |
| Buildings.NewStorage | ServerProgram/src/main/java/edu/duke/ece651/hw2/simulation/StorageBuilding.java:28-35 | a new storage building keeps its item, capacity and priority, has no outstanding requests and starts empty |
| Buildings.NewDronePort | ServerProgram/src/main/java/edu/duke/ece651/hw2/simulation/DroneBuilding.java:14-17 | a new drone port has no drones and an empty queue |
| Buildings.AddRequest | ServerProgram/src/main/java/edu/duke/ece651/hw2/simulation/BasicBuilding.java:76-80 | the request is appended at the end of the queue and nothing else changes |
| Buildings.QueueLengthFacts | ServerProgram/src/main/java/edu/duke/ece651/hw2/simulation/BasicBuilding.java:82-86 | the queue length is zero exactly when the queue is empty and nothing is in progress, and each added request adds one |
| Buildings.DeliverItem | ServerProgram/src/main/java/edu/duke/ece651/hw2/simulation/StorageBuilding.java:111-127 | the item's count grows by the quantity and no other count changes; a storage building receiving its own item also lowers its outstanding count, never below 0 |
| Buildings.AddSource | ServerProgram/src/main/java/edu/duke/ece651/hw2/simulation/BasicBuilding.java:68-73 | a source already listed leaves the building unchanged, a new one is appended, and a duplicate-free source list stays duplicate-free |
| Buildings.ProvidedOutputsAgreeWithCanProduce | ServerProgram/src/main/java/edu/duke/ece651/hw2/simulation/FactoryBuilding.java:48-56 | outside drone ports a building can produce exactly the items it lists as provided; a mine lists only its item; a drone port lists nothing yet can produce "drone" |
| Buildings.RemovableIffIdle | ServerProgram/src/main/java/edu/duke/ece651/hw2/simulation/MineBuilding.java:66-75 | a mine, factory or drone port can be removed at once exactly when its queue length is zero |
| Buildings.MarkForRemoval | ServerProgram/src/main/java/edu/duke/ece651/hw2/simulation/BasicBuilding.java:206-209 | only the removal mark changes, and it is set |
| Buildings.StockedStorageScoresBelowQueues | ServerProgram/src/main/java/edu/duke/ece651/hw2/simulation/BasicBuilding.java:151-172 | a storage building holding the item scores below every building that is scored by queue length, so it is preferred as a source |
| Buildings.OptList | ServerProgram/src/main/java/edu/duke/ece651/hw2/simulation/MineBuilding.java:132-174 | a request or none becomes a list of at most one completed request |
| Buildings.Advance | ServerProgram/src/main/java/edu/duke/ece651/hw2/simulation/MineBuilding.java:134-145 | a request is completed exactly when one is in progress with one step left; the building is then free; with more steps left only the counter drops; otherwise nothing changes |
| Buildings.SelectFifo | ServerProgram/src/main/java/edu/duke/ece651/hw2/simulation/MineBuilding.java:175-183 | a mine takes the head of its queue and leaves the rest in order; an empty queue yields nothing |
| Buildings.MineStepFacts | ServerProgram/src/main/java/edu/duke/ece651/hw2/simulation/MineBuilding.java:132-174 | at most one completion per step; an idle mine is unchanged; a free mine's latency-1 head request completes in the same step; otherwise the head is left in progress with the full latency; a request taken right after a completion waits |
| Buildings.MineCompletesAfter | ServerProgram/src/main/java/edu/duke/ece651/hw2/simulation/MineBuilding.java:132-174 | a request with k steps left stays current for k - 1 steps and the k-th step returns it completed |
| Buildings.FirstReady | ServerProgram/src/main/java/edu/duke/ece651/hw2/simulation/FactoryBuilding.java:237-264 | the index found has a ready recipe and no earlier request is ready; none is found only when no request is ready |
| Buildings.CheckReady | ServerProgram/src/main/java/edu/duke/ece651/hw2/simulation/FactoryBuilding.java:240-252 | the ingredient loop answers true exactly when every ingredient is stocked in the required amount |
| Buildings.SelectReady | ServerProgram/src/main/java/edu/duke/ece651/hw2/simulation/FactoryBuilding.java:177-265 | the first ready request is removed and returned, the others keep their order; with none ready the queue is unchanged |
| Buildings.Consume | ServerProgram/src/main/java/edu/duke/ece651/hw2/simulation/FactoryBuilding.java:161-168 | each ingredient's count drops by exactly its amount (from 0 when absent) and every other count is kept |
| Buildings.ConsumeReadyStaysNonNegative | ServerProgram/src/main/java/edu/duke/ece651/hw2/simulation/FactoryBuilding.java:161-168 | consuming a ready recipe from non-negative stock never leaves a negative count |
| Buildings.ConsumeIngredients | ServerProgram/src/main/java/edu/duke/ece651/hw2/simulation/FactoryBuilding.java:161-168 | the loop over the recipe entries ends with exactly the consumed storage, whatever the entry order |
| Buildings.FactoryStepFacts | ServerProgram/src/main/java/edu/duke/ece651/hw2/simulation/FactoryBuilding.java:125-174 | at most one completion per step; a free factory takes the first ready request; with latency 1 it completes at once and nothing is consumed; otherwise it is in progress and exactly the recipe amounts are consumed; after a completion the next ready request is installed unchanged |
| Buildings.FactoryCompletesAfter | ServerProgram/src/main/java/edu/duke/ece651/hw2/simulation/FactoryBuilding.java:125-174 | a request with k steps left stays current for k - 1 steps with storage unchanged, and the k-th step returns it completed |
| Buildings.CeilDivIsLeast | ServerProgram/src/main/java/edu/duke/ece651/hw2/simulation/StorageBuilding.java:331-340 | the rounded-up quotient is the least q whose multiple of the divisor reaches the dividend |
| Buildings.SaturatingInt | ServerProgram/src/main/java/edu/duke/ece651/hw2/simulation/StorageBuilding.java:339 | the cast of a double to int lies within the 32-bit range and is the identity inside it |
| Buildings.ReplenishmentRule | ServerProgram/src/main/java/edu/duke/ece651/hw2/simulation/StorageBuilding.java:331-377 | with no remaining space no request is made; otherwise, for a positive priority, requests are made exactly on the multiples of the least f with 2 * R * P * f >= capacity |
| Buildings.StorageAccept | ServerProgram/src/main/java/edu/duke/ece651/hw2/simulation/StorageBuilding.java:129-196 | a request for another item is refused; one for the stored item is queued, served at once from stock (one unit taken, marked completed) exactly when stock is positive |
| Buildings.PartitionFacts | ServerProgram/src/main/java/edu/duke/ece651/hw2/simulation/StorageBuilding.java:200-209 | the completed and pending parts of a queue together hold every request exactly once, each with the right status |
| Buildings.DrainCompleted | ServerProgram/src/main/java/edu/duke/ece651/hw2/simulation/StorageBuilding.java:200-209 | the iterator loop moves out exactly the completed requests in order and keeps the pending ones in order |
| Buildings.MarkCompleted | ServerProgram/src/main/java/edu/duke/ece651/hw2/simulation/StorageBuilding.java:219-220 | every request of the list is marked completed, in place |
| Buildings.Served | ServerProgram/src/main/java/edu/duke/ece651/hw2/simulation/StorageBuilding.java:211-212 | the number served is at most the pending count, zero without stock, and either all pending requests or the whole stock |
| Buildings.StorageDrainFacts | ServerProgram/src/main/java/edu/duke/ece651/hw2/simulation/StorageBuilding.java:198-269 | every returned request is completed; no request is lost or duplicated; the served ones are the first pending ones; stock drops by one per served request and never below 0; either the queue is drained or the stock is used up |
| Buildings.StorageDrainCompleted | ServerProgram/src/main/java/edu/duke/ece651/hw2/simulation/StorageBuilding.java:198-269 | every request a storage drain returns is completed |
| Buildings.StorageDrainCounts | ServerProgram/src/main/java/edu/duke/ece651/hw2/simulation/StorageBuilding.java:198-269 | the drain keeps every request and takes one unit of stock per request served |
| TopologicalOrder.CountUnlistedZero | ServerProgram/src/main/java/edu/duke/ece651/hw2/simulation/BasicSimulation.java:176-184 | a building has no waiting source entries exactly when every present source it names is already listed |
| TopologicalOrder.CountUnlistedRemove | ServerProgram/src/main/java/edu/duke/ece651/hw2/simulation/BasicSimulation.java:199-200 | listing one more present building removes exactly its occurrences from a building's waiting count |
| TopologicalOrder.AddEdges | ServerProgram/src/main/java/edu/duke/ece651/hw2/simulation/BasicSimulation.java:178-183 | for one building, each present source gains one edge to it per occurrence in the source list and its in-degree grows by that many; no other in-degree changes |
| TopologicalOrder.ExtendEdges | ServerProgram/src/main/java/edu/duke/ece651/hw2/simulation/BasicSimulation.java:177-184 | adding the edges into one more building extends the graph invariant to it |
| TopologicalOrder.ExtendDegrees | ServerProgram/src/main/java/edu/duke/ece651/hw2/simulation/BasicSimulation.java:177-184 | counting one more building's present source entries extends the in-degree invariant to it |
| TopologicalOrder.BuildGraph | ServerProgram/src/main/java/edu/duke/ece651/hw2/simulation/BasicSimulation.java:169-184 | the graph has, for every present source, one edge to a building per occurrence in that building's sources, and each in-degree is the number of present source entries |
| TopologicalOrder.SourcesFirstAppend | ServerProgram/src/main/java/edu/duke/ece651/hw2/simulation/BasicSimulation.java:196-198 | appending a building whose present sources are all listed keeps every building after its sources |
| TopologicalOrder.ListingLowersDegrees | ServerProgram/src/main/java/edu/duke/ece651/hw2/simulation/BasicSimulation.java:199-204 | listing a building lowers every other building's waiting count by the number of edges into it, and every edge leads to a present building |
| TopologicalOrder.SeedQueue | ServerProgram/src/main/java/edu/duke/ece651/hw2/simulation/BasicSimulation.java:187-192 | the queue starts with exactly the buildings of in-degree 0, each once |
| TopologicalOrder.Release | ServerProgram/src/main/java/edu/duke/ece651/hw2/simulation/BasicSimulation.java:199-204 | each edge out of the listed building lowers its target's in-degree by one, and a target reaching 0 joins the back of the queue |
| TopologicalOrder.ReleaseEdge | ServerProgram/src/main/java/edu/duke/ece651/hw2/simulation/BasicSimulation.java:200-203 | releasing one more edge keeps the release invariant |
| TopologicalOrder.ListNext | ServerProgram/src/main/java/edu/duke/ece651/hw2/simulation/BasicSimulation.java:196-205 | one round polls the head of the queue, appends it to the order and keeps the algorithm's invariant, with the order never longer than the building count |
| TopologicalOrder.TopOrder | ServerProgram/src/main/java/edu/duke/ece651/hw2/simulation/BasicSimulation.java:167-208 | the order lists each building at most once and only present ones; every building comes after all of its present sources; every building left out waits on a present source that is left out too |
| TopologicalOrder.StuckMeansBlocked | ServerProgram/src/main/java/edu/duke/ece651/hw2/simulation/BasicSimulation.java:196 | when the queue runs dry, every building with a non-zero count waits on an unlisted present source |
| TopologicalOrder.IndexOf | ServerProgram/src/main/java/edu/duke/ece651/hw2/simulation/BasicSimulation.java:194-198 | the position found holds the element, and no earlier position does |
| TopologicalOrder.ChainListedBefore | ServerProgram/src/main/java/edu/duke/ece651/hw2/simulation/BasicSimulation.java:167-208 | along a chain of sources ending at a listed building, every building is listed, each strictly before the next |
| TopologicalOrder.CycleAndDownstreamOmitted | ServerProgram/src/main/java/edu/duke/ece651/hw2/simulation/BasicSimulation.java:167-208 | a building on a dependency cycle, or fed from one, is never listed |
| TopologicalOrder.AcyclicAllListed | ServerProgram/src/main/java/edu/duke/ece651/hw2/simulation/BasicSimulation.java:167-208 | when a rank grows strictly from each present source to the building it feeds, no building is left out |
| TopologicalOrder.RankBelowListed | ServerProgram/src/main/java/edu/duke/ece651/hw2/simulation/BasicSimulation.java:167-208 | every building whose rank is below n is listed |
| RoadNetwork.StepCost | ServerProgram/src/main/java/edu/duke/ece651/hw2/simulation/RoadMap.java:126 | stepping onto a cell costs 1 when a road is already there and 2 when one has to be built |
| RoadNetwork.PathCost | ServerProgram/src/main/java/edu/duke/ece651/hw2/simulation/RoadMap.java:171-172 | a path's cost is never below its length, so the cost counts steps plus new cells |
| RoadNetwork.SearchPathIsWalk | ServerProgram/src/main/java/edu/duke/ece651/hw2/simulation/RoadMap.java:113-205 | every cell of a path the search produces is adjacent to the one before it, the first to the source |
| RoadNetwork.MeasureDrops | ServerProgram/src/main/java/edu/duke/ece651/hw2/simulation/RoadMap.java:177-180 | the best-cost table only gains keys and only lowers costs, and any change shrinks the search's termination measure |
| RoadNetwork.OfferKeepsQueueOk | ServerProgram/src/main/java/edu/duke/ece651/hw2/simulation/RoadMap.java:147-180 | queueing an allowed move at its cost keeps every queued node consistent with a path the search can produce |
| RoadNetwork.CheapestIndex | ServerProgram/src/main/java/edu/duke/ece651/hw2/simulation/RoadMap.java:132-141 | the polled node has the least cost in the queue |
| RoadNetwork.RoadAt | ServerProgram/src/main/java/edu/duke/ece651/hw2/simulation/RoadMap.java:191 | the road at a cell is the stored one, or a new empty road when none is there |
| RoadNetwork.JoinCells | ServerProgram/src/main/java/edu/duke/ece651/hw2/simulation/RoadMap.java:187-202 | recording a move leaves roads on exactly the old cells plus both cells of the move |
| RoadNetwork.JoinCellsFacts | ServerProgram/src/main/java/edu/duke/ece651/hw2/simulation/RoadMap.java:187-202 | recording a move only adds: existing roads keep their directions and counts, the move is recorded as an exit and an entry side, and new roads carry no share |
| RoadNetwork.CommitRoads | ServerProgram/src/main/java/edu/duke/ece651/hw2/simulation/RoadMap.java:187-202 | after the loop every move of the path is recorded, only path cells and the start gained roads, and no old road lost anything |
| RoadNetwork.FreshRoad | ServerProgram/src/main/java/edu/duke/ece651/hw2/simulation/RoadMap.java:224-229 | a road built on an unpaved cell has no share, the move's direction as its exit and the opposite as its entry side |
| RoadNetwork.PaveKeepsNew | ServerProgram/src/main/java/edu/duke/ece651/hw2/simulation/RoadMap.java:224-229 | paving an unpaved path cell keeps every existing road untouched and adds a road without share on the path |
| RoadNetwork.PavedPrefixNew | ServerProgram/src/main/java/edu/duke/ece651/hw2/simulation/RoadMap.java:220-233 | paving the next unpaved cell extends the paved prefix of the path by one |
| RoadNetwork.PaveMissing | ServerProgram/src/main/java/edu/duke/ece651/hw2/simulation/RoadMap.java:220-233 | every path cell has a road afterwards; existing roads are unchanged; new roads lie on the path, are built from the move into them and carry no share |
| RoadNetwork.ShareAlong | ServerProgram/src/main/java/edu/duke/ece651/hw2/simulation/RoadMap.java:237-239 | each road's share count grows by the number of times its cell occurs on the path, and nothing else changes |
| RoadNetwork.Record | ServerProgram/src/main/java/edu/duke/ece651/hw2/simulation/RoadMap.java:236-241 | the connection is recorded afterwards; a recorded one is not added again |
| RoadNetwork.RecordKeepsNoDup | ServerProgram/src/main/java/edu/duke/ece651/hw2/simulation/RoadMap.java:236-241 | recording keeps the connection list free of repeats |
| RoadNetwork.ReachOne | ServerProgram/src/main/java/edu/duke/ece651/hw2/simulation/RoadMap.java:294-301 | nothing is reached in zero cells, and in one cell exactly the roads next to the source are |
| RoadNetwork.ClosedCoversReach | ServerProgram/src/main/java/edu/duke/ece651/hw2/simulation/RoadMap.java:304-335 | a set holding the seeds and closed under linked moves holds every reachable road |
| RoadNetwork.FoundIsLeast | ServerProgram/src/main/java/edu/duke/ece651/hw2/simulation/RoadMap.java:304-312 | when the polled road is next to the destination, its distance is the least number of road cells that reaches the destination |
| RoadNetwork.ExhaustedUnreachable | ServerProgram/src/main/java/edu/duke/ece651/hw2/simulation/RoadMap.java:304-335 | when the queue runs dry no walk along linked roads reaches a cell next to the destination |
| RoadNetwork.SeedWalk | ServerProgram/src/main/java/edu/duke/ece651/hw2/simulation/RoadMap.java:294-301 | every road next to the source is queued at distance 1, and only those |
| RoadNetwork.VisitCell | ServerProgram/src/main/java/edu/duke/ece651/hw2/simulation/RoadMap.java:320-334 | every road the polled cell links to (its exit and the neighbour's matching entry side) is discovered afterwards, new ones one level further |
| RoadNetwork.Poll | ServerProgram/src/main/java/edu/duke/ece651/hw2/simulation/RoadMap.java:304-335 | one round either stops with the least distance, when the head is next to the destination, or keeps the search invariant and makes progress |
| RoadNetwork.WalkDistance | ServerProgram/src/main/java/edu/duke/ece651/hw2/simulation/RoadMap.java:287-335 | the result is -1 exactly when no walk along linked roads reaches the destination; otherwise it is one more than the least number of road cells needed |
| RoadNetwork.ReleaseOne | ServerProgram/src/main/java/edu/duke/ece651/hw2/simulation/RoadMap.java:566-574 | one path occurrence takes a share from its road, deleting the road when the count falls to 0 or below; a cell without a road is skipped |
| RoadNetwork.Release | ServerProgram/src/main/java/edu/duke/ece651/hw2/simulation/RoadMap.java:562-574 | each road on the path loses one share per occurrence and survives exactly when it had more shares than occurrences; roads off the path are unchanged; every surviving path road stays in the remaining list |
| RoadNetwork.Prune | ServerProgram/src/main/java/edu/duke/ece651/hw2/simulation/RoadMap.java:584-588 | a road survives exactly when it is not in the remaining list or some recomputed path uses it; survivors are unchanged |
| RoadNetwork.ComplexRemovalFacts | ServerProgram/src/main/java/edu/duke/ece651/hw2/simulation/RoadMap.java:551-592 | after the four stages every road off the removed path keeps its share count, and every road still on the removed path, or newly built, is used by a remaining connection's path |
| RoadNetwork.Lay | ServerProgram/src/main/java/edu/duke/ece651/hw2/simulation/RoadMap.java:220-241 | every path cell holds a road and new roads lie on the path or the source cell; existing roads keep their place and directions, a searched path has its moves recorded, the fresh road of an adjacent pair faces from the source; a connection not yet recorded adds one share per occurrence along the path and is recorded |
| RoadNetwork.RoadMap.constructor | ServerProgram/src/main/java/edu/duke/ece651/hw2/simulation/RoadMap.java:47-50 | a new map has no roads, no buildings and no connections |
| RoadNetwork.RoadMap.AddBuilding | ServerProgram/src/main/java/edu/duke/ece651/hw2/simulation/RoadMap.java:52-56 | a building with a location occupies that cell, one without changes nothing; roads and connections are untouched |
| RoadNetwork.RoadMap.RemoveBuilding | ServerProgram/src/main/java/edu/duke/ece651/hw2/simulation/RoadMap.java:467-469 | exactly the given cell is freed and nothing else changes |
| RoadNetwork.RoadMap.RemoveRoad | ServerProgram/src/main/java/edu/duke/ece651/hw2/simulation/RoadMap.java:475-477 | exactly the road at the given cell is gone and nothing else changes |
| RoadNetwork.RoadMap.GetConnections | ServerProgram/src/main/java/edu/duke/ece651/hw2/simulation/RoadMap.java:482-484 | the connection list, as recorded |
| RoadNetwork.RoadMap.StartNodes | ServerProgram/src/main/java/edu/duke/ece651/hw2/simulation/RoadMap.java:118-137 | the four start nodes are the source's neighbours at their step cost, each consistent with a search path |
| RoadNetwork.RoadMap.Expand | ServerProgram/src/main/java/edu/duke/ece651/hw2/simulation/RoadMap.java:147-181 | every allowed move (inside the 0..50 grid, not onto a building, agreeing with existing exit and entry sides) that improves its key is queued; costs only fall and the queue stays consistent |
| RoadNetwork.RoadMap.Search | ServerProgram/src/main/java/edu/duke/ece651/hw2/simulation/RoadMap.java:132-184 | the node found, if any, ends next to the goal and its path is one the search can produce, with its cost the sum of the step costs |
| RoadNetwork.RoadMap.Commit | ServerProgram/src/main/java/edu/duke/ece651/hw2/simulation/RoadMap.java:187-202 | every move of the chosen path is recorded on the roads, creating missing ones, and buildings and connections are unchanged |
| RoadNetwork.RoadMap.OptimalPath | ServerProgram/src/main/java/edu/duke/ece651/hw2/simulation/RoadMap.java:113-205 | no path without both locations; the destination cell alone for adjacent buildings, with no change; otherwise a search path ending next to the destination whose moves are then recorded on the roads |
| RoadNetwork.RoadMap.CreatePath | ServerProgram/src/main/java/edu/duke/ece651/hw2/simulation/RoadMap.java:214-242 | the path has the shape the optimal-path search gives on the roads before the call; with no path nothing changes; otherwise every path cell holds a road, new roads lie on the path or the source cell, existing roads stay where they are and keep every direction they had, a searched path has every move recorded as an exit of its cell and an entry of the next, the fresh road of an adjacent pair faces from the source, and a connection not yet recorded is recorded and adds one share per occurrence along the path (a recorded one adds none) |
| RoadNetwork.RoadMap.RoadDistance | ServerProgram/src/main/java/edu/duke/ece651/hw2/simulation/RoadMap.java:276-336 | -1 without both locations, 0 for adjacent buildings, and otherwise the least walk distance along linked roads, or -1 when there is none |
| RoadNetwork.RoadMap.SimpleRemoval | ServerProgram/src/main/java/edu/duke/ece651/hw2/simulation/RoadMap.java:492-506 | an unrecorded connection changes nothing; otherwise it is removed and the remaining connections stay recorded in order, every share count is 0, and the roads are exactly a re-laying of their paths (`Relaid`): one path per remaining connection with the shape the search gives (an adjacent pair's is its destination cell), every path cell a road, every searched path's moves recorded, and no road off the paths but a source cell |
| RoadNetwork.RoadMap.Recompute | ServerProgram/src/main/java/edu/duke/ece651/hw2/simulation/RoadMap.java:577-581 | every remaining connection's path is recomputed with the ends the search gives (an adjacent pair's is its destination cell), its cells collected, and the roads only grow |
| RoadNetwork.RoadMap.ComplexRemoval | ServerProgram/src/main/java/edu/duke/ece651/hw2/simulation/RoadMap.java:551-592 | an unrecorded connection changes nothing; otherwise it is removed, roads off its path keep their counts, and a road left on its path is one that some remaining connection's path uses |
| Logistics.UpdateEvolves | ServerProgram/src/main/java/edu/duke/ece651/hw2/simulation/BasicBuilding.java:189-190 | replacing a building by a copy whose queue only grew, with new requests carrying freshly drawn ids, is a permitted evolution of the simulation state |
| Logistics.CreditEvolves | ServerProgram/src/main/java/edu/duke/ece651/hw2/simulation/BasicBuilding.java:88-91 | crediting an item changes only stock counts and a storage's outstanding count |
| Logistics.FlyFacts | ServerProgram/src/main/java/edu/duke/ece651/hw2/simulation/DroneBuilding.java:24-37 | a port that can fly the trip sends exactly one more drone (one fewer idle, one more active), and the flight takes no longer there and back than one way |
| Logistics.FindPort | ServerProgram/src/main/java/edu/duke/ece651/hw2/simulation/RoadMap.java:248-264 | the port found is registered at a cell, has an idle drone and both source and destination within 20 of it; none is found only when no registered port qualifies |
| Logistics.ShortestDistance | ServerProgram/src/main/java/edu/duke/ece651/hw2/simulation/RoadMap.java:276-350 | -1 without both locations; otherwise the road distance, unless a port that can fly the trip is faster or the road has no way, in which case one drone is sent and its flight time returned; a drone never makes the answer worse than the road and reaches where the road cannot; the answer is non-negative exactly when the buildings are `Connected` (joined by road, or some registered port can fly the trip), and a negative answer is -1 and sends no drone |
| Logistics.RoadDistanceSign | ServerProgram/src/main/java/edu/duke/ece651/hw2/simulation/RoadMap.java:279-336 | the road distance is -1 exactly when the buildings are not both located, not adjacent and no road search from the source reaches a cell next to the destination, and it is never below -1 |
| Logistics.FlownEvolves | ServerProgram/src/main/java/edu/duke/ece651/hw2/simulation/RoadMap.java:339-347 | a distance query that sends a drone changes only that port's fleet |
| Logistics.OutcomeSameWork | ServerProgram/src/main/java/edu/duke/ece651/hw2/simulation/RoadMap.java:339-347 | a distance query leaves every building's queue, storage and work in progress untouched |
| Logistics.Transit | ServerProgram/src/main/java/edu/duke/ece651/hw2/simulation/MineBuilding.java:98-106 | the transit time is 0 without both locations and otherwise the shortest distance with a negative one counted as 0; only drone fleets change |
| Logistics.CreditFrame | ServerProgram/src/main/java/edu/duke/ece651/hw2/simulation/BasicBuilding.java:88-91 | a credit changes only the building it reaches and keeps the building table's names |
| Logistics.SendUnit | ServerProgram/src/main/java/edu/duke/ece651/hw2/simulation/MineBuilding.java:94-123 | (`Sent`) with both ends located the transit is the road distance the shortest-distance search returns, a negative one counted as 0; with an end unlocated it is 0 and no drone flies; a positive transit schedules one delivery of the unit at the current time plus the transit, otherwise the unit is credited to the receiver at once; only drone ports and the receiver change and the id counter is untouched |
| Logistics.SelectSource | ServerProgram/src/main/java/edu/duke/ece651/hw2/simulation/BasicBuilding.java:141-178 | a listed source missing from the table is an error naming the first missing source; otherwise the choice is an eligible (can produce, not marked) source of least score below Integer.MAX_VALUE, earlier sources winning ties; none means every eligible source scores at least Integer.MAX_VALUE |
| Logistics.FindCompletedUser | ServerProgram/src/main/java/edu/duke/ece651/hw2/simulation/StorageBuilding.java:389-396 | true exactly when a completed user request for the item waits in the queue |
| Logistics.Assign | ServerProgram/src/main/java/edu/duke/ece651/hw2/simulation/BasicBuilding.java:189-190 | the next id is drawn whatever happens; a storage refuses another item and nothing else changes; otherwise the target becomes what `addRequest` leaves (a storage with stock takes one unit out and records the request completed, every other building queues it), its queue gains exactly that request, and a unit taken from stock is then sent to the requestor as `Sent` says; every other queue is unchanged |
| Logistics.ProcessIngredients | ServerProgram/src/main/java/edu/duke/ece651/hw2/simulation/StorageBuilding.java:380-464 | a storage requests its own item and refuses any other; a building whose recipe is missing fails and one without ingredients does nothing; a storage with a completed user request waiting does nothing; a successful run does what the building's kind asks (`Follows`: `Supplied` or `Replenished`) and is traced: request ids consecutive from the counter in the order the requests are made, the counter advanced by their number, every queue grown by exactly the requests sent to it, each unit recursing into its source before the next |
| Logistics.Supply | ServerProgram/src/main/java/edu/duke/ece651/hw2/simulation/BasicBuilding.java:107-196 | a missing recipe is an error, a recipe without ingredients changes nothing, and a successful run with some positive ingredient amount draws at least one request id; a successful run hands out one unit per unit of the recipe, in the recipe's order, each a request for that ingredient's recipe attributed to the building and assigned to the source `SelectSource` picks on the table of its moment, run one after the other (`Supplied`) and traced |
| Logistics.SupplyOrder | ServerProgram/src/main/java/edu/duke/ece651/hw2/simulation/BasicBuilding.java:125-195 | the ingredient loop: the state only evolves, and a successful run has handed out, one after the other, one traced unit for each entry of the recipe's `Units` |
| Logistics.SupplyIngredient | ServerProgram/src/main/java/edu/duke/ece651/hw2/simulation/BasicBuilding.java:131-194 | `count` units of one ingredient (none when the count is not positive) appended, one after the other, to the units so far |
| Logistics.SupplyOne | ServerProgram/src/main/java/edu/duke/ece651/hw2/simulation/BasicBuilding.java:139-193 | one unit of an ingredient appended to the units so far, picked among the building's sources on the current table |
| Logistics.DispatchUnit | ServerProgram/src/main/java/edu/duke/ece651/hw2/simulation/BasicBuilding.java:140-193 | "No building can produce" is returned, with no id drawn, exactly when every listed source exists and none that is eligible scores below Integer.MAX_VALUE; otherwise a successful unit is a fresh non-user request for the recipe attributed to the building, assigned to the source `SelectSource` picks, whose own dispatch for the item follows, and is traced |
| Logistics.ExpandCounts | ServerProgram/src/main/java/edu/duke/ece651/hw2/simulation/BasicBuilding.java:129-133 | the units asked for list each ingredient exactly as many times as the recipe's order names it times its amount when positive |
| Logistics.Replenish | ServerProgram/src/main/java/edu/duke/ece651/hw2/simulation/StorageBuilding.java:380-464 | another item is refused; a waiting completed user request means nothing is done; otherwise a successful run assigns at least one request: one fresh non-user request for the stored item's recipe attributed to the storage, assigned to the source picked among the storage's sources, whose own dispatch follows, after which the storage counts one more outstanding request (`Replenished`), traced; the state only evolves |
| Logistics.ReplenishStep | ServerProgram/src/main/java/edu/duke/ece651/hw2/simulation/StorageBuilding.java:456-463 | after the unit and its source's dispatch, the storage, found again in the table, counts one more outstanding request; the result is `Replenished` and traced |
| Logistics.FleetsOnlyEligible | ServerProgram/src/main/java/edu/duke/ece651/hw2/simulation/BasicSimulation.java:457-461 | a building still eligible after fleet changes was eligible before |
| Logistics.OutcomeFleetsOnly | ServerProgram/src/main/java/edu/duke/ece651/hw2/simulation/RoadMap.java:339-347 | a distance query changes at most one drone port's fleet |
| Logistics.FindConnectedSource | ServerProgram/src/main/java/edu/duke/ece651/hw2/simulation/BasicSimulation.java:446-473 | the answer and the appended errors are exactly `Scan`'s on the table the search starts from; no answer changes nothing; the source found is listed, exists and is eligible; with no sources nothing changes; only drone fleets change |
| Logistics.ScanSome | ServerProgram/src/main/java/edu/duke/ece651/hw2/simulation/BasicSimulation.java:446-473 | an answer is the first listed source that exists, is eligible and is connected, and the search reports nothing exactly when every source before it exists and is not eligible |
| Logistics.ScanNone | ServerProgram/src/main/java/edu/duke/ece651/hw2/simulation/BasicSimulation.java:446-475 | no answer means no listed eligible source is connected, and the search then reports nothing exactly when every source exists and none is eligible |
| Logistics.ValidateConnections | ServerProgram/src/main/java/edu/duke/ece651/hw2/simulation/BasicSimulation.java:423-485 | errors are only appended and only drone fleets change; a missing recipe is a crash; a recipe without ingredients adds nothing; a building with no sources whose recipe needs some unit gets an error; without a crash the walk is traced: one unit per unit of the recipe in order, each unit's answer `Scan`'s on the table of its moment and checked in turn for the ingredient (`Steps`, `Checked`), and the errors added are exactly the trace's `Reports` |
| Logistics.CheckOrder | ServerProgram/src/main/java/edu/duke/ece651/hw2/simulation/BasicSimulation.java:436-484 | the ingredient loop: only fleets change, and without a crash one checked unit per entry of the recipe's `Units`, their reports appended |
| Logistics.CheckIngredient | ServerProgram/src/main/java/edu/duke/ece651/hw2/simulation/BasicSimulation.java:439-483 | `count` checked units of one ingredient appended to the units so far, with their reports |
| Logistics.CheckOne | ServerProgram/src/main/java/edu/duke/ece651/hw2/simulation/BasicSimulation.java:446-482 | one unit: the source search, "no source" when it has no answer, otherwise the answer checked in turn for the ingredient; the errors added are the unit's `Reports` |
| Logistics.SilentIffClean | ServerProgram/src/main/java/edu/duke/ece651/hw2/simulation/BasicSimulation.java:423-485 | a checked walk reports nothing exactly when every unit, at every depth, finds as its first eligible source a connected one and every source listed before it exists and is not eligible (`Clean`) |
| Ticks.SendCompleted | ServerProgram/src/main/java/edu/duke/ece651/hw2/simulation/MineBuilding.java:90-129 | a completed request made by another building sends one unit to its requestor, a user request sends nothing; besides drone ports only the requestor changes and no request id is drawn |
| Ticks.StartFacts | ServerProgram/src/main/java/edu/duke/ece651/hw2/simulation/FactoryBuilding.java:142-171 | the start phase completes a request only when nothing completed earlier in the step, and the completed request is marked completed |
| Ticks.StartAgrees | ServerProgram/src/main/java/edu/duke/ece651/hw2/simulation/FactoryBuilding.java:142-171 | the start phase depends only on the queue, the request in progress, the kind and the stock, so a delivery elsewhere cannot change it |
| Ticks.SendIfDone | ServerProgram/src/main/java/edu/duke/ece651/hw2/simulation/FactoryBuilding.java:77-121 | delivering an optional completion changes no queue, request in progress or remaining time, and besides drone ports only the addressed requestor |
| Ticks.AdvanceTick | ServerProgram/src/main/java/edu/duke/ece651/hw2/simulation/MineBuilding.java:132-145 | the request in progress advances as Advance says and, when it completes, its unit is sent |
| Ticks.StartTick | ServerProgram/src/main/java/edu/duke/ece651/hw2/simulation/MineBuilding.java:147-172 | the next request is started on the building as it now is, and a request completing at once sends its unit |
| Ticks.ProducerTick | ServerProgram/src/main/java/edu/duke/ece651/hw2/simulation/FactoryBuilding.java:125-174 | (`ProducerStepped`) a mine or factory step returns at most one request, completed, and draws no id; without self-supply its queue, request in progress, remaining time and completions are exactly those of the pure step; deliveries only grow; besides drone ports only the building and the requestors of completed requests change |
| Ticks.ServeOne | ServerProgram/src/main/java/edu/duke/ece651/hw2/simulation/StorageBuilding.java:211-267 | one round takes one unit of stock, completes the head pending request, removes it and sends its unit |
| Ticks.Fulfil | ServerProgram/src/main/java/edu/duke/ece651/hw2/simulation/StorageBuilding.java:210-268 | serving stops only when the queue is drained or stock is gone; without self-supply exactly min(stock, pending) requests are served, one unit each, from the front |
| Ticks.DrainMatches | ServerProgram/src/main/java/edu/duke/ece651/hw2/simulation/StorageBuilding.java:198-269 | the served state and the completed list of the loop are those of the pure storage drain |
| Ticks.AllCompleted | ServerProgram/src/main/java/edu/duke/ece651/hw2/simulation/StorageBuilding.java:198-269 | the completed requests followed by the served ones are all completed |
| Ticks.StorageServe | ServerProgram/src/main/java/edu/duke/ece651/hw2/simulation/StorageBuilding.java:198-269 | the returned requests are the completed ones followed by a prefix of the pending ones, all completed; without self-supply they and the storage are those of the pure drain; no id is drawn |
| Ticks.StorageTick | ServerProgram/src/main/java/edu/duke/ece651/hw2/simulation/StorageBuilding.java:198-276 | (`StorageStepped`) the returned requests are the completed ones followed by a prefix of the pending ones, all completed; without self-supply they are the drain's, no id is drawn on a time step the replenishment rule does not pick, and a successful replenishment draws one; a successful step makes at most one replenishment unit, traced (ids consecutive from the counter); without self-supply it makes one exactly when the rule picks the time step for the drained storage, space remains, the item has a recipe and no completed user request waits, leaving the storage as drained otherwise and, when it does, starting from the drained storage and ending `Replenished` |
| Ticks.PortTick | ServerProgram/src/main/java/edu/duke/ece651/hw2/simulation/DroneBuilding.java:90-98 | (`PortStepped`) the port's fleet takes exactly one port step and every other building and the deliveries and counter are unchanged |
| Ticks.TickBuilding | ServerProgram/src/main/java/edu/duke/ece651/hw2/simulation/BasicSimulation.java:221-226 | the tick is `Stepped`: a drone port's step is `PortStepped` and returns nothing, a storage's is `StorageStepped`, a mine's or factory's is `ProducerStepped`; only a storage can throw or hand out replenishment units, and every returned request is completed |
| Ticks.TickedKeepsPriorities | ServerProgram/src/main/java/edu/duke/ece651/hw2/simulation/BasicSimulation.java:221-226 | a time step keeps every storage's priority valid |
| Ticks.TickAll | ServerProgram/src/main/java/edu/duke/ece651/hw2/simulation/BasicSimulation.java:217-226 | (`Swept`) the ticks are one `Stepped` step per name of the order present in the table, in that order, each starting where the previous one ended; the returned requests are their requests in that order; an exception ends the loop at the throwing building, after a prefix of the order; without storage buildings nothing can throw |
| Ticks.SweepAt | ServerProgram/src/main/java/edu/duke/ece651/hw2/simulation/BasicSimulation.java:221-226 | one name of the loop: a name no longer in the table is passed over; a present building takes its `Stepped` step, extending the trace; only a storage can stop the loop, which then ends `Swept` |
| Ticks.DueLaterPartition | ServerProgram/src/main/java/edu/duke/ece651/hw2/simulation/BasicSimulation.java:243-267 | the due and the later deliveries together are the delivery list, nothing lost or duplicated |
| Ticks.DueLaterTimes | ServerProgram/src/main/java/edu/duke/ece651/hw2/simulation/BasicSimulation.java:247 | the due deliveries are exactly those at or before the current time and the later ones all after it |
| Ticks.CreditAllFrame | ServerProgram/src/main/java/edu/duke/ece651/hw2/simulation/BasicSimulation.java:249 | crediting keeps every building's persistent part and leaves a building no delivery is addressed to unchanged |
| Ticks.Arrive | ServerProgram/src/main/java/edu/duke/ece651/hw2/simulation/BasicSimulation.java:243-267 | the due deliveries are credited in list order and removed; the later ones stay in order |
| Ticks.ArriveLeavesNothingDue | ServerProgram/src/main/java/edu/duke/ece651/hw2/simulation/BasicSimulation.java:243-267 | after arrival no remaining delivery is due and the buildings persist |
| Simulations.Construct | ServerProgram/src/main/java/edu/duke/ece651/hw2/simulation/BasicSimulation.java:502-539 | a building of a known category starts with the generated name and serial, no sources, an empty queue and storage, no location and no removal flag; a storage starts with nothing outstanding and the type's priority; any other category is refused with "Unknown building type: " and the category |
| Simulations.Survivors | ServerProgram/src/main/java/edu/duke/ece651/hw2/simulation/BasicSimulation.java:273-285 | a building survives the removal sweep exactly when it is not both flagged and removable, and survivors are untouched |
| Simulations.DoomedNames | ServerProgram/src/main/java/edu/duke/ece651/hw2/simulation/BasicSimulation.java:274-280 | the collected list holds each flagged, removable building exactly once and nothing else |
| Simulations.TouchingConnections | ServerProgram/src/main/java/edu/duke/ece651/hw2/simulation/BasicSimulation.java:599-606 | a connection is collected exactly when it starts or ends at the removed building |
| Simulations.JoinEmpty | ServerProgram/src/main/java/edu/duke/ece651/hw2/simulation/BasicSimulation.java:411-417 | the connection report is empty exactly when no missing connection was found, which is why an empty report means "no error" |
| Simulations.DropFacts | ServerProgram/src/main/java/edu/duke/ece651/hw2/simulation/BasicSimulation.java:229-233 | removing completed user requests only removes open ids, keeps every id no completed user request carries, keeps the open list duplicate-free, and leaves no completed user request open when ids are unique |
| Simulations.AcceptUserRequest | ServerProgram/src/main/java/edu/duke/ece651/hw2/simulation/BasicSimulation.java:395-399 | the request counter advances; a storage refuses a user request for another item with that error and nothing else changed; on success the request is `Admitted` (the building is what `addRequest` leaves, the counter is drawn) and then its ingredients are dispatched as `Follows` and `Traced` describe; the building's old queue stays a prefix and the new user request, with the counter's old value, the recipe and the current time, follows it |
| Simulations.Admit | ServerProgram/src/main/java/edu/duke/ece651/hw2/simulation/StorageBuilding.java:129-183 | a user request is refused exactly when it reaches a storage building for an item it does not store; otherwise the queue grows by exactly this request, possibly already completed from stock |
| Simulations.AdmitEvolves | ServerProgram/src/main/java/edu/duke/ece651/hw2/simulation/BasicSimulation.java:395-397 | admitting a user request with the next id is a permitted evolution of the simulation state |
| Simulations.KeepsHead | ServerProgram/src/main/java/edu/duke/ece651/hw2/simulation/BasicBuilding.java:189-190 | every permitted evolution keeps the first entries of each queue as they were |
| Simulations.Simulation.constructor | ServerProgram/src/main/java/edu/duke/ece651/hw2/simulation/BasicSimulation.java:42-62 | time 0, counter 0, rate 1, verbosity 0, no open requests or deliveries, an empty road map on which every building that has a location is registered at its cell |
| Simulations.Simulation.SetVerbosity | ServerProgram/src/main/java/edu/duke/ece651/hw2/simulation/BasicSimulation.java:333-335 | the verbosity is the given level and nothing else changes |
| Simulations.Simulation.SetRate | ServerProgram/src/main/java/edu/duke/ece651/hw2/simulation/BasicSimulation.java:778-786 | the time rate is the given rate (0 to pause) and nothing else changes |
| Simulations.Simulation.NextRequestId | ServerProgram/src/main/java/edu/duke/ece651/hw2/simulation/BasicSimulation.java:124-126 | the id handed out is the counter's old value and the counter moves on by one |
| Simulations.Simulation.AddRequest | ServerProgram/src/main/java/edu/duke/ece651/hw2/simulation/BasicSimulation.java:113-116 | the request joins the end of the open list and the counter moves on by one, so ids stay fresh |
| Simulations.Simulation.ProcessDelayedDeliveries | ServerProgram/src/main/java/edu/duke/ece651/hw2/simulation/BasicSimulation.java:243-267 | every delivery due now is credited to its destination in list order and leaves the list; exactly the later ones remain, so none left is due |
| Simulations.Simulation.PerformRemove | ServerProgram/src/main/java/edu/duke/ece651/hw2/simulation/BasicSimulation.java:594-623 | the building leaves the table; every connection touching it goes and every other one stays; its cell no longer holds a building |
| Simulations.Simulation.CheckBuildingsMarkedForRemoval | ServerProgram/src/main/java/edu/duke/ece651/hw2/simulation/BasicSimulation.java:273-285 | the table becomes the survivors of the sweep, no connection touches a removed building, and no connection is added |
| Simulations.Simulation.SingleStep | ServerProgram/src/main/java/edu/duke/ece651/hw2/simulation/BasicSimulation.java:214-237 | due deliveries are credited and removed first; the building loop then runs from that plant in a topological order of the source graph, every building's step as `Swept` describes; on an exception the plant is left where the loop stopped and the open list is unchanged; otherwise exactly the completed user requests leave the open list and the flagged, removable buildings are removed; the clock is not moved and ids stay fresh |
| Simulations.Simulation.StepBuildings | ServerProgram/src/main/java/edu/duke/ece651/hw2/simulation/BasicSimulation.java:217-226 | the order is a topological order of the source graph, and the building loop over it is `Swept` and `AllStepped`: one step per present building in that order, each its kind's step, the completed requests collected in order; the names and the open list are kept |
| Simulations.Simulation.RemoveCompleted | ServerProgram/src/main/java/edu/duke/ece651/hw2/simulation/BasicSimulation.java:229-233 | the open list loses exactly the completed user requests, none of which stays open when ids are unique |
| Simulations.Simulation.Step | ServerProgram/src/main/java/edu/duke/ece651/hw2/simulation/BasicSimulation.java:155-165 | a count is rejected exactly when negative, with nothing changed; otherwise the clock advances by exactly the count, or by fewer steps when a step throws |
| Simulations.Simulation.Finish | ServerProgram/src/main/java/edu/duke/ece651/hw2/simulation/BasicSimulation.java:318-325 | finishing means no error and no open user request; without open requests it finishes at once without moving the clock; otherwise the clock moves forward by at most the round bound |
| Simulations.Simulation.HandleRequest | ServerProgram/src/main/java/edu/duke/ece651/hw2/simulation/BasicSimulation.java:372-401 | an unknown building, an unknown recipe and a building that cannot make the item are each refused with their message and leave the buildings as they were; otherwise the connection walk runs, traced in `probes` (`Steps`, each probe `Checked`), and its messages are `Reports` of that trace; a non-empty report is refused with the joined messages; whenever the open list is unchanged the call failed and the counter and the deliveries are unchanged, the walk having moved only drone fleets; on success the open list gains the counter's old value, the request is admitted and dispatched from the walked table (`Dispatched`) and the building's queue gains that user request |
| Simulations.Simulation.Enqueue | ServerProgram/src/main/java/edu/duke/ece651/hw2/simulation/BasicSimulation.java:395-399 | the open list gains the counter's old value; on success the request is admitted and its ingredients dispatched from the current table (`Dispatched`), and the building's queue keeps its old entries and gains the new user request |
| Simulations.Simulation.Build | ServerProgram/src/main/java/edu/duke/ece651/hw2/simulation/BasicSimulation.java:488-575 | an occupied cell and an unknown type are refused with their messages and change nothing; otherwise the new building gets the first name of the form sanitised-type, underscore, number that is not taken, sits at the cell and is registered there, and nothing else changes |
| Simulations.Simulation.RemoveBuilding | ServerProgram/src/main/java/edu/duke/ece651/hw2/simulation/BasicSimulation.java:579-591 | an unknown name is refused with nothing changed; an idle building is removed with every connection touching it; any other building is only flagged for removal |
| Simulations.Simulation.Connect | ServerProgram/src/main/java/edu/duke/ece651/hw2/simulation/BasicSimulation.java:640-657 | an unknown source or destination is refused with its message; otherwise the source is added to the destination's sources once, and the connection is recorded exactly when a path was found |
| Simulations.Simulation.SimpleRemove | ServerProgram/src/main/java/edu/duke/ece651/hw2/simulation/BasicSimulation.java:765-770 | the connection between two existing buildings leaves the connection list once, and nothing changes when it was not there |
| Simulations.Simulation.ComplexRemove | ServerProgram/src/main/java/edu/duke/ece651/hw2/simulation/BasicSimulation.java:772-777 | the connection between two existing buildings leaves the connection list once, and nothing changes when it was not there |
| Commands.TrimStart | ServerProgram/src/main/java/edu/duke/ece651/hw2/simulation/CommandProcessor.java:34 | the leading part `trim` drops is all blank and what is kept starts with a non-blank character |
| Commands.TrimEnd | ServerProgram/src/main/java/edu/duke/ece651/hw2/simulation/CommandProcessor.java:34 | the trailing part `trim` drops is all blank and what is kept ends with a non-blank character |
| Commands.TrimEnds | ServerProgram/src/main/java/edu/duke/ece651/hw2/simulation/CommandProcessor.java:34 | a trimmed command line is empty or starts and ends with a non-blank character |
| Commands.TrimSlice | ServerProgram/src/main/java/edu/duke/ece651/hw2/simulation/CommandProcessor.java:34 | the trimmed line is a stretch of the input with only blanks before and after it |
| Commands.TrimIdempotent | ServerProgram/src/main/java/edu/duke/ece651/hw2/simulation/CommandProcessor.java:34 | trimming an already trimmed line changes nothing |
| Commands.TrimUnchanged | ServerProgram/src/main/java/edu/duke/ece651/hw2/simulation/CommandProcessor.java:34 | a line with non-blank ends is its own trim |
| Commands.IndexOfChar | ServerProgram/src/main/java/edu/duke/ece651/hw2/simulation/CommandProcessor.java:40-44 | the quote search answers -1 or a position at or after the start that holds the quote |
| Commands.IndexOfCharFirst | ServerProgram/src/main/java/edu/duke/ece651/hw2/simulation/CommandProcessor.java:40-44 | the quote search passes over no quote, and answers -1 only when there is no quote from the start on |
| Commands.IndexOfCharIs | ServerProgram/src/main/java/edu/duke/ece651/hw2/simulation/CommandProcessor.java:40-44 | the first quote at or after the start is the one the search finds |
| Commands.IndexOfWord | ServerProgram/src/main/java/edu/duke/ece651/hw2/simulation/CommandProcessor.java:42 | the search for "from" or "to" answers -1 or a position at or after the start where the word occurs |
| Commands.IndexOfWordFirst | ServerProgram/src/main/java/edu/duke/ece651/hw2/simulation/CommandProcessor.java:42 | the word search passes over no occurrence, and answers -1 only when there is none |
| Commands.IndexOfWordIs | ServerProgram/src/main/java/edu/duke/ece651/hw2/simulation/CommandProcessor.java:84 | the first occurrence at or after the start is the one the word search finds |
| Commands.SplitRaw | ServerProgram/src/main/java/edu/duke/ece651/hw2/simulation/CommandProcessor.java:137 | splitting at runs of white space gives at least one piece, and no more pieces than the limit |
| Commands.SplitHead | ServerProgram/src/main/java/edu/duke/ece651/hw2/simulation/CommandProcessor.java:53 | a first word followed by white space is the first piece and the rest is split with one fewer piece allowed |
| Commands.SplitSolid | ServerProgram/src/main/java/edu/duke/ece651/hw2/simulation/CommandProcessor.java:150 | a text without white space splits into itself |
| Commands.SplitWords | ServerProgram/src/main/java/edu/duke/ece651/hw2/simulation/CommandProcessor.java:53-54 | words joined by single spaces split back into those words; with a limit equal to the word count the last word may itself hold spaces |
| Commands.ParseInt | ServerProgram/src/main/java/edu/duke/ece651/hw2/simulation/CommandProcessor.java:58 | a parsed number comes from an optional sign and digits only, and lies in the 32-bit range |
| Commands.ParseIntText | ServerProgram/src/main/java/edu/duke/ece651/hw2/simulation/CommandProcessor.java:58 | the decimal text of every 32-bit integer parses back to that integer |
| Commands.ParseUnsigned | ServerProgram/src/main/java/edu/duke/ece651/hw2/simulation/CommandProcessor.java:58 | a digit string whose value fits parses to that value |
| Commands.ParseNegative | ServerProgram/src/main/java/edu/duke/ece651/hw2/simulation/CommandProcessor.java:58 | a minus sign and a digit string whose negation fits parses to the negated value |
| Commands.Number | ServerProgram/src/main/java/edu/duke/ece651/hw2/simulation/CommandProcessor.java:70-79 | the number of a two-word command is read or refused with a SimulationException |
| Commands.Parse | ServerProgram/src/main/java/edu/duke/ece651/hw2/simulation/CommandProcessor.java:33-37 | every refusal is a SimulationException; a blank line is "Empty command"; a step count is at least 1 and a rate at least 0, both 32-bit; "finish" and "pause" are accepted only as the whole trimmed line |
| Commands.Classify | ServerProgram/src/main/java/edu/duke/ece651/hw2/simulation/CommandProcessor.java:38-158 | every refusal is a SimulationException; an empty line is "Empty command"; step counts are at least 1, rates at least 0; finish and pause must be the whole line |
| Commands.ParseStep | ServerProgram/src/main/java/edu/duke/ece651/hw2/simulation/CommandProcessor.java:51-65 | a step command is exactly two words whose second is a 32-bit number of at least 1, otherwise refused |
| Commands.ParseRate | ServerProgram/src/main/java/edu/duke/ece651/hw2/simulation/CommandProcessor.java:121-135 | a rate command is exactly two words whose second is a non-negative 32-bit number, otherwise refused |
| Commands.ParseBuild | ServerProgram/src/main/java/edu/duke/ece651/hw2/simulation/CommandProcessor.java:136-148 | a build command has two 32-bit coordinates and a type, otherwise refused |
| Commands.ParseRemove | ServerProgram/src/main/java/edu/duke/ece651/hw2/simulation/CommandProcessor.java:149-155 | a remove command yields a building name, otherwise refused |
| Commands.ParseIgnoresBlanks | ServerProgram/src/main/java/edu/duke/ece651/hw2/simulation/CommandProcessor.java:34 | blanks around a command line do not change how it parses |
| Commands.QuotedRoundTrip | ServerProgram/src/main/java/edu/duke/ece651/hw2/simulation/CommandProcessor.java:40-49 | the quote scan reads back both quoted names of a request, connect or removal line written with the expected keyword |
| Commands.NumberRoundTrip | ServerProgram/src/main/java/edu/duke/ece651/hw2/simulation/CommandProcessor.java:53-58 | a command word followed by the text of a 32-bit number reads back that number |
| Commands.ParseFormat | ServerProgram/src/main/java/edu/duke/ece651/hw2/simulation/CommandProcessor.java:33-158 | writing any well-formed command in its documented syntax and parsing it gives the same command back |
| Commands.ClassifyFormat | ServerProgram/src/main/java/edu/duke/ece651/hw2/simulation/CommandProcessor.java:38-158 | the classification of a well-formed command's text is that command |
| Commands.ClassifyStep | ServerProgram/src/main/java/edu/duke/ece651/hw2/simulation/CommandProcessor.java:51-62 | "step N" is classified as a step by N for every N from 1 to the 32-bit maximum |
| Commands.ClassifyVerbose | ServerProgram/src/main/java/edu/duke/ece651/hw2/simulation/CommandProcessor.java:68-76 | "verbose N" is classified as that verbosity for every 32-bit N |
| Commands.ClassifyRate | ServerProgram/src/main/java/edu/duke/ece651/hw2/simulation/CommandProcessor.java:121-132 | "rate N" is classified as that rate for every non-negative 32-bit N |
| Commands.ClassifyConnect | ServerProgram/src/main/java/edu/duke/ece651/hw2/simulation/CommandProcessor.java:80-92 | a connect line with two quote-free names is classified as connecting them |
| Commands.ClassifySimpleRemove | ServerProgram/src/main/java/edu/duke/ece651/hw2/simulation/CommandProcessor.java:95-106 | an srm line with two quote-free names is classified as a simple removal of their connection |
| Commands.ClassifyComplexRemove | ServerProgram/src/main/java/edu/duke/ece651/hw2/simulation/CommandProcessor.java:107-118 | a crm line with two quote-free names is classified as a complex removal of their connection |
| Commands.ClassifyBuild | ServerProgram/src/main/java/edu/duke/ece651/hw2/simulation/CommandProcessor.java:136-145 | "build X Y T" is classified as building T at (X, Y) for 32-bit coordinates and a type with non-blank ends |
| Commands.ParseBuildWords | ServerProgram/src/main/java/edu/duke/ece651/hw2/simulation/CommandProcessor.java:137-145 | the four words of a build line read back as its coordinates and type |
| Commands.ClassifyRemove | ServerProgram/src/main/java/edu/duke/ece651/hw2/simulation/CommandProcessor.java:149-155 | "remove N" is classified as removing N for a name with non-blank ends |
| Commands.Execute | ServerProgram/src/main/java/edu/duke/ece651/hw2/simulation/Command.java:13 | verbose, pause, rate, printMap, srm and crm never fail and set exactly their setting; a successful step advances the clock by its count; a successful finish leaves no open request and finishes at once when none was open; a successful request opens the next id; remove and connect succeed exactly when their buildings exist; a successful build adds one building |
| Commands.ExecuteSetting | ServerProgram/src/main/java/edu/duke/ece651/hw2/simulation/VerboseCommand.java:28-29 | the setting commands change only verbosity or rate, and printMap changes nothing |
| Commands.ProcessCommand | ServerProgram/src/main/java/edu/duke/ece651/hw2/simulation/CommandProcessor.java:166-173 | a line that does not parse is reported as "Error: " and its message, with nothing changed; every report starts with "Error: "; only failures other than SimulationException escape |
| Setup.Lookup | ServerProgram/src/main/java/edu/duke/ece651/hw2/simulation/SimulationParser.java:50 | a field is missing exactly when no field of the object carries that name |
| Setup.Field | ServerProgram/src/main/java/edu/duke/ece651/hw2/simulation/SimulationParser.java:58 | only an object has fields |
| Setup.Int32 | ServerProgram/src/main/java/edu/duke/ece651/hw2/simulation/SimulationParser.java:78 | the 32-bit reading of a whole number lies in the 32-bit range, agrees with it modulo 2^32, and is the number itself when it fits |
| Setup.Names | ServerProgram/src/main/java/edu/duke/ece651/hw2/simulation/SimulationParser.java:72-74 | the field names are listed in document order, one per field |
| Setup.IngredientsErrStays | ServerProgram/src/main/java/edu/duke/ece651/hw2/simulation/SimulationParser.java:73-77 | once the ingredient loop has thrown, later fields do not change the outcome |
| Setup.IngredientsRead | ServerProgram/src/main/java/edu/duke/ece651/hw2/simulation/SimulationParser.java:70-81 | the ingredients are read exactly when no ingredient name holds a quote; the ordered names are then the field names in document order and the amounts are keyed by exactly those names |
| Setup.FirstQuotedIngredient | ServerProgram/src/main/java/edu/duke/ece651/hw2/simulation/SimulationParser.java:75-77 | the first ingredient name holding a quote is the one named in the error |
| Setup.IngredientAmounts | ServerProgram/src/main/java/edu/duke/ece651/hw2/simulation/SimulationParser.java:78-79 | with distinct field names, every ingredient's amount is its own field read as an integer |
| Setup.ParseIngredients | ServerProgram/src/main/java/edu/duke/ece651/hw2/simulation/SimulationParser.java:70-81 | the ingredient loop computes exactly the ingredient reading whose properties IngredientsRead states |
| Setup.RecipeRead | ServerProgram/src/main/java/edu/duke/ece651/hw2/simulation/SimulationParser.java:58-89 | an element is accepted exactly when all three fields are present, the output and every ingredient name are quote-free, the ingredients are an object and the latency is at least 1; the recipe then carries the output's text, the latency, the ingredients in document order, and is sound |
| Setup.LatencyRejected | ServerProgram/src/main/java/edu/duke/ece651/hw2/simulation/SimulationParser.java:82-85 | an otherwise good element whose latency is below 1 is refused with "Latency must be >= 1" |
| Setup.Entries | ServerProgram/src/main/java/edu/duke/ece651/hw2/simulation/SimulationParser.java:57 | each element of the array is read on its own, in array order |
| Setup.CollectErrStays | ServerProgram/src/main/java/edu/duke/ece651/hw2/simulation/SimulationParser.java:57-91 | once the recipe loop has thrown, later elements do not change the outcome |
| Setup.Collected | ServerProgram/src/main/java/edu/duke/ece651/hw2/simulation/SimulationParser.java:57-91 | the recipe table is built exactly when every element is accepted and no two share an output |
| Setup.CollectedHolds | ServerProgram/src/main/java/edu/duke/ece651/hw2/simulation/SimulationParser.java:89-90 | the table holds every element's recipe under its output, and no other name |
| Setup.EntriesPrefix | ServerProgram/src/main/java/edu/duke/ece651/hw2/simulation/SimulationParser.java:57 | reading the first elements of the array reads the first entries |
| Setup.FirstRefused | ServerProgram/src/main/java/edu/duke/ece651/hw2/simulation/SimulationParser.java:57-60 | the first refused element decides the error reported |
| Setup.SecondOutput | ServerProgram/src/main/java/edu/duke/ece651/hw2/simulation/SimulationParser.java:86-88 | an accepted element whose output an earlier element used is refused as a duplicate |
| Setup.FirstBadRecipe | ServerProgram/src/main/java/edu/duke/ece651/hw2/simulation/SimulationParser.java:57-91 | the first refused element of the array decides the error: the loop throws there |
| Setup.DuplicateRejected | ServerProgram/src/main/java/edu/duke/ece651/hw2/simulation/SimulationParser.java:86-88 | an element repeating an earlier output is refused with "Duplicate recipe name: " and that output |
| Setup.ParsedRecipes | ServerProgram/src/main/java/edu/duke/ece651/hw2/simulation/SimulationParser.java:48-93 | after a successful read every recipe is stored under its own output, has a latency of at least 1, has quote-free names and an amount for every listed ingredient |
| Setup.ParseRecipe | ServerProgram/src/main/java/edu/duke/ece651/hw2/simulation/SimulationParser.java:58-89 | the loop body computes exactly the element reading whose properties RecipeRead states |
| Setup.ParseRecipes | ServerProgram/src/main/java/edu/duke/ece651/hw2/simulation/SimulationParser.java:48-93 | the method computes exactly the section reading: a missing section, a non-array section and the first bad or duplicate element are refused |
| Setup.AddRecipe | ServerProgram/src/main/java/edu/duke/ece651/hw2/simulation/SimulationParser.java:57-91 | one loop turn extends the table by the next element, or fails as the reading of one more element does |
| Setup.TypeRecipesErrStays | ServerProgram/src/main/java/edu/duke/ece651/hw2/simulation/SimulationParser.java:186-192 | once the type's recipe loop has thrown, later elements do not change the outcome |
| Setup.TypeRecipesRead | ServerProgram/src/main/java/edu/duke/ece651/hw2/simulation/SimulationParser.java:185-192 | a type's recipe list is read exactly when every element names a defined recipe, and is then those names in order |
| Setup.FirstUndefinedRecipe | ServerProgram/src/main/java/edu/duke/ece651/hw2/simulation/SimulationParser.java:188-190 | the first element naming no recipe is the one named in the error |
| Setup.TypesErrStays | ServerProgram/src/main/java/edu/duke/ece651/hw2/simulation/SimulationParser.java:170-195 | once the type loop has thrown, later elements do not change the outcome |
| Setup.TypeRead | ServerProgram/src/main/java/edu/duke/ece651/hw2/simulation/SimulationParser.java:171-193 | an accepted type keeps its name from the element, is quote-free, was not defined before and lists only defined recipes |
| Setup.TypesRead | ServerProgram/src/main/java/edu/duke/ece651/hw2/simulation/SimulationParser.java:161-197 | every type in the table is stored under its own name, which is quote-free, and lists only defined recipes; the table has one entry per element, so no two elements share a name |
| Setup.UndefinedRecipeRejected | ServerProgram/src/main/java/edu/duke/ece651/hw2/simulation/SimulationParser.java:188-190 | a type naming an undefined recipe is refused with "Type references undefined recipe: " and the first such name |
| Setup.ParseTypeRecipes | ServerProgram/src/main/java/edu/duke/ece651/hw2/simulation/SimulationParser.java:185-192 | the inner loop computes exactly the recipe-list reading whose properties TypeRecipesRead states |
| Setup.ParseTypes | ServerProgram/src/main/java/edu/duke/ece651/hw2/simulation/SimulationParser.java:161-197 | the method computes exactly the section reading whose properties TypesRead states, refusing a missing or non-array section |
| Setup.AddType | ServerProgram/src/main/java/edu/duke/ece651/hw2/simulation/SimulationParser.java:170-195 | one loop turn extends the type table by the next element, or fails as the reading of one more element does |
| Setup.ParseType | ServerProgram/src/main/java/edu/duke/ece651/hw2/simulation/SimulationParser.java:171-193 | the loop body computes exactly the element reading whose properties TypeRead states |
| Validation.CheckRecipes | ServerProgram/src/main/java/edu/duke/ece651/hw2/simulation/SimulationParser.java:528-534 | no complaint exactly when every ingredient of every recipe is itself a recipe; a complaint names a recipe and one of its undefined ingredients |
| Validation.CheckSupply | ServerProgram/src/main/java/edu/duke/ece651/hw2/simulation/SimulationParser.java:548-563 | no complaint exactly when, scanning the sources in order, a source that provides the ingredient comes before any undefined source; otherwise the complaint names an undefined source or says no source provides the ingredient |
| Validation.CheckRecipe | ServerProgram/src/main/java/edu/duke/ece651/hw2/simulation/SimulationParser.java:541-564 | no complaint exactly when the recipe is defined, has ingredients and each is supplied; otherwise the complaint is the missing recipe, "no ingredients" or a supply complaint for an unsupplied ingredient |
| Validation.CheckBuilding | ServerProgram/src/main/java/edu/duke/ece651/hw2/simulation/SimulationParser.java:537-573 | no complaint exactly when a factory can run every recipe of its type, or every source of a mine is a building; other kinds are not checked |
| Validation.ValidateInput | ServerProgram/src/main/java/edu/duke/ece651/hw2/simulation/SimulationParser.java:526-575 | the input passes exactly when it is consistent, and a failure is one of its actual faults |
| Validation.FactoriesSupplied | ServerProgram/src/main/java/edu/duke/ece651/hw2/simulation/SimulationParser.java:541-563 | in an input that passes, every recipe a factory can run is defined with at least one ingredient, and each ingredient is a recipe provided by one of the factory's sources that is a building |
| Placement.CheckSpacing | ServerProgram/src/main/java/edu/duke/ece651/hw2/simulation/SimulationParser.java:412-419 | the candidate passes condition one exactly when it is at least 5 away on both axes from every placed building |
| Placement.CheckNeighbours | ServerProgram/src/main/java/edu/duke/ece651/hw2/simulation/SimulationParser.java:423-431 | the two flags say exactly whether some placed building is within 10 of the candidate on the x axis and on the y axis |
| Placement.OtherNeighbours | ServerProgram/src/main/java/edu/duke/ece651/hw2/simulation/SimulationParser.java:441-448 | the two flags say exactly whether another placed building is within 10 of the given one on each axis |
| Placement.CheckHelps | ServerProgram/src/main/java/edu/duke/ece651/hw2/simulation/SimulationParser.java:437-458 | the candidate passes condition three exactly when it is within 10, on each axis where a placed building has no neighbour yet, of that building |
| Placement.CheckCandidate | ServerProgram/src/main/java/edu/duke/ece651/hw2/simulation/SimulationParser.java:412-459 | a candidate is accepted exactly when it passes all three conditions |
| Placement.FindSpot | ServerProgram/src/main/java/edu/duke/ece651/hw2/simulation/SimulationParser.java:406-466 | the cell found is in the 0..100 grid, acceptable, and no cell earlier in the x-then-y scan is; no cell is found only when no cell of the grid is acceptable |
| Placement.LocatedEmpty | ServerProgram/src/main/java/edu/duke/ece651/hw2/simulation/SimulationParser.java:389-397 | no given location is collected exactly when no building has one |
| Placement.ChosenFrame | ServerProgram/src/main/java/edu/duke/ece651/hw2/simulation/SimulationParser.java:405-470 | the locations chosen for the buildings before a point depend only on the choices made before it |
| Placement.FoundKept | ServerProgram/src/main/java/edu/duke/ece651/hw2/simulation/SimulationParser.java:462-464 | choosing a location for the next building keeps every earlier choice a first fit |
| Placement.FoundExtended | ServerProgram/src/main/java/edu/duke/ece651/hw2/simulation/SimulationParser.java:462-464 | a first fit for the next building extends the record of first fits by one |
| Placement.GivenLocations | ServerProgram/src/main/java/edu/duke/ece651/hw2/simulation/SimulationParser.java:389-395 | the partition keeps every given location in place and collects exactly the given locations, in order |
| Placement.AssignLocations | ServerProgram/src/main/java/edu/duke/ece651/hw2/simulation/SimulationParser.java:385-471 | on success every building has a location: its given one, the origin for the first building when none is given, otherwise the first acceptable cell of the scan against those placed before it; a failure names a building for which no cell of the grid is acceptable |
| Placement.LocatedHolds | ServerProgram/src/main/java/edu/duke/ece651/hw2/simulation/SimulationParser.java:389-391 | every given location is among those placed before any search |
| Placement.ChosenHolds | ServerProgram/src/main/java/edu/duke/ece651/hw2/simulation/SimulationParser.java:462-463 | every location chosen earlier is among those placed before a later search |
| Placement.SearchedApart | ServerProgram/src/main/java/edu/duke/ece651/hw2/simulation/SimulationParser.java:413-419 | a building placed by the scan is at least 5 away on both axes from every given location and every earlier choice, so no two buildings share a cell |

## Left out

- Console and file output: every verbosity-gated message, `printMap` and its glyph rendering, `toString`, `isViable`, and `checkReadyRecipesAtFactory`, which only prints. Verbosity is stored but has no other effect.
- `runInteractive` (the standard-input loop), `toSerializable` (org.json), `ServerMain`, `ClientMain`, `Main`, `NewMain`, the client UI, the background stepping thread and its `synchronized` blocks.
- `parseJsonFile`, `parseBuildableTypes` and the `parseBuildings` overloads: file reading and plumbing over library JSON nodes. JSON text is not parsed; the configuration is a JSON tree value. `parseConnections` is plumbing over `connectBuildings`.
- Setup.Lookup: a JSON object is taken to have distinct field names; with repeated names the first one is read.
- `asInt` on text nodes and on fractional numbers is not modelled; numbers are whole.
- `DummySimulation`, the `Simulation` interface and the branch of `RequestCommand.execute` taken for a simulation other than `BasicSimulation`: a test double and thin dispatch.
- Java 32-bit `int` overflow in counters, times and distances. Integers are unbounded, except in `Integer.parseInt`, whose 32-bit range is modelled. The check of `parseInt` accepts ASCII digits only, not other Unicode digits.
- A storage building's `float` priority is a positive rational, and the replenishment frequency is an exact integer ceiling. Float rounding may differ from it at the edges.
- The hash iteration orders are left open: the table's value view, the in-degree entry view, the drone port chosen, the first building placed, and the order of recipe ingredients. Each is a given sequence or an arbitrary choice.
- `Request` objects are compared by identity in Java. The model keeps open user requests by id, which is unique because ids come from the post-increment counter.
- Drones, roads, requests and buildings are updated in place in Java. Here they are values that their single owner replaces, so aliasing between them is not modelled. A Java request keeps a reference to a requestor building after that building is removed; here the requestor is named, so a delivery to a removed building is dropped. The one divergence is a new building that reuses the removed name: it would receive the delivery, while the Java object would not.
- The drone check in `canProduce` compares strings with `==` in Java, which tests reference identity. The model compares contents.
- Ticks.ProducerTick: the exact new queue and storage are stated only for a mine, or for a factory whose finished unit does not go back to itself; a factory that supplies itself is covered by the frame facts only.
- Ticks.Fulfil: the exact count served is stated only when no pending request's unit goes back to the storage building itself.
- Logistics.ProcessIngredients: the recursion of the dispatcher is bounded by a fuel argument. Running out fails with `Exhausted`, where Java would overflow its stack.
- Logistics.ValidateConnections: its recursion is bounded by fuel in the same way.
- Ticks.StorageTick: its exact outcome (the drained storage, the replenishment decision) is stated only when no pending request is the storage's own; a storage that supplies itself is covered only by the general facts (all returned requests completed, ids consecutive, the step only evolves the plant).
- Simulations.Simulation.Finish: `finish` may loop forever in Java. Here it runs at most `rounds` steps, and `Commands.Execute` reports `Exhausted` when that is not enough.
- Simulations.Simulation.Step: a negative count only prints an error in Java; here the call reports `rejected` and changes nothing.
- Simulations.Simulation.SimpleRemove and Simulations.Simulation.ComplexRemove: an unknown building name passes `null` to the road map in Java. Here the call changes nothing.
- RoadNetwork.RoadMap.OptimalPath: the path found has the right shape, cost and ends, and the search terminates. That it is a least-cost path, and which of several least-cost paths the priority queue yields, are not proved.
- The `null` road check in the breadth-first walk of `getShortestDistance` cannot fire, because every neighbour is taken from the road table. The model has no such branch.
- Validation.ValidateInput: which fault is reported first depends on the hash iteration order. The contract says only that the reported fault is a real one, and that there is a fault exactly when the input is inconsistent.
- Placement.AssignLocations: it works on the buildings in the iteration order of the table, given as a sequence. `Math.abs` overflow is not modelled; every coordinate involved is small.
- In Java, `FactoryBuilding.step` with a request just completed installs the next request without marking it in progress and consumes nothing. The model does the same, as Buildings.FactoryStepFacts states.
