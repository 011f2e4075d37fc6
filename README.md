# TE_Visual: a verified model of its traffic-engineering core

TE_Visual draws a directed network of links and simulates traffic engineering on it.
The repository holds two visualizers, and this project models the computing core of both.

**The root visualizer** (`NetworkVisualizer.java`):
- Every edge carries a link cost, a routing weight and a load, and a capacity table is keyed by edge id.
- `evaluateNetworkCost` adds up a piecewise-linear congestion cost of each edge's utilisation.
- The two flow simulations push a data volume along a path in rounds. Each round sends the smaller of what remains and the path's bottleneck capacity, and writes that amount as every path edge's load.
- `optimizeNetworkWeights` seeds every weight with a random integer in [1, 20]. It then runs 5000 local-search iterations over the edges of one path, trying every other integer weight on each of them. Costs are cached by (edge, weight) pair, and the single cheapest trial is applied.
- `updateEdgeLabel` colours an edge by its load as a percentage of its capacity.

**The interactive visualizer** (`TE_Visual/src/NetworkVisualizer.java`):
- Every edge carries a weight, and optionally a load and a fill colour.
- The link load is weight times traffic, taken from a traffic matrix.
- Edges are coloured relative to the heaviest load.
- Load statistics are taken, one weight can be changed, and a random-perturbation optimiser runs 5000 steps.

**How the model is built.** The parts of the code that compute by expressions become functions and lemmas. The parts that update state become classes whose methods keep `while` loops and are proved against those functions:
- `Congestion` holds the cost curve.
- `Network` holds the root visualizer's edges, the network cost and the label colour.
- `Flow` holds the rounds of the flow simulation.
- `Optimiser` holds the local search as functions on values.
- `Engine.NetworkVisualizer` is the root visualizer's state and its loops.
- `Traffic` holds the interactive visualizer's functions.
- `TEVisual.NetworkVisualizer` is the interactive visualizer's state and its loops.
- `Util` holds the shared helpers.

**How Java values are modelled.**
- Java doubles are modelled as reals.
- A `Double.MAX_VALUE` sentinel is modelled as `None`.
- A stored capacity of 0.0 makes the cost division +Infinity or NaN. It is modelled as `Cost.NonFinite`, which absorbs later additions and is never an improvement. This holds because capacities and loads are non-negative (see `Engine.NetworkVisualizer.Valid` under "## Left out").
- `intValue()` is truncation toward zero.
- A boxed `Double` that may be null is an `Option`.
- The unboxing `NullPointerException` of `displayLoadStatistics` is a `None` result. Inside the optimiser it is an `Aborted` outcome.

**Where the code departs from what it is evidently meant to be, the model follows the code:**
- The comment at `NetworkVisualizer.java:403` says the cost is as described in "the paper", without naming the paper. Its breakpoints (1/3, 2/3, 9/10, 1, 11/10) and slopes (1, 3, 10, 70, 500, 5000) are those of Fortz and Thorup's OSPF weight-setting cost. That cost is continuous at u = 11/10, which needs the offset 16318/3 on the last segment. The code subtracts 19468/3 instead. So the cost drops by 1050 at 11/10 and is not monotone across that point; above it the cost rises again at slope 5000. `EdgeCostDropsAtOverload` and `EdgeCostNotMonotone` prove this.
- On a path with a zero bottleneck, the source's `while (totalData > 0)` never exits. The model ends such a simulation with `Stalled`, and `StalledFlowNeverEnds` proves that no number of rounds drains the data.
- `evaluateNetworkCost` reads no weight, so every trial of `optimizeNetworkWeights` costs the same. The optimiser therefore only toggles the first path edge's weight between 1 and 2. It changes nothing when the path is empty or the cost is not finite. `RunClosedForm` proves this closed form, and the network cost never changes.
- The cache key of `optimizeNetworkWeights` is the string `id + "-" + weight`. A weight's decimal digits contain no `-`, so the string determines the pair. The model keys the cache by the pair `(id, weight)`.

## Model

| member | source | states |
|---|---|---|
| Congestion.EdgeCost | NetworkVisualizer.java:404-417 | the six-branch cost of one utilisation; characterised by `EdgeCostOnSegment`, `EdgeCostMonotoneWithinSegment`, `EdgeCostContinuousAt`, `EdgeCostDropsAtOverload` and `EdgeCostBounds` |
| Congestion.Segment | NetworkVisualizer.java:405-417 | the segment a utilisation falls in lies between that segment's breakpoints |
| Congestion.EdgeCostOnSegment | NetworkVisualizer.java:404-417 | the cost at every utilisation is the line slope*u - offset of its segment |
| Congestion.EdgeCostMonotoneWithinSegment | NetworkVisualizer.java:404-417 | within one segment the cost rises at that segment's positive slope |
| Congestion.EdgeCostContinuousAt | NetworkVisualizer.java:405-412 | at 1/3, 2/3, 9/10 and 1 the two adjacent lines meet at the cost |
| Congestion.EdgeCostDropsAtOverload | NetworkVisualizer.java:413-416 | at 11/10 the cost jumps from a positive left limit down by 1050 to a negative value |
| Congestion.EdgeCostMonotoneBelowOverload | NetworkVisualizer.java:405-414 | below 11/10 a larger utilisation never costs less |
| Congestion.EdgeCostNotMonotone | NetworkVisualizer.java:411-416 | a utilisation of 1 costs more than one of 11/10 |
| Congestion.EdgeCostBounds | NetworkVisualizer.java:404-414 | on [0, 11/10) the cost is non-negative and at most slope times utilisation |
| Network.Plus | NetworkVisualizer.java:419 | Java `+` on costs, a non-finite operand absorbing; its meaning is stated by `NetworkCostIsSum` |
| Network.EdgeContribution | NetworkVisualizer.java:399-417 | one edge's cost with a missing capacity read as 1.0, non-finite on a stored 0.0; stated by `NetworkCostIsSum` |
| Network.NetworkCost | NetworkVisualizer.java:395-423 | the costs added up in edge order; characterised by `NetworkCostIsSum`, `NetworkCostIgnoresWeights` and `NetworkCostNonNegative` |
| Network.Utilisation | NetworkVisualizer.java:400-401 | load over the capacity, a missing one read as 1.0; summed up in `NetworkCostIsSum` and bounded in `NetworkCostNonNegative` |
| Network.NetworkCostIgnoresWeights | NetworkVisualizer.java:395-423 | two networks with the same ids and loads have the same cost, whatever their weights |
| Network.NetworkCostIgnoresWeight | NetworkVisualizer.java:368-369 | setting one edge's weight before evaluating leaves the cost as it was |
| Network.NetworkCostIsSum | NetworkVisualizer.java:395-423 | the cost is finite exactly when no edge has a stored capacity of 0, and then it is the sum of the edge costs |
| Network.NetworkCostNonNegative | NetworkVisualizer.java:395-423 | a network whose every utilisation is in [0, 11/10) has a finite, non-negative cost |
| Network.LoadPercentage | NetworkVisualizer.java:129-130 | load over capacity times 100, or 0 without a positive capacity; read as thresholds by `LabelColourThresholds` |
| Network.LabelColour | NetworkVisualizer.java:133-140 | red above 75, orange above 50, green otherwise; characterised by `LabelColourThresholds` and `LabelColourMonotone` |
| Network.LabelColourThresholds | NetworkVisualizer.java:129-140 | red exactly when the capacity is positive and load > 3/4 capacity; orange exactly when 1/2 capacity < load <= 3/4 capacity; green otherwise, including every edge without a positive capacity |
| Network.LabelColourMonotone | NetworkVisualizer.java:129-140 | at a fixed capacity a heavier load never moves the label back towards green |
| Flow.Bottleneck | NetworkVisualizer.java:275-282 | the running minimum of the path's capacities; characterised by `BottleneckIsMinimum`, `BottleneckNonNegative` and `BottleneckReadsIds` |
| Flow.RoundAmount | NetworkVisualizer.java:284 | `Math.min(totalData, minCapacity)`, all of the data on the empty path; used by `RoundsStep` and `RoundsAreFull` |
| Flow.Rounds | NetworkVisualizer.java:274-285 | the amounts the loop sends; characterised by `RoundsDeliverAll`, `RoundsCount` and `RoundsAreFull` |
| Flow.SetLoads | NetworkVisualizer.java:288-290 | every path edge's load set to the round's amount; characterised by `SetLoadsKeepsIds` and `SetLoadsOverwrites` |
| Flow.LoadsAfter | NetworkVisualizer.java:287-290 | the edges after a sequence of rounds; characterised by `LoadsAfterRound` and `FlowWithinCapacity` |
| Flow.FlowCapacity | NetworkVisualizer.java:278 | `getOrDefault(edgeId, 0.0)`; `BottleneckIsMinimum` states the bottleneck is the least of these |
| Flow.BottleneckIsMinimum | NetworkVisualizer.java:275-282 | the running minimum is absent exactly for the empty path, and is otherwise one of the path's capacities and no larger than any |
| Flow.BottleneckNonNegative | NetworkVisualizer.java:275-282 | with no negative capacity stored the bottleneck is not negative |
| Flow.BottleneckReadsIds | NetworkVisualizer.java:275-290 | rewriting loads between rounds leaves the bottleneck as it was |
| Flow.RoundsStep | NetworkVisualizer.java:274-285 | a round sends `min(remaining, bottleneck)` and leaves exactly one fewer round to go |
| Flow.RoundsLeftDrops | NetworkVisualizer.java:274-285 | on a positive bottleneck or the empty path, one round lowers the number of rounds left by exactly one |
| Flow.RoundsDeliverAll | NetworkVisualizer.java:274-285 | there are no rounds exactly when the volume is not positive; otherwise the rounds add up to the volume |
| Flow.RoundsCount | NetworkVisualizer.java:274-299 | a positive bottleneck B takes ceil(data / B) rounds; the empty path sends everything in one round |
| Flow.RoundsAreFull | NetworkVisualizer.java:284-285 | every round sends a positive amount no larger than B, and every round but the last sends exactly B |
| Flow.RemainingAfter | NetworkVisualizer.java:274-285 | the data left after n loop bodies, whether or not they make progress; `StalledFlowNeverEnds` states it stays positive on a bottleneck of 0 or less |
| Flow.StalledFlowNeverEnds | NetworkVisualizer.java:274-285 | with a bottleneck of 0 or less, positive data never drains however many rounds run |
| Flow.SetLoadsKeepsIds | NetworkVisualizer.java:288-290 | writing loads keeps every id and, for a non-negative amount, keeps every load non-negative |
| Flow.SetLoadsOverwrites | NetworkVisualizer.java:288-290 | a later round's write replaces an earlier one on the same path |
| Flow.LoadsAfterRound | NetworkVisualizer.java:287-290 | writing one more round's amount gives the edges after that round |
| Flow.FlowWithinCapacity | NetworkVisualizer.java:274-290 | after a finished flow no path edge carries more than its capacity, and positive data implies every path edge has a stored capacity |
| Util.Min | NetworkVisualizer.java:284 | `Math.min`: no larger than either argument and equal to one of them |
| Util.IntValue | NetworkVisualizer.java:348 | `Double.intValue()`; characterised by `IntValueTruncates` |
| Util.IntValueTruncates | NetworkVisualizer.java:348 | `intValue` truncates toward zero, stays within 1 of its argument and returns an integer unchanged |
| Optimiser.SeedWeights | NetworkVisualizer.java:323-327 | every weight replaced by its seed; characterised by `SeedWeightsSeeded` |
| Optimiser.SetWeight | NetworkVisualizer.java:368 | one edge's weight set to an integer, the trial write; also the restore at line 383 and the apply at line 388; used by `IterationChangesAtMostOne` and `RunClosedForm` |
| Optimiser.Trials | NetworkVisualizer.java:367-369 | the cost of each trial, the network cost with the trial weight written; characterised by `TrialsConstant` |
| Optimiser.Consider | NetworkVisualizer.java:375-379 | the `cost < bestCost` update, also on the cached branch at lines 359-363; characterised by `ScanEdgeBest` |
| Optimiser.CandidateKeys | NetworkVisualizer.java:350-354 | the keys one edge's scan tries; characterised by `CandidateKeysMembers` and `ScanEdgeCache` |
| Optimiser.TriedKeys | NetworkVisualizer.java:347-354 | the keys a path scan tries; characterised by `TriedKeysMembers` and `ScanPathCache` |
| Optimiser.Improves | NetworkVisualizer.java:359-375 | `cost < bestCost` with `bestCost` starting at `Double.MAX_VALUE`; its effect is stated by `ScanEdgeBest` and `ScanEdgeUniform` |
| Optimiser.TryCandidate | NetworkVisualizer.java:354-379 | one candidate: the cached cost if the key is present, otherwise the trial's cost, cached; stated by `ScanEdgeCache` and `ScanEdgeBest` |
| Optimiser.ScanEdge | NetworkVisualizer.java:350-380 | the candidates 1 .. n of one edge, skipping its own weight; characterised by `ScanEdgeCache`, `ScanEdgeBest` and `ScanEdgeUniform` |
| Optimiser.ScanPath | NetworkVisualizer.java:347-384 | every path edge's scan in path order; characterised by `ScanPathBest`, `ScanPathCache` and `ScanPathUniform` |
| Optimiser.Iteration | NetworkVisualizer.java:342-391 | one iteration: the path scan, then the best trial applied; characterised by `IterationChangesAtMostOne`, `IterationKeepsIdsAndLoads` and `IterationUniform` |
| Optimiser.Run | NetworkVisualizer.java:342-391 | n iterations sharing one cache; characterised by `RunKeepsIdsAndLoads`, `RunClosedForm` and `RunStaysSeeded` |
| Optimiser.SeedWeightsSeeded | NetworkVisualizer.java:323-327 | seeds drawn from [1, 20] give integral weights in [1, 20], with every other attribute as before |
| Optimiser.CandidateKeysMembers | NetworkVisualizer.java:350-354 | the keys one edge's scan uses are its id paired with every weight 1 .. n except the current one |
| Optimiser.TriedKeysMembers | NetworkVisualizer.java:347-354 | a key is tried by a path scan exactly when it pairs some path edge's id with an in-range weight other than that edge's own |
| Optimiser.ScanEdgeCache | NetworkVisualizer.java:350-372 | one edge's scan keeps every cached entry and adds exactly its candidate keys |
| Optimiser.ScanEdgeBest | NetworkVisualizer.java:350-380 | one edge's scan keeps the best trial, or replaces it with a strictly cheaper trial on that edge and an in-range weight other than the current one; a trial that only ties never replaces the best |
| Optimiser.ScanPathBest | NetworkVisualizer.java:347-384 | the best trial after a path scan is the starting one, or a trial that path scan made |
| Optimiser.ScanPathCache | NetworkVisualizer.java:347-384 | a path scan keeps every cached entry and gains exactly the keys it tries, so no pair is evaluated twice |
| Optimiser.IterationChangesAtMostOne | NetworkVisualizer.java:342-391 | an iteration leaves the weights alone, or sets one path edge to an integer in [1, 20] other than its own; the cache only grows, by the tried keys |
| Optimiser.IterationKeepsIdsAndLoads | NetworkVisualizer.java:342-391 | an iteration changes no id and no load |
| Optimiser.RunKeepsIdsAndLoads | NetworkVisualizer.java:342-391 | 5000 iterations change no id and no load |
| Optimiser.TrialsConstant | NetworkVisualizer.java:367-369 | every trial costs what the network costs as it is |
| Optimiser.ScanEdgeUniform | NetworkVisualizer.java:350-380 | when every trial costs the same, the edge's first candidate becomes the best (if there is none yet and the cost is finite) and nothing later beats it |
| Optimiser.ScanPathUniform | NetworkVisualizer.java:347-384 | when every trial costs the same, the best trial is the first path edge at its first candidate weight, or none for a non-finite cost |
| Optimiser.IterationUniform | NetworkVisualizer.java:342-391 | an iteration sets the first path edge to its first candidate weight and changes nothing else, or changes nothing for an empty path or a non-finite cost |
| Optimiser.ToggledAlternates | NetworkVisualizer.java:342-391 | after the first iteration the first path edge's weight alternates between 1 and 2 |
| Optimiser.RunClosedForm | NetworkVisualizer.java:315-391 | n iterations keep the network cost, leave every weight as seeded except the first path edge's, which follows the toggle; every cached cost is the current network cost |
| Optimiser.RunStaysSeeded | NetworkVisualizer.java:317-391 | the run keeps every weight an integer in [1, 20] |
| Engine.NetworkVisualizer.constructor | NetworkVisualizer.java:81-83 | the loaded network with every load 0.0 and the capacity table |
| Engine.NetworkVisualizer.EdgeColour | NetworkVisualizer.java:123-142 | red or green exactly under `LabelColourThresholds`' conditions on the edge's load and capacity, a missing capacity read as 0.0 |
| Engine.NetworkVisualizer.ResetLoads | NetworkVisualizer.java:577-582 | every load becomes 0.0 and nothing else changes |
| Engine.NetworkVisualizer.EvaluateNetworkCost | NetworkVisualizer.java:395-423 | returns `NetworkCost` of the current edges and capacities |
| Engine.NetworkVisualizer.PathBottleneck | NetworkVisualizer.java:275-282 | returns the path's `Bottleneck` |
| Engine.NetworkVisualizer.WriteLoads | NetworkVisualizer.java:288-290 | the path edges' loads become the amount and every other edge stays |
| Engine.NetworkVisualizer.SendRound | NetworkVisualizer.java:275-290 | one round sends `min(remaining, bottleneck)` and the edges become those after one more round |
| Engine.NetworkVisualizer.Transmit | NetworkVisualizer.java:272-310 | with a positive bottleneck or an empty path: every round of `Rounds` is sent and the last amount is every path edge's load; with a bottleneck of 0 or less: `Stalled`; with no data: nothing changes |
| Engine.NetworkVisualizer.SimulateFlow | NetworkVisualizer.java:258-313 | no path: nothing changes; otherwise as `Transmit`, and ids stay unique and loads non-negative |
| Engine.NetworkVisualizer.SetEdgeWeight | NetworkVisualizer.java:388 | edge i gets integer weight w and nothing else changes |
| Engine.NetworkVisualizer.ScanEdgeWeights | NetworkVisualizer.java:348-383 | the cache and best trial become those of `ScanEdge`; the edge's weight is restored |
| Engine.NetworkVisualizer.ScanPathWeights | NetworkVisualizer.java:343-384 | the cache and best trial become those of `ScanPath` over the whole path; no weight changes |
| Engine.NetworkVisualizer.LocalSearchIteration | NetworkVisualizer.java:343-390 | the weights and cache become those of `Iteration` |
| Engine.NetworkVisualizer.SeedAllWeights | NetworkVisualizer.java:323-327 | every weight becomes its seed and nothing else changes |
| Engine.NetworkVisualizer.LocalSearch | NetworkVisualizer.java:342-391 | the weights become those of `Run` for 5000 iterations from an empty cache |
| Engine.NetworkVisualizer.OptimizeNetworkWeights | NetworkVisualizer.java:315-392 | weights are seeded; with no path nothing more happens; with a path they become those of the 5000-iteration `Run`; ids stay unique and loads unchanged |
| Traffic.LinkLoad | TE_Visual/src/NetworkVisualizer.java:124 | weight times traffic; the value `LoadTableValues` and `LoadedEdgesChangeOnlyLoads` state for an edge with traffic |
| Traffic.LoadEdge | TE_Visual/src/NetworkVisualizer.java:117-127 | one edge after the load pass; characterised by `LoadedEdgesChangeOnlyLoads` |
| Traffic.LoadedEdges | TE_Visual/src/NetworkVisualizer.java:116-129 | every edge after the load pass; characterised by `LoadedEdgesChangeOnlyLoads`, `TableMatchesLoads` and `LoadPassIdempotent` |
| Traffic.LoadTable | TE_Visual/src/NetworkVisualizer.java:115-129 | the table the load pass builds; characterised by `LoadTableKeys`, `LoadTableValues` and `LoadTableReadsIdsAndWeights` |
| Traffic.LoadedEdgesChangeOnlyLoads | TE_Visual/src/NetworkVisualizer.java:116-129 | the load pass keeps ids, weights and colours; an edge with traffic gets weight * traffic, an edge without keeps its old load |
| Traffic.LoadTableKeys | TE_Visual/src/NetworkVisualizer.java:115-129 | the table holds an entry exactly for the ids that have traffic and belong to an edge |
| Traffic.LoadTableValues | TE_Visual/src/NetworkVisualizer.java:115-129 | with unique ids, each edge with traffic has the entry weight * traffic |
| Traffic.TableMatchesLoads | TE_Visual/src/NetworkVisualizer.java:126-128 | after the pass the table and the load attributes agree on every edge with traffic |
| Traffic.LoadTableReadsIdsAndWeights | TE_Visual/src/NetworkVisualizer.java:116-128 | the table depends only on ids and weights |
| Traffic.LoadPassIdempotent | TE_Visual/src/NetworkVisualizer.java:173-178 | a second load pass right after a first changes neither the edges nor the table |
| Traffic.MaxLoadUnique | TE_Visual/src/NetworkVisualizer.java:133 | the heaviest load of a table is unique |
| Traffic.HeaviestKey | TE_Visual/src/NetworkVisualizer.java:133 | a non-empty table has a key whose entry no other entry exceeds |
| Traffic.MaxLoadOf | TE_Visual/src/NetworkVisualizer.java:133 | the largest entry, attained by some key, or 1.0 for an empty table |
| Traffic.RelativeColour | TE_Visual/src/NetworkVisualizer.java:139-146 | the colour of a load against the heaviest; characterised by `RelativeColourBands`, `RelativeColourMonotone`, `HeaviestIsRed` and `ZeroTableAllRed` |
| Traffic.Painted | TE_Visual/src/NetworkVisualizer.java:134-149 | every edge painted for the heaviest load; characterised by `PaintedChangesOnlyStyles` |
| Traffic.RelativeColourBands | TE_Visual/src/NetworkVisualizer.java:139-146 | for a non-negative heaviest load M: green exactly below M/2, orange exactly in [M/2, 4M/5), red exactly from 4M/5 up |
| Traffic.RelativeColourMonotone | TE_Visual/src/NetworkVisualizer.java:139-146 | a heavier load never gets a colour nearer green |
| Traffic.HeaviestIsRed | TE_Visual/src/NetworkVisualizer.java:133-146 | the edge carrying the table's heaviest non-negative load is red |
| Traffic.ZeroTableAllRed | TE_Visual/src/NetworkVisualizer.java:133-146 | when every table entry is 0.0, every edge whose load is missing or non-negative is red |
| Traffic.LoadOrZero | TE_Visual/src/NetworkVisualizer.java:135-136 | a missing load read as 0.0; used by `PaintedChangesOnlyStyles` and `ZeroTableAllRed` |
| Traffic.PaintedChangesOnlyStyles | TE_Visual/src/NetworkVisualizer.java:134-149 | painting keeps ids, weights and loads and gives each edge the colour of its own load, a missing one read as 0.0 |
| Traffic.AverageLoad | TE_Visual/src/NetworkVisualizer.java:264-271 | total over count, 0 for no edges, `None` on a missing load; characterised by `LoadTotalIsSum`, `AverageWithinBounds` and `AverageTimesCount` |
| Traffic.LoadTotal | TE_Visual/src/NetworkVisualizer.java:264-268 | the running total, `None` once an edge has no load; characterised by `LoadTotalIsSum` |
| Traffic.LoadTotalIsSum | TE_Visual/src/NetworkVisualizer.java:264-270 | the total exists exactly when every edge has a load, and then it is the sum of the loads |
| Traffic.AverageWithinBounds | TE_Visual/src/NetworkVisualizer.java:264-271 | the average of loads all within [lo, hi] lies within [lo, hi] |
| Traffic.AverageTimesCount | TE_Visual/src/NetworkVisualizer.java:264-271 | when every edge is loaded, the average times the edge count is the sum of the loads |
| Traffic.NextWeight | TE_Visual/src/NetworkVisualizer.java:220-221 | current + delta, or 1 when that is not positive; characterised by `NextWeightPositive` |
| Traffic.NextWeightPositive | TE_Visual/src/NetworkVisualizer.java:220-221 | the new weight is positive, and it is current + delta exactly when that is positive |
| Traffic.WithWeight | TE_Visual/src/NetworkVisualizer.java:170 | edge i's weight written, every other edge kept; the write of `ChangeLinkWeight`, and of `Perturb` at line 223 |
| Traffic.Perturb | TE_Visual/src/NetworkVisualizer.java:216-223 | one draw's weight write; characterised by `PerturbChangesOneWeight` |
| Traffic.PerturbChangesOneWeight | TE_Visual/src/NetworkVisualizer.java:216-223 | the weight write changes exactly the picked edge's weight, to a positive value |
| Traffic.Iterate | TE_Visual/src/NetworkVisualizer.java:216-225 | one iteration: weight step, load pass, repaint; characterised by `IterateChangesOneWeight` and `IterateLoads` |
| Traffic.IterateChangesOneWeight | TE_Visual/src/NetworkVisualizer.java:216-225 | an iteration keeps the ids and every weight but the picked one, which gets its next weight |
| Traffic.IterateLoads | TE_Visual/src/NetworkVisualizer.java:216-225 | after an iteration every edge with traffic has a load, and every edge without keeps its old one |
| Traffic.RunFrom | TE_Visual/src/NetworkVisualizer.java:214-232 | the iterations from one on, ending early when the statistics meet a missing load; characterised by `RunKeepsIdsAndPositiveWeights`, `RunCompletesWithFullTraffic` and `RunAbortsWithoutLoad` |
| Traffic.RunKeepsIdsAndPositiveWeights | TE_Visual/src/NetworkVisualizer.java:214-232 | the run keeps every id and keeps all-positive weights positive; an abort falls on an iteration that is a multiple of 100 |
| Traffic.RunCompletesWithFullTraffic | TE_Visual/src/NetworkVisualizer.java:214-232 | when every edge has traffic, the run never aborts |
| Traffic.RunAbortsWithoutLoad | TE_Visual/src/NetworkVisualizer.java:228-231 | an edge with no traffic and no load makes the statistics at iteration 0 throw |
| TEVisual.NetworkVisualizer.constructor | TE_Visual/src/NetworkVisualizer.java:53-79 | the read topology, whose edges carry a weight but no load or style (line 71), and the traffic matrix, with an empty load table |
| TEVisual.NetworkVisualizer.ComputeLinkLoads | TE_Visual/src/NetworkVisualizer.java:113-130 | the edges become `LoadedEdges` and the table `LoadTable` of the old edges; ids stay unique |
| TEVisual.NetworkVisualizer.MaxLoad | TE_Visual/src/NetworkVisualizer.java:133 | returns the largest table entry, attained by some key, or 1.0 for an empty table |
| TEVisual.NetworkVisualizer.UpdateGraphColors | TE_Visual/src/NetworkVisualizer.java:132-150 | the edges become `Painted` for the table's heaviest load; the table stays |
| TEVisual.NetworkVisualizer.DisplayLoadStatistics | TE_Visual/src/NetworkVisualizer.java:263-271 | returns the average load, 0 for no edges, or `None` when some edge has no load |
| TEVisual.NetworkVisualizer.FindEdge | TE_Visual/src/NetworkVisualizer.java:166 | returns the index of the edge with the id, or `None` exactly when no edge has it |
| TEVisual.NetworkVisualizer.ChangeLinkWeight | TE_Visual/src/NetworkVisualizer.java:166-180 | found exactly when the id exists; an unknown id changes nothing; otherwise the table is that of the network with the new weight, and the edges are loaded and painted for it |
| TEVisual.NetworkVisualizer.OptimiseStep | TE_Visual/src/NetworkVisualizer.java:216-225 | the edges become `Iterate` of the old ones and the table matches them |
| TEVisual.NetworkVisualizer.OptimizeOSPFWeights | TE_Visual/src/NetworkVisualizer.java:209-233 | edges and outcome are `RunFrom` the old edges over the 5000 draws, and the table matches the final edges |

## Left out

- Shortest-path search (GraphStream's `Dijkstra`): the path found is a parameter (`route`). `ValidPath` constrains it to be a connected path of edge indices from `start` to `end`; it may be empty only when `start == end`.
- An unreachable target is modelled as `route == None`, which is the source's `path == null` branch (lines 207, 265 and 336). The path-search library is not part of this model. If that library answers an unreachable target with an empty path rather than null, then that case is an empty route with `start != end`. `ValidPath` excludes it, so the model says nothing about it.
- Swing windows, labels' text formatting, the graph viewer and `refreshGraph`: rendering only. The root visualizer's label colour is the function `EdgeColour` rather than a stored attribute.
- `Thread.sleep`, the background thread and the console trace of every round: timing and output only.
- File reading and the parsing of topology, weight, cost, capacity, traffic and console input: the constructors take the parsed tables. `ChangeLinkWeight` starts after its input line is parsed. The "invalid format" branches print and change nothing.
- `Random`: the seeds of `optimizeNetworkWeights` and the draws of `optimizeOSPFWeights` are parameters.
- `Main.java` and both `main` methods: they only wire the calls together.
- `calculateAndDisplayStatistics` of the root visualizer: a report window that changes no state.
- The minimum and maximum loop of `displayLoadStatistics` (lines 276-286): it only prints. Its `Double.MIN_VALUE` start and IEEE details (NaN, signed zeros, rounding) are outside the real-number model.
- Engine.NetworkVisualizer.Transmit: on a path whose bottleneck is not positive, the source loops forever. The model stops after the first such round with `Stalled`, and `StalledFlowNeverEnds` states that no later round drains the data.
- Engine.NetworkVisualizer.SimulateFlow: inherits `Transmit`'s `Stalled` exit. On a path whose bottleneck is not positive, the source's flow loop never ends, and the model returns `Stalled` after its first round.
- Engine.NetworkVisualizer.Valid: requires every stored capacity and every load to be non-negative. The source accepts any parsed double, both when it reads the capacity file (lines 164-165) and from the Apply button (lines 642-647). A negative bottleneck makes `totalData` grow (lines 284-285), so the flow loop never ends. That loop writes negative loads, and a negative load over a stored 0.0 capacity costs −Infinity. Java's `cost < bestCost` (line 375) accepts −Infinity, whereas `Cost.NonFinite` is never an improvement. So the cost model, where every non-finite cost absorbs later additions and never wins, holds only under this restriction.
- TEVisual.NetworkVisualizer.OptimizeOSPFWeights: `rand.nextInt(0)` throws on a graph with no edges. The requirement of 5000 draws each below the edge count excludes that graph, and the `edge == null` skip is unreachable for such draws.
- A missing `weight` attribute: both visualizers' edges always carry a weight here. The interactive visualizer's topology reader always sets one. For the root visualizer's optimiser, every weight is seeded before it is read.
