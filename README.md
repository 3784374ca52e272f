# Roadmap planner core, modelled in Dafny

This project models the planning engine of the walking-machine roadmap tool:

- **The roadmap graph.** It keeps a flat coordinate buffer with `q_size` numbers per vertex and one neighbour list per vertex.
- **The resumable PRM / sPRM planner.** `init_algo` binds a robot system, installs one sampling range per coordinate, reseeds the generator and hands back an empty graph. Each `continue_map` call does one of two things:
  - on an empty graph, it samples `n` valid configurations by rejection;
  - otherwise it connects vertex `internal_cnt` to the later vertices that the radius search finds and that `valid_cfg_seq` accepts, then advances the cursor.
- **The sampler.** It wraps a uniform engine (`sampler_imp<std::mt19937>`).
- **The robot systems.** These are the shared `system_nd` base (the `valid_cfg` call counter, the obstacle list, the system file) and its two tools:
  - the point robot `system_2d`;
  - the planar arm `system_planar_arm`. This covers its forward kinematics, the collision check of a configuration, the interpolated motion check, the recovery of joint angles from dragged joints, and its three-row part of the system file.
- **`unit_ball_volume`.**

Modules:

| module | file | models |
|---|---|---|
| `RoadmapGraph` | roadmap_graph.dfy | `graph`: the buffer/list invariant, `get_vertice`, `add_vertice`, `add_edge` |
| `Prm` | prm.dfy | `algorithm`, `prm`, `s_prm`: fields, constructors, `init_algo`, `continue_map`, both phases |
| `Sampling` | sampler.dfy | `sampler_imp::seed` / `generate` and `uniform_real_distribution` ranges |
| `Obstacles` | obstacles.dfy | `obstacle_list`, `circle_from_file`, `write_circle_to_file` |
| `Systems` | systems.dfy | `system_nd`, `system_2d`, the planar-arm constructors, `save`, `get_from_file` |
| `PlanarArm` | planar_arm.dfy | the static helpers and methods of system_planar_arm.cpp |
| `AlgoUtils` | algo_utils.dfy | `unit_ball_volume` |
| `TextStream` | text_stream.dfy | `ifstream` / `ofstream` as sequences of items with `>>` skipping blanks |
| `Geometry` | geometry.dfy | points, circles, segments, pi; uninterpreted `cos`, `sin`, `atan2`, `intersect` |

### Modelling choices

- **Numbers.**
  - Floats are `real` and `uint` is `nat`.
  - A stream is a sequence of items: an unsigned integer, a decimal number, a space or a newline. Round trips therefore hold at the level of these items.
  - A formatted read skips blanks first. When a read fails, the target gets 0 and the stream is marked failed.
- **The planner's view of the system.** The planner sees the bound system as a `Space` value: its q-size, its coordinate bounds and its two validity checks, as function values. The `valid_cfg` call counter is modelled on `SystemNd`, where it lives.
- **The radius search.** `get_next_in_radius` is a parameter. It is a pure function of the q-size, the coordinate buffer, the squared radius, the start index and the query vertex, and it never answers below its start argument. That last property also makes the connection loop terminate.
- **The random engine.** The engine is a stream `nat -> [0, 1)` plus a count of values drawn. A draw maps the next value into its range.
- **The connection phase** is built from small methods:
  - `LinkCandidates` is the `while` loop;
  - `ExamineCandidate` is one round of it;
  - `LinkIfAccepted` is the inner `if`.

  Each is proved against `Accepted`, the list of candidates the loop accepts. `Connected` states what the resulting `add_edge` calls do to the lists.

## Model

| member | source | states |
|---|---|---|
| `AlgoUtils.UnitBallVolume` | algo_utils.h:4-13 | The unit-ball volume is positive in every dimension. |
| `AlgoUtils.UnitBallVolumeLowDimensions` | algo_utils.h:6-12 | V(0) = 1, V(1) = 2, V(2) = pi and V(3) = 4 pi / 3. |
| `AlgoUtils.UnitBallVolumeEven` | algo_utils.h:12 | The recursion gives V(2k) = pi^k / k! in every even dimension. |
| `AlgoUtils.UnitBallVolumeOdd` | algo_utils.h:12 | The recursion gives V(2k+1) = 2 (2 pi)^k / (1 * 3 * ... * (2k+1)) in every odd dimension. |
| `Sampling.Draw` | algorithm.hpp:22-26 | For a range with low <= high, the drawn value lies in [low, high), or equals low when the range is a point. |
| `Sampling.Sampler.constructor` | algorithm.hpp:15-17 | A sampler over the given engine with nothing drawn yet. |
| `Sampling.Sampler.Seed` | algorithm.hpp:20 | The argument is ignored: every seed restarts the engine's stream from its beginning. |
| `Sampling.Sampler.Generate` | algorithm.hpp:22-26 | Returns the next engine output mapped into the range, so it lies within the range. Advances the stream by exactly one. |
| `RoadmapGraph.Graph.constructor` | shape_collections.hpp:74-78 | An empty graph of the given q-size that satisfies the invariant. The invariant: buffer length is q_size times the vertex count, indices are in bounds, adjacency is symmetric. |
| `RoadmapGraph.Graph.GetVertice` | shape_collections.hpp:79 | Vertex idx is q_size coordinates, the slice [idx*q_size, (idx+1)*q_size) of the buffer. |
| `RoadmapGraph.Graph.AddVertice` | shape_collections.hpp:80-85 | Appends exactly the first q_size numbers of data to the buffer, in order. Appends one empty neighbour list. The new vertex reads back as data and every older vertex is unchanged. The invariant is kept. |
| `RoadmapGraph.Graph.AddEdge` | shape_collections.hpp:87-90 | The lists become `WithEdge` of the old lists. The buffer is unchanged and the invariant (with symmetry) is kept. Requires both ids below the vertex count. |
| `RoadmapGraph.WithEdgeLists` | shape_collections.hpp:87-90 | id2 is appended to id1's list and id1 to id2's list; a self-edge appends id1 twice. The number of lists and every other list are unchanged. |
| `RoadmapGraph.WithEdgeKeepsShape` | shape_collections.hpp:87-90 | Adding an edge keeps every neighbour index in bounds and the adjacency symmetric, counted with multiplicity. |
| `RoadmapGraph.WithEdgeCount` | shape_collections.hpp:88-89 | The edge adds copies of j to the list of i exactly where (i, j) is (id1, id2) or (id2, id1). |
| `RoadmapGraph.SymmetricMembership` | shape_collections.hpp:77 | Under the symmetry invariant, j is a neighbour of i exactly when i is a neighbour of j. |
| `RoadmapGraph.MulIsProduct` | shape_collections.hpp:81-83 | The slot arithmetic is the product q_size * count, so the buffer holds q_size numbers per vertex. |
| `RoadmapGraph.VertexOfAppend` | shape_collections.hpp:80-84 | Appending q_size numbers adds one vertex holding exactly them and leaves every earlier vertex's slice unchanged. |
| `Prm.NextCandidate` | prm.cpp:31-32 | The radius search never answers a vertex below the start index. |
| `Prm.Accepted` | prm.cpp:28-38 | Every neighbour the connection loop links lies in [start, n). |
| `Prm.AcceptedIncreasing` | prm.cpp:30-33 | The linked neighbours come out in strictly increasing order, so no edge is added twice. |
| `Prm.AcceptedChecked` | prm.cpp:34-37 | Every linked neighbour passed `valid_cfg_seq` from the current vertex. |
| `Prm.ConnectedLists` | prm.cpp:37 | Linking c to increasing later vertices appends them, in order, to the list of c. Each of them gains c exactly once. No other list changes. |
| `Prm.ConnectionRoundEdges` | prm.cpp:28-38 | One connection round gives c exactly the accepted later vertices below n, each of which passed `valid_cfg_seq`. Each gains c once and nothing else changes. |
| `Prm.Planner.constructor` | prm.hpp:18-19 | n = num_points, internal_cnt = 0 and r_multi as given. No system is bound (sys is NULL, algorithm.hpp:34). A fresh default mt19937 sampler. |
| `Prm.Planner.WithSampler` | prm.hpp:20-22 | n = num_points, internal_cnt = 0, r_multi as given, no system bound, and the given sampler stored as the generator (algorithm.hpp:48-51). This covers both `prm` and `s_prm`, whose constructors forward unchanged. |
| `Prm.Planner.CheckConnection` | prm.hpp:11 | True exactly for `prm`; `s_prm` overrides it to false (prm.hpp:27). |
| `Prm.Planner.SetNumPoints` | prm.hpp:13 | n becomes the argument and nothing else changes. |
| `Prm.Planner.GetNumPoints` | prm.hpp:14 | Returns n. |
| `Prm.Planner.InitAlgoInternal` | prm.cpp:43-48 | Rewinds internal_cnt to 0 and returns null. |
| `Prm.Planner.InitAlgo` | algorithm.cpp:9-22 | Binds sys to the new system and replaces the ranges by exactly q_size ranges, range i spanning [dims_low[i], dims_high[i]). Reseeds the generator, rewinds the cursor and returns a fresh empty graph of the system's q-size. |
| `Prm.Planner.DrawConfiguration` | prm.cpp:12-13 | Coordinate j of the buffer is the engine's next output after j earlier draws, mapped into ranges[j], so it lies in that range. The stream advances by exactly the q-size. |
| `Prm.Planner.DrawValid` | prm.cpp:11-16 | The stream only moves forward, by at least one configuration. When a configuration is returned, it is the last one drawn: its coordinates are the last q-size engine outputs mapped into their ranges. `valid_cfg` accepts it; invalid draws are redrawn. |
| `Prm.Planner.SampleVertices` | prm.cpp:6-22 | On an empty graph, the sampling phase never answers false. When it finishes it has added exactly n vertices and no edges. Each vertex is accepted by `valid_cfg` and drawn coordinate by coordinate from the ranges. |
| `Prm.Planner.LinkIfAccepted` | prm.cpp:34-37 | Adds the edge (c, neigh) exactly when `valid_cfg_seq` accepts the move from c's configuration to neigh's; otherwise the lists are unchanged. |
| `Prm.Planner.ExamineCandidate` | prm.cpp:31-37 | One loop round: the candidate is the radius search's answer. The edge is added exactly when the candidate is below n and passes the sequence check. |
| `Prm.Planner.LinkCandidates` | prm.cpp:28-38 | The `while` loop leaves the lists as `Connected` of the old lists with c's accepted neighbours. The buffer and the vertex count are unchanged. |
| `Prm.Planner.ConnectVertex` | prm.cpp:31-32 | Fetches vertex c and the squared radius and runs the loop. The lists become `Connected` with the neighbours the phase gives c. |
| `Prm.Planner.ConnectNext` | prm.cpp:25-40 | With internal_cnt >= n it returns false and changes neither graph nor cursor. Otherwise it adds no vertex and links internal_cnt to its accepted neighbours. It then advances internal_cnt by exactly one and returns whether it is still below n. |
| `Prm.Planner.ContinueMapInternal` | prm.cpp:3-41 | An empty graph goes to the sampling phase. Any other graph goes to the connection phase, with the outcomes of both stated as above. The connection phase draws nothing from the engine stream. |
| `Prm.Planner.ContinueMap` | algorithm.cpp:3-7 | Without a bound system it answers false and leaves the graph and cursor alone. Otherwise it has exactly the outcome of `continue_map_internal`. The engine stream is left where it was without a bound system and in the connection phase. |
| `Obstacles.ParseCircleText` | shape_collections.cpp:42-52 | Reading back a circle that `write_circle_to_file` wrote gives the same centre and radius. |
| `Obstacles.ParseCirclesText` | shape_collections.cpp:98-101 | Reading k circles back from k written records gives the same circles in the same order. |
| `Obstacles.ParseObstaclesText` | shape_collections.cpp:91-102 | `fill_from_file` after `save_as` reproduces the obstacle list in order. |
| `Obstacles.WriteCircle` | shape_collections.cpp:49-52 | Writes "x y r" and a newline. |
| `Obstacles.ReadCircle` | shape_collections.cpp:42-47 | Reads x, y, then the radius. |
| `Obstacles.ObstacleList.constructor` | shape_collections.hpp:23 | An empty list. |
| `Obstacles.ObstacleList.AddOne` | shape_collections.cpp:36-40 | Appends the circle at the end; earlier circles keep their place and data. |
| `Obstacles.ObstacleList.GetCircle` | shape_collections.cpp:71-74 | Returns the circle at position idx. |
| `Obstacles.ObstacleList.GetNumCircles` | shape_collections.cpp:76-79 | Returns the list length. |
| `Obstacles.ObstacleList.IntersectsWith` | shape_collections.cpp:81-89 | True exactly when some obstacle circle touches the shape. |
| `Obstacles.ObstacleList.SaveAs` | shape_collections.cpp:54-63 | Writes the count on its own line, then one record per circle in list order. |
| `Obstacles.ObstacleList.FillFromFile` | shape_collections.cpp:91-102 | Reads a count k, then k circles, appending them in file order. |
| `Systems.LoadSavedPoint2D` | shape_collections.cpp:187-206 | Loading what `save` wrote for a point-robot system gives back the same start circle, finish circle and obstacles, in order. |
| `Systems.LoadSavedArm` | shape_collections.cpp:196-203 | A saved arm never loads back as an arm. It gives NULL unless its q-size is 2, and then a point robot. |
| `Systems.SystemNd.Point2D` | shape_collections.cpp:119-135 | Start circle as given. The finish circle takes the end centre but the start radius. Counter 0, no obstacles. |
| `Systems.SystemNd.Point2DDefault` | shape_collections.hpp:70-71 | Both circles at the origin with DEFAULT_RADIUS 2. |
| `Systems.SystemNd.Point2DFromFile` | shape_collections.cpp:178-185 | Reads the start circle, then the finish circle. |
| `Systems.SystemNd.ArmUniform` | system_planar_arm.cpp:225-232 | An arm of num_links links, all of the given length, with the default joints of `init`. |
| `Systems.SystemNd.ArmWithLengths` | system_planar_arm.cpp:234-241 | An arm whose link lengths are copied from the array, with the default joints. |
| `Systems.SystemNd.ArmFromFile` | system_planar_arm.cpp:243-254 | The arm the stream constructor reads. |
| `Systems.SystemNd.ValidCfgInternal` | shape_collections.cpp:159-163 | The point robot rejects every configuration. The arm accepts exactly the configurations whose links hit no obstacle. |
| `Systems.SystemNd.ValidCfg` | shape_collections.hpp:45-48 | Increments the call counter by exactly one and passes on the tool's answer unchanged. |
| `Systems.SystemNd.ResetCounter` | shape_collections.hpp:52 | The call counter becomes 0. |
| `Systems.SystemNd.SaveTool` | shape_collections.cpp:165-174 | The point robot writes its start, then its finish circle; the arm writes its three rows. |
| `Systems.SystemNd.Save` | shape_collections.cpp:110-117 | Writes the q-size on its own line, then the tool, then the obstacles. |
| `Systems.GetFromFile` | shape_collections.cpp:187-207 | NULL for a file that does not open or for any dimension other than 2. Otherwise a point robot with the two circles and the obstacle list read from the file. |
| `PlanarArm.LinksChain` | system_planar_arm.cpp:17-31 | The links form a chain: link 0 starts at the root and link i starts where link i-1 ends. |
| `PlanarArm.AccumulatedIsPrefixSum` | system_planar_arm.cpp:22-26 | The accumulated angle after i links is the sum of joint angles 0..i-1. |
| `PlanarArm.LinkDirection` | system_planar_arm.cpp:5-15 | Link i has length link_len[i] along the direction given by the sum of joint angles 0..i. |
| `PlanarArm.GetAllLinks` | system_planar_arm.cpp:17-31 | Returns exactly the num_links links of the chain. |
| `PlanarArm.IsLineAllowed` | system_planar_arm.cpp:33-44 | True exactly when no obstacle intersects the segment. |
| `PlanarArm.ValidCfgInternal` | system_planar_arm.cpp:46-61 | True exactly when no obstacle intersects any of the num_links links. |
| `PlanarArm.SteppedClosedForm` | system_planar_arm.cpp:77-80 | After k interpolation steps each joint angle is cfg_1 plus k times its increment. |
| `PlanarArm.LastStepReachesGoal` | system_planar_arm.cpp:69-71 | Over the reals, the last of the num_links + 1 steps lands exactly on cfg_2. |
| `PlanarArm.ValidCfgSeqInternal` | system_planar_arm.cpp:63-93 | True exactly when all num_links + 1 end-effector segments between consecutive interpolated configurations, the first starting at cfg_1's end effector, miss every obstacle. Returns false at the first segment that does not. |
| `PlanarArm.LastJoint` | system_planar_arm.cpp:84 | The end of the last link is the end effector. |
| `PlanarArm.Increments` | system_planar_arm.cpp:69-71 | Increment j is (cfg_2[j] - cfg_1[j]) / (num_links + 1). |
| `PlanarArm.CopyPrefix` | system_planar_arm.cpp:73-74 | The copy holds the first num_links angles of cfg_1. |
| `PlanarArm.StepConfiguration` | system_planar_arm.cpp:78-80 | The next configuration is the previous one plus the increments. |
| `PlanarArm.RecalculateAngles` | system_planar_arm.cpp:153-165 | Each of the first num_links angles becomes the change of absolute direction at its joint; the rest of the array is untouched. |
| `PlanarArm.RelativeAnglesSumToDirection` | system_planar_arm.cpp:159-164 | The prefix sums of the recalculated angles reproduce the absolute link directions. |
| `PlanarArm.Init` | system_planar_arm.cpp:185-190 | Every joint starts at 0 with finish pi/4 and limits [-pi/2, pi/2]. |
| `PlanarArm.NewArm` | system_planar_arm.cpp:229-230 | Every link gets the universal length and the joints their defaults. |
| `PlanarArm.NewArmWithLengths` | system_planar_arm.cpp:238-239 | Link lengths are copied from the array in order and the joints get their defaults. |
| `PlanarArm.ParseRowText` | system_planar_arm.cpp:256-260 | Reading a written row of n numbers back gives the same numbers. |
| `PlanarArm.ParseArmText` | system_planar_arm.cpp:262-268 | The stream constructor reads back what `save_tool` wrote: the same link count, lengths and start and finish angles, with the default root and limits. |
| `PlanarArm.WriteRow` | system_planar_arm.cpp:258-259 | The n numbers separated by spaces, the last followed by a newline. |
| `PlanarArm.SaveArm` | system_planar_arm.cpp:264-267 | The link count on its own line, then the rows of lengths, start angles and finish angles. |
| `PlanarArm.ReadRow` | system_planar_arm.cpp:247-248 | n successive float reads. |
| `PlanarArm.ReadArm` | system_planar_arm.cpp:245-252 | Reads the link count, then the rows of lengths, start and finish angles, with the joint limits from `init`. |

## Left out

- **Not modelled:**
  - rendering and user interaction: `shape_manager`, `pre_draw`, `draw`, `gfx_mgr_init`, `correct_moved_objects`, the graphics half of `init`, the editor parameters and the main loop;
  - `apply_transforms`. Obstacles and tool circles are modelled with the positions they hold.
- **Outside functions left abstract:**
  - `cosf`, `sinf`, `atan2f` and the library `intersect` / `intersects_with` are uninterpreted functions;
  - the root point of the arm is an unspecified constant;
  - the Mersenne Twister is an unspecified stream of values in [0, 1), and its internals are not modelled.
- **Single-precision floats:** rounding and the `ofstream` print precision are not modelled. Numbers are reals, so round trips hold at the level of stream items. Because of this, a float range can round up to its upper bound, which the model does not capture.
- **Failed stream reads:** a read that fails yields 0, as a failed parse stores since C++11. The model does the same when the stream had already failed or has run out, where `>>` would leave its target unchanged. A decimal number where a count is expected is treated as a failed read.
- **Bodies that are not part of this model:**
  - `get_next_in_radius`: only its "never below start" property is used;
  - `get_connection_radius`: `r` is a field whose value is not derived, and `base_r`, `r` and `seed` are never assigned in the modelled files;
  - `get_dims_low` / `get_dims_high`: they are the bounds of `Space`;
  - the arm's `get_q_size`: an unspecified function of the arm;
  - `prm`'s own `continue_map_internal` and `init_algo_internal`: the planner runs the `s_prm` bodies for both variants.
- The union-find, path search and path interpolation are not part of this model.
- `algorithm::init_algo_internal`: this default returns null. Every planner overrides it, and `InitAlgoInternal` models the `s_prm` override, which also returns null.
- `Prm.Planner.SampleVertices`: it takes a `fuel` bound on the number of redraws, because rejection sampling need not terminate. With the point robot's stub `valid_cfg` it never does. When the fuel runs out the model answers None, where the source would still be redrawing.
- `Prm.Planner.ConnectNext`: when internal_cnt < n it requires n to be at most the vertex count, because otherwise the source reads past the buffer. With internal_cnt >= n there is no such requirement, since the call returns before any read.
- `Prm.Planner.ExamineCandidate`: `neigh + 1` is unbounded here; the source's unsigned `next_neigh` would wrap if the search answered UINT_MAX.
- The `delete` of an array allocated with `new[]` in the sampling phase is a memory-management matter and is not modelled.
- The valid_cfg counter is not threaded through the planner's `Space` checks. It is modelled on `SystemNd.ValidCfg` only.
- `Prm.Planner.InitAlgo`: it binds a snapshot of the system's checks, where the source keeps a pointer. Obstacles added to the bound system between `continue_map` calls would change the source's answers but not the model's.
- `Prm.Planner.LinkCandidates`: the radius search is a pure function that does not see the neighbour lists. The exact outcome `Connected(...)` relies on this, although the source hands the whole graph, whose lists the same loop changes, to `get_next_in_radius`.
- `Prm.Planner.SampleVertices`: it states that each vertex is valid and in range. It does not state which run of engine outputs formed which vertex; `DrawValid` states that for one configuration.
- `PlanarArm.ValidCfgSeqInternal`: it requires at least one link, and so does `PlanarArm.LastJoint`. With no links the source reads the link before the first one.
- **Header/source drift.** The code's behaviour is followed:
  - the stale `algorithm` class and the string signatures of `save_as` / `fill_from_file` in shape_collections.hpp;
  - `s_prm` methods defined but not declared.
- `Systems.LoadSavedArm`: `get_from_file` accepts only dimension 2, so a saved arm does not load back as an arm. This is stated as the code behaves, not as a round trip.
