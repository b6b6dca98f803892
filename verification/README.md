# Regions, worlds and fits: a verified model of Pandora and its GDAL algorithms

Pandora runs agent simulations on a square grid of MPI processes and carries a copy of GDAL. This
Dafny project models the parts of it that are hardest to get right and proves what they promise.
`dafny verify dfyconfig.toml` checks all of it.

**Raster regions** (`Common`, `Forest`, `Regions`, `Labelling`, `Enumerator`, `EightConnected`, `Sieve*`,
`Outlines`, `Polygons`, `Borders`, `LabelledPlane`, `Polygonize`, `FPolygonize`). The enumerator
labels an image line by line in a union-find map that is held in arrays. Its polygons are shown to
be exactly the regions that its own matching rule connects: with connectedness 4 the 4-connected
regions, with connectedness 8 something between the 4- and the 8-connected ones, and an exact
condition on the image says when it is the latter. On top of it the sieve filter is specified pixel by pixel, and
the polygonizer is shown to give away every polygon once, as closed rings that run along every edge
of its border exactly once. One enumerator class stands for both C++ classes: tolerance 0 is the integer
one, tolerance 10 the floating point one on bit patterns in their numerical order, where equality
is not transitive.

**Distributed worlds** (`World*`, `Rasters`, `StartUp*`, `RasterFile`, `AgentFile`). The section
loop is a state machine over all worlds at once: every world follows its own program counter, the
worlds are interleaved arbitrarily one message or one agent at a time, there is no barrier, and
messages travel on FIFO channels with buffered sends. From the traffic on the channels follow
safety (worlds that compute at the same time never reach a common cell), freedom from deadlock,
conservation of agents, and execution of every agent never twice per step. Worlds also send each other
copies of agents after every section, and a copy that arrives for an owned agent replaces it: from
copies that are right at the start it never moves it, which is shown by tracking how every agent was
before every section, and so every agent is executed exactly once per step, by the world in whose tile
it is. And the exchange is complete: what a world shows a partner in the zone that they share arrives and
is held. The start-up exchange of rasters is a second state machine, with non-blocking sends and
receives and a barrier per round. The result file is a map from datasets to values.

**Exact arithmetic and partitioning** (`LinearSystems`, `SolveMat`, `LeastSquares`, `GeoRef`, `Fit`,
`GCPTransformer`, `ColorBoxes`, `MedianCut*`, `Proximity*`). Doubles are exact reals. Elimination, least squares and
georeferencing, the median cut of a colour cube, and the two-sweep distance transform are in-place
loops over arrays, each against a specification of its own: solutions, minimal residuals, a tight
partition with conserved totals, distances to real targets.

Conventions: tiles are addressed by column and row; rectangles are half-open; a grid has row * row
worlds. Channels, places of agents, phase stamps of messages and the log of executions are records
that no world looks at. Where code and comments of the source differ, the code is followed: the sieve
does not track from a small neighbour on to its neighbour (libs/gdal-1.9.0/alg/gdalsievefilter.cpp:426-478),
a median cut with one colour is accepted (libs/gdal-1.9.0/alg/gdalmediancut.cpp:151-165 against its message),
the exchanged zone is not always the executed section with its overlap
(`WorldExchange.ZoneIsGrownSection`, `WorldExchange.MiddleZoneIsShifted`), and connectedness 8 is not full 8-connectivity
(`EightConnected.TornRegion`).

## Model

| member | source | states |
|---|---|---|
| Forest.JoinUnites | libs/gdal-1.9.0/alg/gdalrasterpolygonenumerator.cpp:85-98 | merging keeps the id map an acyclic forest and unites exactly two classes, leaving all others as they were |
| Forest.HalveKeepsRoots | libs/gdal-1.9.0/alg/gdalrasterpolygonenumerator.cpp:143-145 | one halving step of the flattening loop changes no class and strictly shortens the path, so the loop ends |
| Enumerator.PolygonEnumerator.MergePolygon | libs/gdal-1.9.0/alg/gdalrasterpolygonenumerator.cpp:85-98 | both parent chases end at roots; the map becomes the join of the two classes and the values stay |
| Enumerator.PolygonEnumerator.NewPolygon | libs/gdal-1.9.0/alg/gdalrasterpolygonenumerator.cpp:107-125 | hands out the next id as a class of its own with its value; growing the buffers loses nothing |
| Enumerator.PolygonEnumerator.CompleteMerges | libs/gdal-1.9.0/alg/gdalrasterpolygonenumerator.cpp:135-149 | afterwards every id points straight at the root it had before |
| Enumerator.PolygonEnumerator.Clear | libs/gdal-1.9.0/alg/gdalrasterpolygonenumerator.cpp:66-77 | a cleared enumerator is as good as a new one |
| Enumerator.PolygonEnumerator.ProcessLine | libs/gdal-1.9.0/alg/gdalrasterpolygonenumerator.cpp:162-223 | labels one line in place exactly as the scan of the specification does, ids and map |
| Labelling.ScanKeepsRows | libs/gdal-1.9.0/alg/gdalsievefilter.cpp:347-358 | later lines never change the ids of earlier ones, so a second scan reproduces the ids of the first |
| Labelling.PolygonsAreScannedRegions | libs/gdal-1.9.0/alg/gdalrasterpolygonenumerator.cpp:192-222 | two pixels get the same final id if and only if a chain of direct matches joins them, for any tolerance |
| Labelling.PolygonsAreFourRegions | libs/gdal-1.9.0/alg/gdalrasterpolygonenumerator.cpp:162-223 | with connectedness 4 the polygons are exactly the 4-connected regions of equal pixels |
| Labelling.ScannedBetween | libs/gdal-1.9.0/alg/gdalrasterfpolygonenumerator.cpp:165-225 | with any connectedness a polygon contains every 4-connected region it meets and lies in one 8-connected region |
| Labelling.TwoPixels | libs/gdal-1.9.0/alg/gdalrasterfpolygonenumerator.cpp:165-225 | two pixels side by side are in one polygon exactly when their values differ by the tolerance at most |
| EightConnected.OpenRegionsAreScanned | libs/gdal-1.9.0/alg/gdalrasterpolygonenumerator.cpp:192-222 | with connectedness 8 the enumerator joins exactly the pixels that chains of equal 8-neighbours join when the skipped pairs, told by the values of the image alone, are left out |
| EightConnected.EightRegionsExactly | libs/gdal-1.9.0/alg/gdalrasterpolygonenumerator.cpp:194-218 | with connectedness 8 the polygons are the 8-connected regions if and only if every skipped pair of pixels of the image is joined by a chain of equal 8-neighbours without skipped pairs |
| EightConnected.NothingSkipped | libs/gdal-1.9.0/alg/gdalrasterpolygonenumerator.cpp:194-218 | an image in which the guard of the skipped branch never holds is labelled by its 8-connected regions |
| EightConnected.TornRegion | libs/gdal-1.9.0/alg/gdalrasterpolygonenumerator.cpp:194-218 | a two-line image whose 8-connected region ends up in two polygons |
| Sieve.CompareNeighbour | libs/gdal-1.9.0/alg/gdalsievefilter.cpp:102-129 | after comparing two more pixels every polygon still knows one of the largest neighbours seen so far |
| Sieve.CountLine | libs/gdal-1.9.0/alg/gdalsievefilter.cpp:258-265 | the sizes count the pixels of every id, saturating at the largest 32-bit integer |
| SieveSizes.PushedSizes | libs/gdal-1.9.0/alg/gdalsievefilter.cpp:301-315 | pushing the sizes of fragments gives every final polygon the saturated size of its region |
| Sieve.SecondPass | libs/gdal-1.9.0/alg/gdalsievefilter.cpp:333-423 | after all lines every polygon knows a largest neighbour, over all pairs of neighbouring pixels of the image |
| Sieve.ApplyThreshold | libs/gdal-1.9.0/alg/gdalsievefilter.cpp:434-478 | keeps a target only for polygons with data below the threshold whose largest neighbour is not below it |
| SieveProof.SievedFour | libs/gdal-1.9.0/alg/gdalsievefilter.cpp:333-535 | with connectedness 4 the specification over scanned regions is that over 4-connected regions |
| SieveSpec.SizesAreExact | libs/gdal-1.9.0/alg/gdalsievefilter.cpp:258-265 | in an image of less than 2^31 pixels the size of a region that is compared with the threshold is the number of its pixels |
| SieveSpec.NeighboursTouch | libs/gdal-1.9.0/alg/gdalsievefilter.cpp:370-423 | the pixels that are compared are those that the adjacency of regions joins when values are equal, by sides or also at corners |
| Sieve.GDALSieveFilter | libs/gdal-1.9.0/alg/gdalsievefilter.cpp:225-541 | every output pixel: the value of a largest adjacent region with data if the own region is below the threshold and that one is not, and the input value otherwise; masked pixels stay as they are |
| Polygons.RPolygon.AddSegment | libs/gdal-1.9.0/alg/fpolygonize.cpp:238-305 | adds exactly one unit edge to the multiset of edges, whether a string is extended, its last segment continued, or a new string begun |
| Polygons.RPolygon.Merge | libs/gdal-1.9.0/alg/fpolygonize.cpp:203-232 | joins two strings end to end in either direction and removes the second; no edge is lost or doubled |
| Polygons.RPolygon.Coalesce | libs/gdal-1.9.0/alg/fpolygonize.cpp:141-197 | ends, keeps all edges, and leaves only closed rings when every lattice point has even degree |
| Outlines.ChainTurned | libs/gdal-1.9.0/alg/fpolygonize.cpp:210-226 | a string has the same edges in both directions |
| Outlines.SegmentContinued | libs/gdal-1.9.0/alg/fpolygonize.cpp:273-287 | when the collinearity test holds, the longer segment covers exactly the old one and the new edge |
| Outlines.ChainDegree | libs/gdal-1.9.0/alg/fpolygonize.cpp:141-197 | a string meets a lattice point an odd number of times exactly when one end, and not the other, is there |
| Outlines.LooseEndIsClosed | libs/gdal-1.9.0/alg/fpolygonize.cpp:191-195 | the parity argument behind the closing assertion |
| Borders.BorderIsEven | libs/gdal-1.9.0/alg/fpolygonize.cpp:322-375 | the edges that separate a polygon from the rest meet every lattice point an even number of times |
| Borders.PixelCollected | libs/gdal-1.9.0/alg/fpolygonize.cpp:322-375 | comparing a pixel with those above and to its right collects the separating edges for the polygons on both sides, each once |
| Borders.FlushedIsComplete | libs/gdal-1.9.0/alg/fpolygonize.cpp:739-762 | a polygon not updated on the last two lines has its whole border, and no later line adds to it |
| LabelledPlane.PlaneIsContiguous | libs/gdal-1.9.0/alg/fpolygonize.cpp:691-762 | the pixels of a polygon lie in rows without a gap |
| LabelledPlane.ValueIsShown | libs/gdal-1.9.0/alg/fpolygonize.cpp:749-760 | the value that a polygon is given away with is that of one of its pixels |
| Polygonize.Collector.AddEdges | libs/gdal-1.9.0/alg/fpolygonize.cpp:322-375 | the drafts of all polygons after one pixel, with line numbers |
| Polygonize.Collector.Emit | libs/gdal-1.9.0/alg/fpolygonize.cpp:749-760 | a complete polygon becomes a feature with closed rings along its border, or is dropped when masked, and is removed |
| Polygonize.Collector.Flush | libs/gdal-1.9.0/alg/fpolygonize.cpp:743-762 | early flushing keeps everything collected and every feature right |
| Polygonize.Collector.Finish | libs/gdal-1.9.0/alg/fpolygonize.cpp:788-807 | after the final flush every polygon with pixels that is not masked has been given away once |
| FPolygonize.GDALFPolygonize | libs/gdal-1.9.0/alg/fpolygonize.cpp:603-807 | there is one feature for every polygon whose value is not that of the mask, within the tolerance, no polygon twice, each with the value of a pixel of it and closed rings along every edge of its border once |
| WorldGeometry.SetupIsGood | pandora/World.cxx:92-112 | the set-up checks accept exactly the grids with an even positive tile size, an overlap that fits twice into half a tile, and tiles that cover the raster |
| WorldGeometry.SetupErrors | pandora/World.cxx:92-112 | which error tells which check fails, in the order of the checks |
| WorldGeometry.IdsAndTiles | pandora/World.cxx:674-679 | ids and tile positions determine each other, and ids of the grid are tiles of the grid |
| WorldGeometry.OwnerOfPosition | pandora/World.cxx:668-672 | the id computed from a position is that of the one world whose tile contains it |
| WorldGeometry.NeighborsAre | pandora/World.cxx:114-126 | the neighbour list holds exactly the adjacent tiles, each once |
| WorldGeometry.SectionsPartition | pandora/World.cxx:158-163 | the four sections partition the tile |
| WorldNode.Node.StablishPosition | pandora/World.cxx:103-169 | the loops and branches of set-up yield the tile, neighbours in order, halo and sections of the geometry, and fail exactly when the raster is not divisible |
| WorldNode.Node.StepSection | pandora/World.cxx:414-489 | executing the chosen agents in place is the fold of single executions: owned agents, ghosts, executed set and agents to send |
| WorldNode.SectionIsRun | pandora/World.cxx:425-489 | what one call does is a run of the protocol, after which no agent of the section is left to execute |
| WorldExchange.SendingMatchesReceiving | pandora/World.cxx:1709-1877 | a world sends after a section exactly when its partner expects to receive |
| WorldExchange.EveryNeighborIsServed | pandora/World.cxx:1709-1792 | over the four sections every neighbour is served |
| WorldExchange.InternalMeetsExternal | pandora/World.cxx:1368-1561 | the strip cut out on one side and the strip put in on the other are the same global cells, inside both rasters and owned by the sender |
| WorldExchange.OverlapZonesAgree | pandora/World.cxx:1563-1707 | both sides of a section exchange compute the same global zone, inside both rasters |
| WorldExchange.HaloIsCovered | pandora/World.cxx:1472-1561 | every halo cell lies in the strip kept for the neighbour that owns it |
| WorldExchange.ZoneIsGrownSection | pandora/World.cxx:1575-1602 | along a shared border the zone is the executed half grown by the overlap if and only if it is the near half or the tile is at the rim of that axis |
| WorldExchange.MiddleZoneIsShifted | pandora/World.cxx:1563-1707 | in the middle of a grid of three by three the zone shared after one section misses a cell that both worlds keep copies of and the section reaches, and has one that it does not reach |
| WorldExchange.ReachesAreDisjoint | pandora/World.cxx:92-101 | the same section of two worlds, grown by the overlap, never meets; nor do any sections of worlds that are no neighbours |
| WorldExchange.WiderOverlapConflicts | pandora/World.cxx:92-101 | the check of the overlap is exact: a wider overlap makes two neighbours reach a common cell |
| WorldZones.SentZoneIsClear | pandora/World.cxx:1563-1792 | the zone that a world sends after a section stays clear of that section of every other world |
| WorldZones.SectionInHaloIsReceived | pandora/World.cxx:1563-1877 | what the halo of a world shows of a section of another world lies in the zone that it receives after that section |
| WorldSetUp.SetUpIsGood | pandora/World.cxx:213-221 | the partner lists of the program agree on both sides, for agents and for ghosts |
| WorldTraffic.TrafficAlways | pandora/World.cxx:523-586 | in every reachable state headers and agents on every channel match the program counters at both ends, in number, order, phase and type |
| WorldSafety.ComputingNeighborsAgree | pandora/World.cxx:851-870 | neighbours that compute at the same time are in the same section of the same step |
| WorldSafety.NeighborsKeepPace | pandora/World.cxx:845-870 | neighbours are never more than one section apart |
| WorldSafety.ComputingWorldsReachDisjointCells | pandora/World.cxx:845-870 | in every run, without a barrier, worlds that compute at the same time reach disjoint cells |
| WorldSafety.NoDeadlock | pandora/World.cxx:847-866 | in every reachable state all worlds have finished or some world can go on |
| WorldSafety.FinishedMeansDrained | pandora/World.cxx:695-739 | when all have finished, everything sent has been received |
| WorldAgents.AgentsConserved | pandora/World.cxx:397-504 | in every reachable state the agents are those of the start, each in exactly one place |
| WorldAgents.SectionConservesAgents | pandora/World.cxx:523-739 | after every section each agent is owned by exactly one world and the agent channels are empty |
| WorldExecution.ReceivedInPhase | pandora/World.cxx:695-739 | what is received, agents and copies alike, was sent in the same section and is of the type that is being served |
| WorldExecution.NeverExecutedTwice | pandora/World.cxx:176-182 | in every run no agent is executed twice in a step, by one world or by two |
| WorldHistory.RecordAdvances | pandora/World.cxx:414-489 | every action leaves alone how agents were before earlier sections, and an agent is changed only in the section in which it is due, where it then is |
| WorldCopies.OwnerHasIt | pandora/World.cxx:695-739 | while a world exchanges copies after a section it owns every agent that was in its tile at the end of the section |
| WorldCopies.CopiesRightKept | pandora/World.cxx:207-395 | every action keeps all copies right, in worlds, outboxes and on channels: as of the end of the section, or as of its beginning where the exchange has yet to come |
| WorldCopies.OwnersAloneMoveAgents | pandora/World.cxx:336-347 | in every run from right copies, no copy that arrives for an owned agent shows it elsewhere |
| WorldCopies.CopiesShowAgents | pandora/World.cxx:293-395 | in every run from right copies, a copy in the halo of a world about to execute a section is of an agent of another tile, and equals it unless its owner has executed it since |
| WorldDelivery.ShownIsDelivered | pandora/World.cxx:207-395 | in every run from right copies, whatever a world owned or held a copy of when its section ended, in the zone shared with a partner, that partner holds a copy of once it has been served, and of agents in the tile of the sender until it receives agents again |
| WorldDelivery.NeighborsAreSeen | pandora/World.cxx:847-857 | a world about to execute a section holds a copy, exactly as it is, of every agent in the zone shared with a partner that sent to it after the section before, unless the agent was executed since |
| WorldDelivery.LeavingIsShown | pandora/World.cxx:466-478 | an agent that leaves its tile is kept as a copy by the world that executed it, and shown to the partners of that section |
| WorldDelivery.LaterZoneMisses | pandora/World.cxx:313-389 | zones overlap, but what a partner sends of its own tile is not erased when a partner that is served later replaces its zone |
| WorldDelivery.SetUpInOrder | pandora/World.cxx:114-126 | the program serves its partners column by column, the order in which later zones erase nothing that is needed |
| WorldCopies.ExecutedOnceInEveryStep | pandora/World.cxx:845-867 | in every run from right copies that has finished, every agent was executed exactly once in every step |
| WorldCopies.OwnersAreInPlace | pandora/World.cxx:466-478 | in every state of every run from right copies, an owned agent is owned by the world whose boundaries contain its position |
| WorldCopies.SetUpByTheTables | pandora/World.cxx:207-222 | the program exchanges copies with the neighbours that the tables tell, so that these results apply to it |
| Rasters.Raster.SetValueAt | pandora/Raster.cxx:93-125 | stores a value exactly when it is in bounds and respects both maxima, and otherwise reports which guard fired and changes nothing |
| Rasters.Raster.SetMaxValueAt | pandora/Raster.cxx:127-153 | the same for maxima |
| Rasters.Raster.Pack | pandora/World.cxx:622-627 | the message loop lists the cells of a rectangle row by row, or fails on the first cell out of bounds |
| Rasters.Raster.Unpack | pandora/World.cxx:917-931 | the loop that applies a message cell by cell, stopping at a guard that fires |
| Rasters.CellsOfRectangle | pandora/World.cxx:624 | the index arithmetic lists every cell of a rectangle once and no other |
| Rasters.UnpackHolds | pandora/World.cxx:917-931 | applying a message whose entries respect the maxima trips no guard, overwrites its cells and leaves everything else |
| StartUpCells.AppliedFaithfully | pandora/World.cxx:877-929 | a message of the owner's cells makes its strip right at the receiver and leaves right what was right |
| StartUpCells.StartUpPlanIsGood | pandora/World.cxx:953-971 | the partner lists of the five rounds agree, and serve every neighbour with maxima and with values |
| StartUpProof.NoGuardFires | pandora/World.cxx:953-971 | in no interleaving of the start-up exchange does a guard of a raster fire |
| StartUpProof.HalosHoldTheGlobalRaster | pandora/World.cxx:953-971 | after it every world holds the global raster over its whole halo, maxima and current values |
| StartUpProof.ExchangeNeverStuck | pandora/World.cxx:877-945 | in every reachable state the exchange is over or some world can go on |
| RasterFile.TileData | pandora/Serializer.cxx:484-496 | the nested loops list the own tile line by line, taking the halo into account |
| RasterFile.TileDataRight | pandora/Serializer.cxx:484-496 | what a world whose own tile is right sends to the file is its tile of the global raster |
| RasterFile.OneWriterPerCell | pandora/Serializer.cxx:466-482 | every cell of the dataset is written by exactly one world |
| RasterFile.FileHoldsRaster | pandora/Serializer.cxx:460-508 | once all worlds have written, in any order, the dataset is the global raster |
| RasterFile.LoadHistory | pandora/SimulationRecord.cxx:155-221 | raster k of the history is that of step k times the resolution: column x of line y of the dataset, read line by line, is cell (x, y); the recorded extremes are the smallest and the largest value, and no guard fires |
| RasterFile.RoundTrip | pandora/SimulationRecord.cxx:183-211 | when a dataset is read back line by line, cell (x, y) is the value that the owner of (x, y) held in that step |
| AgentFile.AgentSerializer.ExecuteAgentSerialization | pandora/Serializer.cxx:288-367 | a flush moves the buffers of a type behind what its datasets hold, and touches no other type or step |
| AgentFile.AgentSerializer.SerializeAgent | pandora/Serializer.cxx:407-426 | one agent more in all columns of its type, after registering a new type; afterwards its buffers hold less than the threshold |
| AgentFile.AgentSerializer.FinishAgentsSerialization | pandora/Serializer.cxx:279-286 | afterwards every dataset of the step is complete, and the next step starts empty |
| AgentFile.AgentSerializer.SerializeAgents | pandora/World.cxx:506-521 | for any flush threshold and any order of types every dataset of the step equals the values in call order, rows aligned across attributes, and the datasets of all other steps stay as they were |
| AgentFile.AgentSerializer.SerializeRun | pandora/World.cxx:974-983 | in the finished file every dataset of every step holds the values of the agents of its type in that step, also for types that come up later |
| AgentFile.TypeIsEven | pandora/Serializer.cxx:288-397 | the buffers and the datasets of a type are equally long for all attributes |
| LinearSystems.SubtractKeepsAll | libs/gdal-1.9.0/alg/gdal_crs.c:961-971 | subtracting a multiple of one equation from another keeps the solutions, for both right-hand sides and for zero |
| LinearSystems.EmptyColumnIsSingular | libs/gdal-1.9.0/alg/gdal_crs.c:917-936 | when no pivot is left, some vector other than zero is sent to zero |
| SolveMat.ReduceColumn | libs/gdal-1.9.0/alg/gdal_crs.c:913-972 | one column more is reduced with all solutions kept, or the original matrix is singular |
| SolveMat.SolveMat | libs/gdal-1.9.0/alg/gdal_crs.c:906-984 | fails if and only if the original matrix is singular, and otherwise returns solutions of the original system for both right-hand sides |
| LeastSquares.NormalSolutionIsBest | libs/gdal-1.9.0/alg/gdal_crs.c:825-855 | a solution of the normal equations has the least sum of squared residuals of all coefficients |
| LeastSquares.SingularIffDegenerate | libs/gdal-1.9.0/alg/gdal_crs.c:825-855 | the normal equations are singular exactly when one nonzero combination of the terms vanishes at all points |
| GeoRef.CRSGeoref | libs/gdal-1.9.0/alg/gdal_crs.c:577-637 | the formulas of orders 1 to 3 are the polynomial in the numbered terms; any other order is a parameter error |
| Fit.ExactDet | libs/gdal-1.9.0/alg/gdal_crs.c:759-795 | with as many points as coefficients the result runs through all of them, and fails exactly when they lie on one curve |
| Fit.CalcLS | libs/gdal-1.9.0/alg/gdal_crs.c:805-856 | with more points no other coefficients have smaller residuals, nor take the points nearer to where they belong, and it fails exactly when all points lie on one curve |
| Fit.CalcCoef | libs/gdal-1.9.0/alg/gdal_crs.c:694-750 | too few active points, points on one curve, or a fit: which status is returned, and what a fit achieves |
| Fit.ComputeGeorefEquations | libs/gdal-1.9.0/alg/gdal_crs.c:645-687 | both directions are fitted, with the exact status, and the control points are as they were |
| GCPTransformer.GDALCreateGCPTransformer | libs/gdal-1.9.0/alg/gdal_crs.c:146-238 | a transformer of the requested order is made, or of order 2 from six points on and of order 1 with fewer when none is requested, or the exact reason is returned why not; its polynomials fit the control points in both directions |
| GCPTransformer.GDALGCPTransform | libs/gdal-1.9.0/alg/gdal_crs.c:312-350 | every point is replaced in place by the polynomials of the direction, reversed or not, and no other entry changes |
| GCPTransformer.ThereAndBack | libs/gdal-1.9.0/alg/gdal_crs.c:146-350 | a transformer made from as many control points as there are coefficients takes the pixels of all of them to their georeferenced coordinates and these back to the pixels; it fails exactly when they lie on one curve |
| MedianCut.ShrinkBox | libs/gdal-1.9.0/alg/gdalmediancut.cpp:462-544 | contracts a box on all six sides to its pixels and loses none |
| MedianCut.MedianPlane | libs/gdal-1.9.0/alg/gdalmediancut.cpp:408-415 | the cut is where half of the pixels is reached, strictly inside the box |
| MedianCut.SplitBox | libs/gdal-1.9.0/alg/gdalmediancut.cpp:336-457 | two tight, disjoint, non-empty boxes that hold all pixels of the old one, with totals that add up, cut along the first longest axis at the plane where half of the pixels is reached |
| MedianCut.LargestBox | libs/gdal-1.9.0/alg/gdalmediancut.cpp:318-331 | the first box with most pixels among those that can be split, and none only if there is none |
| MedianCut.CollectHistogram | libs/gdal-1.9.0/alg/gdalmediancut.cpp:210-265 | the histogram counts every quantised colour, and the first box is tight around all pixels |
| MedianCut.SplitAll | libs/gdal-1.9.0/alg/gdalmediancut.cpp:278-284 | the boxes always partition the pixels, every step cuts the first largest box at its median, and splitting stops only when there are as many as wanted or nothing is left to split |
| ColorBoxes.SplitKeepsPartition | libs/gdal-1.9.0/alg/gdalmediancut.cpp:417-457 | replacing a box by its parts keeps boxes disjoint, tight, covering, and their totals equal to the number of pixels |
| MedianCutTable.FewColorsAreAlone | libs/gdal-1.9.0/alg/gdalmediancut.cpp:278-284 | if there are no more quantised colours than wanted, each ends up alone in its box |
| MedianCutTable.ComputeMedianCutPCT | libs/gdal-1.9.0/alg/gdalmediancut.cpp:151-298 | the table has one entry per box of the partition made by median cuts; an entry is as far from the least quantised value of the pixels of its box as from the greatest, in every channel; every quantised colour is kept when there are few enough |
| Proximity.ProcessProximityLine | libs/gdal-1.9.0/alg/gdalproximity.cpp:413-538 | one pass in either direction: found targets are real, proximities exact and never worse, and targets passed in the line are not missed |
| Proximity.StepAside | libs/gdal-1.9.0/alg/gdalproximity.cpp:491-525 | a target within k of a pixel is within k + 1 of the next one |
| ProximitySweeps.SweepLine | libs/gdal-1.9.0/alg/gdalproximity.cpp:289-326 | one line of a sweep: results stay exact, never get farther, and miss no target of the lines passed |
| ProximitySweeps.ComputeProximity | libs/gdal-1.9.0/alg/gdalproximity.cpp:283-371 | every proximity found is the squared distance to some target and not beyond the maximal distance; a target within the maximal distance along line and column is never missed, and what is found is at most that way |
| ProximitySweeps.ZeroOnTargets | libs/gdal-1.9.0/alg/gdalproximity.cpp:455-461 | proximity is zero exactly on targets |
| ProximitySweeps.NeverTooNear | libs/gdal-1.9.0/alg/gdalproximity.cpp:527-534 | no proximity beats the nearest target |
| ProximitySweeps.DefaultReachesAll | libs/gdal-1.9.0/alg/gdalproximity.cpp:146-150 | with the default maximal distance every pixel gets a proximity as soon as there is any target, at most the way to it along line and column |

## Left out

- Line buffers of the enumerator, the sieve and the polygonizer are passed as sequences: swapping and padding them in place, and a destination band that is the source band, are not modelled.
- FPolygonize.GDALFPolygonize: the second pass labels all lines before it collects their edges, where the source does both line by line; enumerator and polygons share no state. The image is taken as masked already, and coordinates stay in pixels.
- Sieve.GDALSieveFilter: bands are images in memory; read and write errors and progress callbacks are not modelled.
- MedianCut.SplitAll: the linked lists of boxes are a sequence and a count of free boxes.
- ProximitySweeps.ComputeProximity: distances are kept as squares; unit scaling, fixed buffer values and the nodata value of the last step are left out.
- SolveMat.SolveMat: reals are exact, so conditioning and rounding are not covered.
- WorldCopies.ExecutedOnceInEveryStep: the run starts with all worlds in the first step and with right copies; that the last exchange of copies at start-up has no barrier after it, so that a world may compute while a neighbour still receives (pandora/World.cxx:959-974), is not modelled.
- WorldDelivery.NeighborsAreSeen: says what is shown in the zones that are exchanged; cells of a halo outside of them, as in `WorldExchange.MiddleZoneIsShifted`, are not covered.
- WorldAgents.AgentsConserved: agents stay in the global raster and do not skip a tile; removal of agents is left out.
- RasterFile.FileHoldsRaster: HDF5 is a map from datasets to values, and datasets are square.
- AgentFile.AgentSerializer.SerializeAgents: each agent brings exactly the attributes that its type registers, once.
- Ghost lists are sets of copies, and a migrating agent drops one older copy of any choice; the order in lists is not modelled.
- Vector attributes of agents, stepAgents, stepEnvironment and raster rules per section.
- Exchange of rasters within a step: receives posted there are never completed by the files modelled, so only the start-up exchange is covered.
- Bit tricks of the floating point comparison, including its wrap-around; bit patterns are taken in their numerical order.
- GCPTransformer.GDALGCPTransform: coordinates are reals, so the marker for an infinite coordinate is left out, and with it the flags of success.
- Removal of outliers among control points, thin plate splines, geolocation and gridding.
- Statistics of agent types in the loaded record, static rasters, and everything that draws on the screen.
- MPI itself: sends are buffered, and channels are FIFO per source, destination and tag.
