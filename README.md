# Inferno world generation, modelled in Dafny

Inferno is a Terasology module that adds a lava cavern deep below the surface world.
It has two parts.

- **Facet providers** fill per-region fields:
  - the floor (surface) and ceiling heights;
  - a noise-driven raise of the floor;
  - the lava level;
  - flags for flora, lava falls and caves;
  - sparse maps of trees and lava huts.
- **Rasterizers** turn those fields into the blocks of a chunk:
  - the terrain's height bands;
  - caves carved into the density field and the blocks;
  - a weighted random pick of flora;
  - trees hanging from the ceiling;
  - falls of lava;
  - basalt huts built on stilts over the lava lakes.

The client system looks for a safe spawn point in the cavern. It also sends the characters it has queued there on their way at the next update.

This project models that logic and proves what each step promises.

Each provider and rasterizer is a class whose methods update the facets and the chunk in place, as the Java code does. The loops over regions, columns and tree layers are `while` loops with invariants. Every method is tied to a specification function or predicate over the old state, and lemmas state the properties of those functions.

Modelling choices:

- **Shared modules.**
  - `Geometry`: boxes, areas, borders, cell sets, and the explicit floor, ceil, truncate, round and clamp.
  - `Chunks`: the `Block` datatype and the `Chunk` class.
  - `Facets`: the dense and sparse facet classes.
  - `Randomness`: the random source.
  - `Options`: an `Option` type.
- **Chunk storage.** A chunk keeps its blocks keyed by chunk-relative position. A world position is reduced to that key by remainder, like `Chunks.toRelative`, so a write outside the chunk lands where the engine's masking puts it.
- **Region iteration.** A loop over a region or a map walks its set of positions in an unspecified order. Every result is stated for every order.
- **The spawn search.** The search returns the first qualifying column, so it walks the surface area in the block area's own order: x fastest, then z.
- **Random draws.** A random generator is a fixed stream of draws in [0, 1) plus a count of the draws used. Each random decision is tied to the index of the draw it took.
- **Noise** is a function parameter.
- **Float heights** are reals.

The in-place vector updates in `LavaHutRasterizer` have a visible consequence. The inner corner of a hut is raised once for the lava ring and a second time for the ring's hole. For every hut height other than 1, the hole therefore lies `height - 1` levels above the ring. So lava can fall from any cell of the ring, hollow centre included (`LavaHutProperties.RingHasNoHole`, `LavaHutProperties.LavaFromWholeRing`).

## Model

| member | source | states |
|---|---|---|
| InfernoSurfaceProvider.SurfaceHeight | src/main/java/org/terasology/inferno/generator/providers/InfernoSurfaceProvider.java:41-53 | a column's floor is `noise * 20 - depth`; with the noise in [-1, 1] it lies in [-depth - 20, -depth + 20] |
| InfernoSurfaceProvider.SurfaceProvider.constructor | src/main/java/org/terasology/inferno/generator/providers/InfernoSurfaceProvider.java:35-37 | the provider keeps the depth it is given |
| InfernoSurfaceProvider.SurfaceProvider.Process | src/main/java/org/terasology/inferno/generator/providers/InfernoSurfaceProvider.java:46-56 | a fresh facet over the requested region and border; its base surface height is the depth and every column of its world area holds the floor height of that column |
| InfernoSurfaceProvider.OverlappingRegionsAgree | src/main/java/org/terasology/inferno/generator/providers/InfernoSurfaceProvider.java:53 | two surface facets agree on every column they share, whatever their regions |
| InfernoCeilingProvider.CeilingHeight | src/main/java/org/terasology/inferno/generator/providers/InfernoCeilingProvider.java:57 | a column's ceiling is `noise * 20 - baseSurfaceHeight + infernoHeight`; with the noise in [-1, 1] it lies within 20 of `infernoHeight - baseSurfaceHeight` |
| InfernoCeilingProvider.CeilingProvider.constructor | src/main/java/org/terasology/inferno/generator/providers/InfernoCeilingProvider.java:39-41 | the provider keeps the height it is given |
| InfernoCeilingProvider.CeilingProvider.Process | src/main/java/org/terasology/inferno/generator/providers/InfernoCeilingProvider.java:49-61 | a fresh facet whose every world-area column holds the ceiling height; only the surface facet's base height is read |
| ElevationProvider.Elevation | src/main/java/org/terasology/inferno/generator/providers/ElevationProvider.java:37-52 | the raise of a column lies in [0, 30], is 0 where the noise is not positive and `30 * noise` for noise in [0, 1] |
| ElevationProvider.ElevationProvider.Process | src/main/java/org/terasology/inferno/generator/providers/ElevationProvider.java:46-55 | every column of the existing surface facet is raised in place by its elevation, so by 0 to 30 blocks, and not at all where the noise is not positive; the base height is kept |
| LavaLevelProvider.LavaLevelProvider.Default | src/main/java/org/terasology/inferno/generator/providers/LavaLevelProvider.java:34-36 | the default configured level is 0 |
| LavaLevelProvider.LavaLevelProvider.constructor | src/main/java/org/terasology/inferno/generator/providers/LavaLevelProvider.java:38-40 | the provider keeps the level it is given |
| LavaLevelProvider.LavaLevelProvider.Process | src/main/java/org/terasology/inferno/generator/providers/LavaLevelProvider.java:43-49 | a fresh facet for the region holding the configured level less the base surface height |
| LavaLevelProvider.DefaultLevel | src/main/java/org/terasology/inferno/generator/providers/LavaLevelProvider.java:34-47 | with the default provider the lava level is the negated base surface height |
| FloraProvider.FloraProvider.Process | src/main/java/org/terasology/inferno/generator/providers/FloraProvider.java:42-60 | a position of the fresh flora facet is marked exactly when its column is in the surface area, it is at the ceiling of the column's floor height, above the lava level, and the column's noise exceeds 0.96; hence at most one mark per column, all above the lava |
| LavaFallsProvider.LavaFallsProvider.Process | src/main/java/org/terasology/inferno/generator/providers/LavaFallsProvider.java:53-88 | the border is extended by 4 on every side; a world-area column is marked exactly when it is member k (offset (0,0), (1,0), (1,1) or (0,1)) of a column whose spawn noise exceeds 0.9995 and whose k-th size noise is positive |
| LavaFallsProvider.LavaFallsProvider.MarkMember | src/main/java/org/terasology/inferno/generator/providers/LavaFallsProvider.java:65-76 | one guarded write: member k is marked iff its size noise is positive and it lies in the world area; nothing is unmarked |
| LavaFallsProvider.LavaFallAdd | src/main/java/org/terasology/inferno/generator/providers/LavaFallsProvider.java:57-76 | visiting one more column adds exactly that column's cluster, so the marks do not depend on the visiting order |
| LavaFallsProvider.FallNearSpawn | src/main/java/org/terasology/inferno/generator/providers/LavaFallsProvider.java:59-76 | every marked column is one of (x, z), (x+1, z), (x+1, z+1), (x, z+1) of a column passing the spawn threshold |
| LavaFallsProvider.StartIsFall | src/main/java/org/terasology/inferno/generator/providers/LavaFallsProvider.java:59-66 | a column passing the spawn threshold with a positive first size noise is itself marked |
| LavaFallsProvider.NoSpawnNoFalls | src/main/java/org/terasology/inferno/generator/providers/LavaFallsProvider.java:59 | with no column over the spawn threshold nothing is marked |
| Caves.DefaultsInRange | src/main/java/org/terasology/inferno/generator/providers/CaveFacetProvider.java:99-110 | the configuration's initial values lie in the ranges its screen allows |
| Caves.FadeForSurfaceCutoff | src/main/java/org/terasology/inferno/generator/providers/CaveFacetProvider.java:63 | the surface cutoff fade lies in [0, 1 - amountofCavesNearSurface] and never exceeds `max(0, 1 - depth / 12)` |
| Caves.FadeTermsNonNegative | src/main/java/org/terasology/inferno/generator/providers/CaveFacetProvider.java:65-72 | with `amountofCavesNearSurface <= 1` the scale ramp `max(0, 1 - depth / gradualIncreaseOverDepth)`, the gradual fade and the broad-scale fade are all non-negative |
| Caves.IncreaseNonNegative | src/main/java/org/terasology/inferno/generator/providers/CaveFacetProvider.java:63-73 | with `amountofCavesNearSurface <= 1` and `rawAmount <= 1` the noise level increase is never negative |
| Caves.CaveNoiseAboveRaw | src/main/java/org/terasology/inferno/generator/providers/CaveFacetProvider.java:63-75 | under the same bounds a cave's noise exceeds `rawAmount` |
| Caves.ScaleFallsWithNearSurface | src/main/java/org/terasology/inferno/generator/providers/CaveFacetProvider.java:65 | the gradual fade falls as `amountofCavesNearSurface` rises |
| Caves.IncreaseFallsWithNearSurface | src/main/java/org/terasology/inferno/generator/providers/CaveFacetProvider.java:63-73 | raising `amountofCavesNearSurface` never raises the increase |
| Caves.NearSurfaceKeepsCaves | src/main/java/org/terasology/inferno/generator/providers/CaveFacetProvider.java:63-75 | raising `amountofCavesNearSurface` never turns a cave off |
| Caves.IncreaseFallsWithAmount | src/main/java/org/terasology/inferno/generator/providers/CaveFacetProvider.java:67-73 | raising `amountOfCaves` never raises the increase |
| Caves.AmountKeepsCaves | src/main/java/org/terasology/inferno/generator/providers/CaveFacetProvider.java:67-75 | raising `amountOfCaves` never turns a cave off |
| Caves.DeepFadesVanish | src/main/java/org/terasology/inferno/generator/providers/CaveFacetProvider.java:42-73 | at least 12 and at least `gradualIncreaseOverDepth` blocks below the floor both surface fades are 0 and only the broad fade is left |
| Caves.CaveConfiguration.constructor | src/main/java/org/terasology/inferno/generator/providers/CaveFacetProvider.java:99-110 | a new configuration holds the defaults 0.75, 1, 1, 0.5, 64, 0.3 |
| Caves.CaveConfiguration.Copy | src/main/java/org/terasology/inferno/generator/providers/CaveFacetProvider.java:113-120 | all six fields take the other configuration's values, which are left as they were |
| Caves.CaveFacetProvider.constructor | src/main/java/org/terasology/inferno/generator/providers/CaveFacetProvider.java:25 | a new provider holds a fresh default configuration |
| Caves.CaveFacetProvider.SetConfiguration | src/main/java/org/terasology/inferno/generator/providers/CaveFacetProvider.java:94-96 | the provider takes the given configuration |
| Caves.CaveFacetProvider.Process | src/main/java/org/terasology/inferno/generator/providers/CaveFacetProvider.java:37-80 | a position of the fresh facet is flagged exactly when it is in the target region, below the floor, and its cave noise exceeds `rawAmount` plus the increase; border positions and positions at or above the floor stay false |
| Caves.CaveFacetProvider.VisitPosition | src/main/java/org/terasology/inferno/generator/providers/CaveFacetProvider.java:58-76 | a position below the floor gets the cave rule's value, any other keeps its flag, and no other position changes |
| CaveToDensity.Carve | src/main/java/org/terasology/inferno/generator/providers/CaveToDensityProvider.java:39-43 | the carved field has the same positions; flagged target positions hold -1 and every other keeps its density |
| CaveToDensity.CarveIdempotent | src/main/java/org/terasology/inferno/generator/providers/CaveToDensityProvider.java:39-43 | carving twice is carving once |
| CaveToDensity.Process | src/main/java/org/terasology/inferno/generator/providers/CaveToDensityProvider.java:35-44 | the density facet becomes the carved field of its old values |
| LegacyCaveToDensity.Process | src/main/java/org/terasology/caves/CaveToDensityProvider.java:35-44 | the older provider carves the same field |
| InfernoCaveRasterizer.CaveBlock | src/main/java/org/terasology/inferno/generator/rasterizers/CaveRasterizer.java:36-40 | the cave block is air exactly when no URI was given, otherwise the named block |
| InfernoCaveRasterizer.Carve | src/main/java/org/terasology/inferno/generator/rasterizers/CaveRasterizer.java:42-46 | the rasterized chunk has the same cells; cells whose world position is flagged hold the cave block, the others are kept |
| InfernoCaveRasterizer.CarveIdempotent | src/main/java/org/terasology/inferno/generator/rasterizers/CaveRasterizer.java:42-46 | rasterizing twice is rasterizing once |
| InfernoCaveRasterizer.Rasterize | src/main/java/org/terasology/inferno/generator/rasterizers/CaveRasterizer.java:42-46 | the loop over the chunk-relative region leaves the carved blocks |
| InfernoCaveRasterizer.FlaggedReadsCaveBlock | src/main/java/org/terasology/inferno/generator/rasterizers/CaveRasterizer.java:42-46 | afterwards the chunk reads as the cave block at every flagged world position of its region |
| InfernoCaveRasterizer.CaveRasterizer.constructor | src/main/java/org/terasology/inferno/generator/rasterizers/CaveRasterizer.java:21-26 | the rasterizer keeps the URI it is given, or none |
| InfernoCaveRasterizer.CaveRasterizer.GenerateChunk | src/main/java/org/terasology/inferno/generator/rasterizers/CaveRasterizer.java:33-47 | the chunk's blocks become the carved ones with the cave block for the URI |
| LegacyCaveRasterizer.CaveRasterizer.constructor | src/main/java/org/terasology/caves/CaveRasterizer.java:34-39 | the older rasterizer keeps the URI it is given, or none |
| LegacyCaveRasterizer.CaveRasterizer.GenerateChunk | src/main/java/org/terasology/caves/CaveRasterizer.java:46-60 | the older rasterizer carves the same blocks |
| InfernoWorldRasterizer.TerrainBlock | src/main/java/org/terasology/inferno/generator/rasterizers/InfernoWorldRasterizer.java:53-66 | stone exactly when strictly between the ceiling and 20000 above it or at or below the floor; lava exactly between floor and ceiling at or below the lava level; air exactly there above the lava level; nothing written exactly when at least 20000 above the ceiling and above the floor |
| InfernoWorldRasterizer.LavaBand | src/main/java/org/terasology/inferno/generator/rasterizers/InfernoWorldRasterizer.java:58-60 | lava lies above the floor and no higher than both the ceiling and the lava level |
| InfernoWorldRasterizer.WallColumn | src/main/java/org/terasology/inferno/generator/rasterizers/InfernoWorldRasterizer.java:56-66 | a column whose floor reaches its ceiling holds neither air nor lava |
| InfernoWorldRasterizer.GenerateChunk | src/main/java/org/terasology/inferno/generator/rasterizers/InfernoWorldRasterizer.java:46-68 | every position of the chunk's region reads as its height band's block, or its old block when none is written |
| LavaFallsRasterizer.FallBlock | src/main/java/org/terasology/inferno/generator/rasterizers/LavaFallsRasterizer.java:52-59 | lava exactly in a flagged column strictly between 10 below the floor and 10 above the ceiling; every other position, and every position of an unflagged column, keeps its block |
| LavaFallsRasterizer.FallBlockIdempotent | src/main/java/org/terasology/inferno/generator/rasterizers/LavaFallsRasterizer.java:45-61 | rasterizing twice is rasterizing once; no randomness is drawn |
| LavaFallsRasterizer.GenerateChunk | src/main/java/org/terasology/inferno/generator/rasterizers/LavaFallsRasterizer.java:45-61 | every position of the chunk's region reads as its lava-fall block |
| InfernoFloraRasterizer.FirstFrom | src/main/java/org/terasology/inferno/generator/rasterizers/InfernoFloraRasterizer.java:61-66 | the index found is the first entry from k on whose cumulative weight reaches the draw, or the end when none does |
| InfernoFloraRasterizer.PickIndex | src/main/java/org/terasology/inferno/generator/rasterizers/InfernoFloraRasterizer.java:60-66 | the index chosen is the first entry whose cumulative weight reaches the draw |
| InfernoFloraRasterizer.Pick | src/main/java/org/terasology/inferno/generator/rasterizers/InfernoFloraRasterizer.java:58-68 | no block (`null`) exactly when every cumulative weight is below the draw; otherwise a block of the map |
| InfernoFloraRasterizer.PrefixMonotone | src/main/java/org/terasology/inferno/generator/rasterizers/InfernoFloraRasterizer.java:61-62 | with non-negative weights the cumulative weight never falls |
| InfernoFloraRasterizer.NoneOnlyAboveTotal | src/main/java/org/terasology/inferno/generator/rasterizers/InfernoFloraRasterizer.java:58-68 | with non-negative weights the draw finds nothing exactly when it exceeds the total weight |
| InfernoFloraRasterizer.PickMonotone | src/main/java/org/terasology/inferno/generator/rasterizers/InfernoFloraRasterizer.java:60-66 | a larger draw never picks an earlier entry |
| InfernoFloraRasterizer.DefaultPick | src/main/java/org/terasology/inferno/generator/rasterizers/InfernoFloraRasterizer.java:40-42 | with the default weights a draw in [0, 1] gives a flaming flower up to 0.45, a devil shroom up to 0.9 and a dead branch above |
| InfernoFloraRasterizer.FloraFor | src/main/java/org/terasology/inferno/generator/rasterizers/InfernoFloraRasterizer.java:40-66 | a draw in [0, 1] always yields one of the three plants |
| InfernoFloraRasterizer.Put | src/main/java/org/terasology/inferno/generator/rasterizers/InfernoFloraRasterizer.java:40-42 | putting into an insertion-ordered map appends a new key and overwrites an existing one in place |
| InfernoFloraRasterizer.InitializeBuildsDefault | src/main/java/org/terasology/inferno/generator/rasterizers/InfernoFloraRasterizer.java:39-43 | `initialize` on an empty map builds flaming flower 0.45, devil shroom 0.45, dead branch 0.1, in that order, and a second call leaves it so |
| InfernoFloraRasterizer.InfernoFloraRasterizer.constructor | src/main/java/org/terasology/inferno/generator/rasterizers/InfernoFloraRasterizer.java:35-36 | a new rasterizer has its random source and an empty map |
| InfernoFloraRasterizer.InfernoFloraRasterizer.Initialize | src/main/java/org/terasology/inferno/generator/rasterizers/InfernoFloraRasterizer.java:39-43 | the map after the three puts |
| InfernoFloraRasterizer.InfernoFloraRasterizer.GetRandomFlora | src/main/java/org/terasology/inferno/generator/rasterizers/InfernoFloraRasterizer.java:58-68 | one draw is used, and the result is the pick for that draw |
| InfernoFloraRasterizer.InfernoFloraRasterizer.GenerateChunk | src/main/java/org/terasology/inferno/generator/rasterizers/InfernoFloraRasterizer.java:46-55 | every planted position is flagged and holds the plant of a draw of its own; every other position keeps its block; one draw per plant; with one flag per column the planted positions are exactly the flagged ones whose block below was not air |
| TreeFacets.TreeFacet.constructor | src/main/java/org/terasology/inferno/generator/facets/InfernalTreeFacet.java:31-33 | a new facet over the target and border holds no tree and lists no position |
| TreeFacets.TreeFacet.SetWorld | src/main/java/org/terasology/inferno/generator/facets/InfernalTreeFacet.java:28 | setting a tree inside the facet's region adds or replaces that entry and keeps every tree inside the region |
| TreeFacets.TreeFacet.AddTree | src/main/java/org/terasology/inferno/generator/facets/InfernalTreeFacet.java:35-37 | the position is appended at the end of the list; earlier entries and the tree map are unchanged |
| TreeFacets.TreeFacet.GetDistanceToNearestTree | src/main/java/org/terasology/inferno/generator/facets/InfernalTreeFacet.java:39-50 | -1 exactly when every listed entry is the very queried object; otherwise the least squared distance to a listed entry that is another object, attained by one of them |
| InfernalTreeProvider.TrunkHeight | src/main/java/org/terasology/inferno/generator/providers/InfernalTreeProvider.java:82 | the trunk height is always between 4 and 6 |
| InfernalTreeProvider.CanopyProfile | src/main/java/org/terasology/inferno/generator/providers/InfernalTreeProvider.java:92-105 | h + 1 radii: zero up to the canopy start h / 2 + 1, then shrinking by one per layer down to 1 at the bottom |
| InfernalTreeProvider.CanopyOfSix | src/main/java/org/terasology/inferno/generator/providers/InfernalTreeProvider.java:92-105 | a trunk of six gets the radii 0, 0, 0, 0, 3, 2, 1 |
| InfernalTreeProvider.GenerateCanopy | src/main/java/org/terasology/inferno/generator/providers/InfernalTreeProvider.java:92-105 | the list the loop builds is the canopy profile of the trunk height |
| InfernalTreeProvider.ListedAdd | src/main/java/org/terasology/inferno/generator/providers/InfernalTreeProvider.java:85-86 | setting a new tree and appending its position keeps the list complete and free of repeats |
| InfernalTreeProvider.PlantedAdd | src/main/java/org/terasology/inferno/generator/providers/InfernalTreeProvider.java:76-88 | visiting one more column plants a tree exactly when the anchor below its ceiling is a tree site |
| InfernalTreeProvider.InfernalTreeProvider.constructor | src/main/java/org/terasology/inferno/generator/providers/InfernalTreeProvider.java:62-67 | the provider keeps the spawn and height noises it is given |
| InfernalTreeProvider.InfernalTreeProvider.Process | src/main/java/org/terasology/inferno/generator/providers/InfernalTreeProvider.java:69-90 | the facet's border is the requested one extended by 30; it holds a tree exactly at the tree sites (floored ceiling anchor in the region, more than 15 blocks of room, spawn noise above 0.997), each with its trunk height and canopy profile, and lists every tree once |
| InfernalTreeProvider.InfernalTreeProvider.ColumnTurn | src/main/java/org/terasology/inferno/generator/providers/InfernalTreeProvider.java:76-88 | one turn of the column loop extends the planted trees to the visited column |
| InfernalTreeProvider.InfernalTreeProvider.VisitColumn | src/main/java/org/terasology/inferno/generator/providers/InfernalTreeProvider.java:77-87 | a tree site gets its tree and one new listed position; any other column changes nothing |
| InfernalTreeRasterizer.Drawn | src/main/java/org/terasology/inferno/generator/rasterizers/InfernalTreeRasterizer.java:62-80 | one tree leaves an untouched position as it was, makes a trunk position a pine trunk, and a canopy-only position a fire leaf |
| InfernalTreeRasterizer.OutcomeStep | src/main/java/org/terasology/inferno/generator/rasterizers/InfernalTreeRasterizer.java:52-81 | drawing one more tree over an outcome of some trees gives the outcome of those trees and it, whatever the order |
| InfernalTreeRasterizer.OutcomeOfOne | src/main/java/org/terasology/inferno/generator/rasterizers/InfernalTreeRasterizer.java:52-81 | with a single tree the outcome is exactly that tree drawn over the old block |
| InfernalTreeRasterizer.DrawnStep | src/main/java/org/terasology/inferno/generator/rasterizers/InfernalTreeRasterizer.java:52-81 | drawing tree a extends the drawn outcome from the trees done so far to those and a |
| InfernalTreeRasterizer.InfernalTreeRasterizer.GenerateChunk | src/main/java/org/terasology/inferno/generator/rasterizers/InfernalTreeRasterizer.java:49-82 | every chunk position ends with the outcome of all the facet's trees: kept when none reaches it, a trunk when only trunks do, a leaf when only leaves do, one of the two otherwise |
| InfernalTreeRasterizer.InfernalTreeRasterizer.DrawTree | src/main/java/org/terasology/inferno/generator/rasterizers/InfernalTreeRasterizer.java:53-80 | the chunk afterwards is the tree drawn over the chunk before: canopy layers first, then the trunk over them |
| InfernalTreeRasterizer.InfernalTreeRasterizer.DrawTrunkBlock | src/main/java/org/terasology/inferno/generator/rasterizers/InfernalTreeRasterizer.java:76-79 | trunk block height is written exactly when it lies in the chunk |
| InfernalTreeRasterizer.InfernalTreeRasterizer.DrawLayer | src/main/java/org/terasology/inferno/generator/rasterizers/InfernalTreeRasterizer.java:63-73 | a layer of radius b >= 0 turns every position of its square that lies in the chunk into a leaf, and nothing else |
| InfernalTreeRasterizer.InfernalTreeRasterizer.DrawLeaf | src/main/java/org/terasology/inferno/generator/rasterizers/InfernalTreeRasterizer.java:69-72 | a leaf is written exactly when it lies in the chunk |
| InfernalTreeRasterizer.ProvidedTreeShape | src/main/java/org/terasology/inferno/generator/rasterizers/InfernalTreeRasterizer.java:62-80 | a provided tree of trunk height h hangs h trunk blocks below its anchor, has its whole 3 by 3 radius-1 bottom layer, just under the trunk, as leaves, and stays within h + 1 layers and radius h - h / 2 |
| LavaHutProvider.HutHeight | src/main/java/org/terasology/inferno/generator/providers/LavaHutProvider.java:76 | the hut height is the lava level plus the clamped noise, between 5 and 8 above the lava |
| LavaHutProvider.AnchorY | src/main/java/org/terasology/inferno/generator/providers/LavaHutProvider.java:76-98 | the anchor the hut is stored at is 5 to 8 blocks above the lava level |
| LavaHutProvider.HutLength | src/main/java/org/terasology/inferno/generator/providers/LavaHutProvider.java:85-95 | the length is 5, 7 or 9: 5 exactly when the noise magnitude is at most 0.3, 9 exactly when it is above 0.8 |
| LavaHutProvider.DirIndex | src/main/java/org/terasology/inferno/generator/providers/LavaHutProvider.java:96 | the direction index is never negative, and at most 3 for a noise in [-1, 1], so it always names one of the four horizontal directions |
| LavaHutProvider.PlacedAdd | src/main/java/org/terasology/inferno/generator/providers/LavaHutProvider.java:74-100 | visiting one more column adds its hut, keyed by its anchor, exactly when the column is a hut site |
| LavaHutProvider.LavaHutProvider.constructor | src/main/java/org/terasology/inferno/generator/providers/LavaHutProvider.java:57-63 | the provider keeps its four noises, whose direction noise lies in [-1, 1] |
| LavaHutProvider.LavaHutProvider.Process | src/main/java/org/terasology/inferno/generator/providers/LavaHutProvider.java:65-102 | the facet's border is the requested one extended by (20, 30, 20); a hut is anchored exactly above each hut site of the surface area (lava 15 blocks away in all four directions, 25 blocks from lava to ceiling, spawn noise above 0.998, anchor in the region), with its length bucket and direction, 5 to 8 blocks above the lava |
| LavaHutProvider.LavaHutProvider.ColumnTurn | src/main/java/org/terasology/inferno/generator/providers/LavaHutProvider.java:74-100 | one turn of the column loop extends the placed huts to the visited column |
| LavaHutProvider.LavaHutProvider.VisitColumn | src/main/java/org/terasology/inferno/generator/providers/LavaHutProvider.java:75-99 | a hut site gets its hut at its anchor; any other column leaves the facet unchanged |
| LavaHutProvider.LavaHutProvider.IsOverLavaAt | src/main/java/org/terasology/inferno/generator/providers/LavaHutProvider.java:104-107 | true exactly when the column is in the surface area and its floor is below the lava level |
| LavaHutProvider.HutSurroundedByLava | src/main/java/org/terasology/inferno/generator/providers/LavaHutProvider.java:77-83 | every placed hut has floor below the lava 15 blocks away in each axis direction, at least 25 blocks from lava to ceiling, and lies in the facet's region |
| LavaHutRasterizer.Half | src/main/java/org/terasology/inferno/generator/rasterizers/LavaHutRasterizer.java:73-75 | Java's integer halving: rounds toward zero for either sign |
| LavaHutRasterizer.PlanOf | src/main/java/org/terasology/inferno/generator/rasterizers/LavaHutRasterizer.java:74-125 | the platform is the anchor grown by length / 2 + 1 in x and z; the second shift raises the walls' centre by the hut height; the stilts start at that height plus height - 1, at offset length / 2; the lava ring is one block thick |
| LavaHutRasterizer.EncompassedByCorners | src/main/java/org/terasology/inferno/generator/rasterizers/LavaHutRasterizer.java:145-152 | a non-empty box lies in another exactly when its two corners do |
| LavaHutRasterizer.PlatformPhase | src/main/java/org/terasology/inferno/generator/rasterizers/LavaHutRasterizer.java:84-89 | the platform pass changes a cell only to a small brick, only on the platform and off the back strip |
| LavaHutRasterizer.PickPhase | src/main/java/org/terasology/inferno/generator/rasterizers/LavaHutRasterizer.java:96-122 | a wall or top-ring pass changes a cell only to a small or triple brick, only in its box and outside the hollow |
| LavaHutRasterizer.LavaPhase | src/main/java/org/terasology/inferno/generator/rasterizers/LavaHutRasterizer.java:105-113 | the lava pass changes a cell only to lava, only below a lava source of the ring and between the lava level and the ring |
| LavaHutRasterizer.CornerBlock | src/main/java/org/terasology/inferno/generator/rasterizers/LavaHutRasterizer.java:128-137 | a stilt corner is a small brick from the hut's floor up; below it cracked basalt exactly when its own draw is at most 0.1, large tiles otherwise |
| LavaHutRasterizer.StiltDrawsDistinct | src/main/java/org/terasology/inferno/generator/rasterizers/LavaHutRasterizer.java:127-140 | the stilts take a distinct draw for each corner of each level below the floor, all within the stretch they use |
| LavaHutRasterizer.HutAt | src/main/java/org/terasology/inferno/generator/rasterizers/LavaHutRasterizer.java:69-82 | a hut whose anchor is not in the chunk, or whose platform does not fit in it, changes nothing |
| LavaHutRasterizer.ListingAdd | src/main/java/org/terasology/inferno/generator/rasterizers/LavaHutRasterizer.java:66 | visiting one more key of the facet keeps the visits a repeat-free listing of the keys done |
| LavaHutRasterizer.HutsSnoc | src/main/java/org/terasology/inferno/generator/rasterizers/LavaHutRasterizer.java:66-142 | drawing one more hut applies its passes to the chunk the earlier huts left |
| LavaHutRasterizer.HutsDrewSnoc | src/main/java/org/terasology/inferno/generator/rasterizers/LavaHutRasterizer.java:66-142 | a hut whose draws start where the earlier huts' end extends their stretch of the generator |
| LavaHutRasterizer.LavaHutRasterizer.constructor | src/main/java/org/terasology/inferno/generator/rasterizers/LavaHutRasterizer.java:50 | the rasterizer keeps the random generator it is given |
| LavaHutRasterizer.LavaHutRasterizer.GenerateChunk | src/main/java/org/terasology/inferno/generator/rasterizers/LavaHutRasterizer.java:62-143 | every hut of the facet is visited once; the chunk is the huts drawn one after another in the visiting order, each with its own consecutive stretch of draws, and a hut not built takes none |
| LavaHutRasterizer.LavaHutRasterizer.HutTurn | src/main/java/org/terasology/inferno/generator/rasterizers/LavaHutRasterizer.java:66-142 | one turn of the loop over the facet's huts extends the listing, the drawn chunk and the draws by one hut |
| LavaHutRasterizer.LavaHutRasterizer.HutStep | src/main/java/org/terasology/inferno/generator/rasterizers/LavaHutRasterizer.java:67-141 | the hut at the visited position is drawn after the earlier ones, its draws following theirs |
| LavaHutRasterizer.LavaHutRasterizer.DrawHut | src/main/java/org/terasology/inferno/generator/rasterizers/LavaHutRasterizer.java:67-141 | the chunk is the hut drawn over it when built, unchanged otherwise; the hut's draws are exactly the ones its passes take, in order |
| LavaHutRasterizer.LavaHutRasterizer.IsEncompassed | src/main/java/org/terasology/inferno/generator/rasterizers/LavaHutRasterizer.java:145-152 | true exactly when every position of the first box is in the second |
| LavaHutRasterizer.LavaHutRasterizer.PlaceWithProbability | src/main/java/org/terasology/inferno/generator/rasterizers/LavaHutRasterizer.java:154-160 | one draw, and exactly one block written: the first when the draw is at most the probability, the second otherwise |
| LavaHutRasterizer.LavaHutRasterizer.PlacePlatform | src/main/java/org/terasology/inferno/generator/rasterizers/LavaHutRasterizer.java:84-89 | one draw per platform cell; the chunk is the platform pass with those draws |
| LavaHutRasterizer.LavaHutRasterizer.PlacePicks | src/main/java/org/terasology/inferno/generator/rasterizers/LavaHutRasterizer.java:96-101 | one draw per box cell in the chunk and outside the hollow, a second for the block where the first is at most the probability; the chunk is the pick pass with those draws |
| LavaHutRasterizer.LavaHutRasterizer.PlaceLava | src/main/java/org/terasology/inferno/generator/rasterizers/LavaHutRasterizer.java:103-113 | one draw per ring cell in the chunk and off the hole; the chunk is the lava pass with those draws |
| LavaHutRasterizer.LavaHutRasterizer.LavaColumn | src/main/java/org/terasology/inferno/generator/rasterizers/LavaHutRasterizer.java:107-111 | lava fills the column below the top, down to the lava level, when the top is in the chunk; nothing else changes |
| LavaHutRasterizer.LavaHutRasterizer.PlaceStilts | src/main/java/org/terasology/inferno/generator/rasterizers/LavaHutRasterizer.java:124-140 | the stilts are written from the top level down to the lowest level the loop reaches, four draws per level below the hut's floor |
| LavaHutProperties.CornersChange | src/main/java/org/terasology/inferno/generator/rasterizers/LavaHutRasterizer.java:129-137 | the corners of one stilt level change only the cells they wrap to, and only to stilt blocks |
| LavaHutProperties.StiltsChange | src/main/java/org/terasology/inferno/generator/rasterizers/LavaHutRasterizer.java:127-140 | the stilts change only cells one of their corners wraps to, and only to stilt blocks |
| LavaHutProperties.CornerHolds | src/main/java/org/terasology/inferno/generator/rasterizers/LavaHutRasterizer.java:129-137 | a corner's cell holds its block unless a later corner of the level wraps to the same cell |
| LavaHutProperties.LevelCorners | src/main/java/org/terasology/inferno/generator/rasterizers/LavaHutRasterizer.java:129-137 | a level whose four corners lie in the chunk, at a positive offset, gets each corner's own block |
| LavaHutProperties.HutChangesTrans | src/main/java/org/terasology/inferno/generator/rasterizers/LavaHutRasterizer.java:77-140 | two stretches of hut changes make one |
| LavaHutProperties.StiltsHutChanges | src/main/java/org/terasology/inferno/generator/rasterizers/LavaHutRasterizer.java:124-140 | the stilts bring only hut blocks and no lava |
| LavaHutProperties.HutResultChange | src/main/java/org/terasology/inferno/generator/rasterizers/LavaHutRasterizer.java:77-140 | a built hut changes cells only to basalt hut blocks or lava, and lava only at or above the lava level |
| LavaHutProperties.HutAtChange | src/main/java/org/terasology/inferno/generator/rasterizers/LavaHutRasterizer.java:69-141 | any hut of the facet changes cells only to hut blocks, and lava only at or above the lava level |
| LavaHutProperties.HutsChange | src/main/java/org/terasology/inferno/generator/rasterizers/LavaHutRasterizer.java:66-142 | all the huts of a chunk change cells only to hut blocks, and lava only at or above the lava level |
| LavaHutProperties.RingHasNoHole | src/main/java/org/terasology/inferno/generator/rasterizers/LavaHutRasterizer.java:103-104 | for every hut height but 1 the ring's hole, laid out from the inner corner raised a second time, lies on another level than the ring |
| LavaHutProperties.LavaFromWholeRing | src/main/java/org/terasology/inferno/generator/rasterizers/LavaHutRasterizer.java:103-113 | hence, for every hut height but 1, lava falls from a ring cell exactly when it is in the chunk and its draw is at most 0.15 |
| InfernoClientSystem.SearchArea | src/main/java/org/terasology/inferno/world/InfernoClientSystem.java:122-124 | the searched box is exactly the positions within 32 in x and z of the floored current position, and within 1 of -100000 in y |
| InfernoClientSystem.AreaAtIn | src/main/java/org/terasology/inferno/world/InfernoClientSystem.java:131 | each index of the area's iteration names a column of the area |
| InfernoClientSystem.AreaAtCovers | src/main/java/org/terasology/inferno/world/InfernoClientSystem.java:131 | every column of the area is reached by the iteration, at its row-major index |
| InfernoClientSystem.SpawnFound | src/main/java/org/terasology/inferno/world/InfernoClientSystem.java:131-135 | a column that qualifies gives the spawn one block above its floor, below the ceiling and above the lava |
| InfernoClientSystem.SpawnMissing | src/main/java/org/terasology/inferno/world/InfernoClientSystem.java:131-138 | when no column of the area qualifies there is no spawn |
| InfernoClientSystem.Search | src/main/java/org/terasology/inferno/world/InfernoClientSystem.java:130-138 | no spawn exactly when no column has its floor more than 1 below the ceiling and above the lava; otherwise the first such column in iteration order, one block above its floor |
| InfernoClientSystem.FindInfernoSpawn | src/main/java/org/terasology/inferno/world/InfernoClientSystem.java:120-139 | no spawn when either height facet is missing; with both, no spawn exactly when no column of the searched area qualifies, and otherwise the first qualifying one, one block above its floor |
| InfernoClientSystem.DrainsExactly | src/main/java/org/terasology/inferno/world/InfernoClientSystem.java:74-83 | the teleports sent rebuild the queue exactly: one per queued character, each to its queued position |
| InfernoClientSystem.ClientSystem.constructor | src/main/java/org/terasology/inferno/world/InfernoClientSystem.java:70 | the teleport queue starts empty |
| InfernoClientSystem.ClientSystem.QueueTeleport | src/main/java/org/terasology/inferno/world/InfernoClientSystem.java:108 | the character's queued target becomes the spawn position, replacing any earlier one |
| InfernoClientSystem.ClientSystem.Update | src/main/java/org/terasology/inferno/world/InfernoClientSystem.java:73-84 | the queue ends empty, and one teleport was sent for each queued character, to its queued position, none twice |

## Left out

- Noise generators (white, simplex, Perlin, Brownian, sub-sampled) are engine code. Each is a function parameter; a property that needs the noise in [-1, 1] says so, and `LavaHutProvider.LavaHutProvider.constructor` demands it of the direction noise.
- `RidgedNoise` in `CaveFacetProvider.java` is not modelled: it is floating-point domain warping behind the cave noise, which is a parameter here.
- Single-precision float rounding is not modelled: heights, noise values and thresholds are reals, and every cast, floor, ceil and round is explicit.
- `TreeFacets.TreeFacet.GetDistanceToNearestTree` returns the squared distance, since Dafny has no square root; the nearest entry and the -1 case are the same.
- The engine's facet plumbing is not modelled: `GeneratingRegion`, border resolution and the dependency order of providers. A world region is the target box grown by the border, and a provider receives the facets it reads as arguments.
- The providers assume the facets they read cover the columns they read. `InfernalTreeProvider.InfernalTreeProvider.Process` requires the surface facet to cover the ceiling facet's area. `LavaHutProvider.LavaHutProvider.Process` requires the ceiling facet to cover the surface facet's area. The engine would throw on a read outside a facet.
- Iteration order over block regions, block areas and hash maps is not modelled: each such loop picks any remaining element, and every contract holds for every order. The spawn search is the exception. It assumes the block area's x-fastest, then z order, since its result is the first qualifying column.
- `chunk.getRegion()` and `chunkRegion.getRegion()` are taken to be the same box. `LavaHutRasterizer` reads both. `InfernoWorldRasterizer.GenerateChunk` and `InfernoFloraRasterizer.InfernoFloraRasterizer.GenerateChunk` loop over `Cells(chunk.Region())` where the source loops over `chunkRegion.getRegion()`. This holds when the world generator rasterizes a chunk over its own region.
- `new BlockRegion(min).setSize(sx, sy, sz)` with a non-positive size is taken as an empty box; the engine's behaviour for such sizes is not part of this model.
- `Direction.asVector3i` comes from the engine: forward (0, 0, 1), backward (0, 0, -1), left (1, 0, 0), right (-1, 0, 0).
- `LavaHutRasterizer` skips a null hut entry. A sparse facet here holds only hut values, so that check has nothing to model.
- `InfernoFloraRasterizer` compares the URI of the block below with the air URI by reference (`!=`); the model compares blocks by value.
- `InfernoFloraRasterizer.InfernoFloraRasterizer.GenerateChunk` says exactly which positions get a plant only when the flora facet flags at most one position per column, as `FloraProvider.FloraProvider.Process` guarantees. For arbitrary flags it states only that planted positions are flagged and that every other position keeps its block: a plant written under a flagged position can change what that position sees below.
- The rasterizers require the facets they read to hold every position or column of the chunk's region. The engine guarantees this by generating the facets for that region.
- `InfernoFloraRasterizer.InfernoFloraRasterizer.GenerateChunk` requires the weight map that `initialize` builds, because the engine calls `initialize` before any chunk is rasterized.
- `InfernoWorldRasterizer.GenerateChunk` states the final block of each position, not how many writes it took. Its loop visits each position once.
- FastRandom internals are not modelled: the generators are a given stream of draws with values in [0, 1), with `nextFloat` and `nextDouble` both reading the next one. The unused `random` fields and the loggers are omitted.
- `LavaFallsSpreadProvider.java` is not modelled: its `process` is empty.
- `InfernoWorldGenerator.java` and `InfernoZonePlugin.java` only register providers and rasterizers, and are not modelled. `INFERNO_DEPTH` (100000) and `INFERNO_BORDER` (20000) are taken from them.
- The ECS glue of `InfernoClientSystem` is not modelled: `onDeath` except its queueing of the character (`InfernoClientSystem.ClientSystem.QueueTeleport`), `onEnterInfeno`, sounds, inventory and health events. `InfernoAuthoritySystem.java` and `EnterInfernoEvent.java` are not part of this model.
- `InfernoClientSystem.FindInfernoSpawn` models the world query by the data it returns: optional surface and ceiling facets, generated for the search box, plus the lava-level facet. It requires the lava-level facet to be present, where the source would dereference null. It also requires the ceiling facet to cover the surface facet's area, where the engine would throw.
- `InfernoClientSystem.ClientSystem.Update` delivers a teleport event by returning it in a sequence; the event bus is not modelled. The `delta` argument is unused and omitted.
