# birdsphere, modelled in Dafny

birdsphere shows a bird catalogue as a 3D scene. Birds are grouped into habitat
environments (water, sky, tree, treeHigh, garden, ground), laid out
in each environment by a layout pattern, drawn as composite meshes, animated
per habitat, and picked by mouse clicks. This project models the data pipeline
from the catalogue to the scene, and the pointer-gesture state machine, and it
proves what each step promises:

- **Catalogue** (`src/data/birds.js`): the shipped bird families, together
  with `getBirdById` (a first-match search, `null` on a miss) and
  `getAllBirds` (a flatten that tags each bird with its family's name and
  colour).
- **Habitats** (`getBirdHabitat`): an ordered keyword search over the
  lower-cased bird name and family name. The first table that fires decides;
  a family-only pass follows; `tree` is the default. Module `Text` holds
  the ASCII `toLowerCase`/`includes` it uses. `ShippedHabitats` proves the
  habitat of every shipped bird.
- **Environments** (`environmentConfig`, `createEnvironmentData`,
  `groupBirdsByHabitat`):
  - `createEnvironmentData` is imperative. It builds a map from habitat to
    environment and pushes one record per bird, in family-then-bird order.
  - `groupBirdsByHabitat` has only four groups. It throws a `TypeError`
    on the first bird whose habitat has no group, and `ShippedGrouping`
    proves that this happens on the shipped catalogue.
- **Layout** (`calculateBirdPositions`): one method per layout pattern. Each
  is proved equal to a position function, and lemmas state the geometry
  (circle radii, heights, grid cells, boxes).
- **Assembly** (`getAllBirdsWithEnvironments`): the render list, environment
  by environment in key order.
- **Meshes** (`createBirdMesh`): a class with its parts, materials, offsets
  and `allParts`.
- **Animation** (`animateBirds`, `highlightBird`, `resetAllBirds`): in-place
  updates of the bird groups.
- **Interaction** (`MouseInteractionHandler`): a class whose handlers update
  `mouseDown`, `isDragging`, `dragStart`, `mouseX` and `mouseY`, the
  environment group's rotation and the camera distance.

`Math.cos`, `Math.sin` and `Math.random` are supplied by the host as a
`Layout.MathLib` value. `Math.random()` is a stream of draws indexed by how
many calls came before. Methods that consume draws return the index of the
next unread draw. Distances are compared squared against 25 instead of
taking `Math.sqrt`. The raycast result is an input: the list of hit parts,
nearest first.

## Model

| member | source | states |
|---|---|---|
| Basics.Clamp | src/utils/MouseInteractionHandler.js:76 | `Math.max(lo, Math.min(hi, v))` lies in [lo, hi]; it is `v` when `v` is inside, and the nearer bound otherwise |
| Text.Lower | src/utils/birdHabitatClassifier.js:5-6 | `toLowerCase` keeps the length and lowers each character, position by position |
| Text.LowerIdempotent | src/utils/birdHabitatClassifier.js:5-6 | lower-casing already lower-cased text changes nothing |
| Catalogue.FindIndex | src/data/birds.js:228 | `family.birds.find(b => b.id === id)`: none exactly when no bird has the id; otherwise the index of a bird with the id, and no earlier bird has it |
| Catalogue.GetBirdById | src/data/birds.js:226-232 | `null` exactly when no bird of any family has the id; otherwise the first match in family-then-bird order, with its family's name and colour added |
| Catalogue.GetAllBirds | src/data/birds.js:234-241 | the flattened listing has as many entries as all families hold birds |
| Catalogue.AllBirdsAppend | src/data/birds.js:234-241 | flattening distributes over concatenation of family lists |
| Catalogue.AllBirdsAt | src/data/birds.js:234-241 | bird `j` of family `i` sits at the family's offset plus `j`, tagged with that family |
| Catalogue.AllBirdsFrom | src/data/birds.js:234-241 | every listed entry is some bird `j` of some family `i`, at offset plus `j` |
| Catalogue.FirstWithId | src/data/birds.js:226-232 | reference first-match search over the flat listing: none exactly when no entry has the id, else the earliest entry with it |
| Catalogue.FirstWithIdTagged | src/data/birds.js:228-229 | searching the tagged birds of one family from bird `n` on agrees with `find` on that family |
| Catalogue.LookupAgreesWithListing | src/data/birds.js:226-241 | `getBirdById(id)` equals the first entry of `getAllBirds()` with that id, or `null` |
| Catalogue.LookupOfListedBird | src/data/birds.js:226-241 | when listed ids are distinct, looking up a listed entry's id returns that entry |
| Catalogue.IdsOfListing | src/data/birds.js:234-241 | the id sequence of the families is the id sequence of the flat listing |
| Catalogue.ShippedIdsUnique | src/data/birds.js:1-224 | the shipped catalogue lists 14 birds with pairwise distinct ids |
| Catalogue.ShippedLookupRoundTrip | src/data/birds.js:1-241 | for every entry `b` of `getAllBirds()`, `getBirdById(b.id)` returns `b` |
| Habitats.Scan | src/utils/birdHabitatClassifier.js:46-126 | one keyword loop: hits exactly when some keyword of the table occurs in the name (for the keyword passes) or in the family name |
| Habitats.GetBirdHabitat | src/utils/birdHabitatClassifier.js:4-130 | the loops in order, with early return, compute the ordered-search value `HabitatOf` |
| Habitats.FirstFiringMeaning | src/utils/birdHabitatClassifier.js:46-129 | the first firing rule is none exactly when no rule fires; otherwise it is the habitat of a firing rule with no earlier rule firing |
| Habitats.SearchOrderPriority | src/utils/birdHabitatClassifier.js:46-126 | when rule `k` fires and no earlier one does, the answer is rule `k`'s habitat, whatever later rules say |
| Habitats.TreeIffNothingFires | src/utils/birdHabitatClassifier.js:98-129 | the answer is `tree` exactly when no keyword table and no family table fires |
| Habitats.KeywordsBeforeFamilies | src/utils/birdHabitatClassifier.js:46-126 | a firing keyword table decides before any family table; the family tables search the family name only |
| Habitats.HabitatIgnoresCase | src/utils/birdHabitatClassifier.js:4-6 | the habitat depends only on the lower-cased name and family; a missing name behaves as the empty name |
| Habitats.CaseBlind | src/utils/birdHabitatClassifier.js:4-6 | the habitat ignores case: lower-casing the bird's name and its family's name beforehand gives the same habitat |
| Habitats.WoodpeckerDuck | src/utils/birdHabitatClassifier.js:46-64 | a bird named "Woodpecker Duck" mentions a water keyword but is `treeHigh`, because the woodpecker table is searched first |
| ShippedHabitats.RedTailedHawkHabitat | src/data/birds.js:8-20 | Red-tailed Hawk among the Raptors is `sky` |
| ShippedHabitats.BaldEagleHabitat | src/data/birds.js:21-33 | Bald Eagle among the Raptors is `sky` |
| ShippedHabitats.PeregrineFalconHabitat | src/data/birds.js:34-46 | Peregrine Falcon among the Raptors is `sky` |
| ShippedHabitats.AmericanRobinHabitat | src/data/birds.js:55-67 | American Robin among the Songbirds is `tree` |
| ShippedHabitats.NorthernCardinalHabitat | src/data/birds.js:68-80 | Northern Cardinal among the Songbirds is `tree` |
| ShippedHabitats.BlueJayHabitat | src/data/birds.js:81-93 | Blue Jay among the Songbirds is `tree` |
| ShippedHabitats.HouseSparrowHabitat | src/data/birds.js:94-106 | House Sparrow among the Songbirds is `tree` |
| ShippedHabitats.MallardDuckHabitat | src/data/birds.js:115-127 | Mallard among the Waterfowl is `water` |
| ShippedHabitats.CanadaGooseHabitat | src/data/birds.js:128-140 | Canada Goose among the Waterfowl is `water` |
| ShippedHabitats.WoodDuckHabitat | src/data/birds.js:141-153 | Wood Duck among the Waterfowl is `water` |
| ShippedHabitats.RubyThroatedHummingbirdHabitat | src/data/birds.js:162-174 | Ruby-throated Hummingbird among the Hummingbirds is `garden` |
| ShippedHabitats.AnnasHummingbirdHabitat | src/data/birds.js:175-187 | Anna's Hummingbird among the Hummingbirds is `garden` |
| ShippedHabitats.DownyWoodpeckerHabitat | src/data/birds.js:196-208 | Downy Woodpecker among the Woodpeckers is `treeHigh` |
| ShippedHabitats.PileatedWoodpeckerHabitat | src/data/birds.js:209-221 | Pileated Woodpecker among the Woodpeckers is `treeHigh` |
| Environments.Config | src/utils/birdHabitatClassifier.js:185-234 | each habitat's configuration carries that habitat's colour |
| Environments.ColouredEntries | src/utils/birdHabitatClassifier.js:252-260 | every record `createEnvironmentData` pushes carries the colour of its own habitat's environment |
| Environments.SortedAt | src/utils/birdHabitatClassifier.js:250-264 | record `k` is the record of listed bird `k` |
| Environments.InHabitatMembers | src/utils/birdHabitatClassifier.js:252-262 | a record is in a habitat's list exactly when it is one of the records and has that habitat |
| Environments.CountsSum | src/utils/birdHabitatClassifier.js:250-264 | the per-habitat list lengths add up to the number of records |
| Environments.InitEnvironments | src/utils/birdHabitatClassifier.js:241-247 | every key of `environmentConfig` gets its configuration, no birds and count 0 |
| Environments.CreateEnvironmentData | src/utils/birdHabitatClassifier.js:237-267 | every habitat's environment has its configuration and holds exactly the records of that habitat, in family-then-bird order, counted |
| Environments.DistributeFamilies | src/utils/birdHabitatClassifier.js:250-264 | after the families, the environments hold exactly the records of all their birds, with configurations unchanged |
| Environments.DistributeFamily | src/utils/birdHabitatClassifier.js:251-263 | one family's birds extend the environments to the records up to the end of that family |
| Environments.DistributeBird | src/utils/birdHabitatClassifier.js:252-262 | one bird: its record is appended to its habitat's environment and that count goes up by one |
| Environments.EnvironmentCounts | src/utils/birdHabitatClassifier.js:260-262 | each `birdCount` equals its list's length and the six counts sum to the number of records |
| Environments.CatalogueCounted | src/utils/birdHabitatClassifier.js:237-267 | the six counts of `createEnvironmentData` sum to the number of birds in the catalogue |
| Environments.EnvironmentOfEachBird | src/utils/birdHabitatClassifier.js:250-264 | each listed bird's record is in an environment exactly when that is its habitat's environment |
| Environments.GroupColorsMatchEnvironments | src/utils/birdHabitatClassifier.js:134-139 | each of the four groups has its environment's colour |
| Environments.GroupBirdsByHabitat | src/utils/birdHabitatClassifier.js:133-154 | the grouping succeeds exactly when every bird's habitat has a group; it then holds exactly each habitat's records; otherwise it throws at the first record without a group |
| Environments.GroupFamilies | src/utils/birdHabitatClassifier.js:141-151 | over all families: success exactly when all records have groups, the groups then complete, the failure at the first ungrouped record |
| Environments.GroupFamily | src/utils/birdHabitatClassifier.js:142-150 | one family's birds extend the groups to the end of that family or throw at its first ungrouped bird |
| Environments.GroupBird | src/utils/birdHabitatClassifier.js:143-149 | one bird: pushed to its group, or the throw when its habitat has no group |
| Environments.FirstOffender | src/utils/birdHabitatClassifier.js:143-144 | a record without a group after grouped ones is the first offender, and not all records are grouped |
| ShippedGrouping.UngroupedCatalogue | src/utils/birdHabitatClassifier.js:133-154 | a catalogue with a bird whose habitat has no group cannot be grouped |
| ShippedGrouping.ShippedGroupingThrows | src/utils/birdHabitatClassifier.js:133-154 | any catalogue holding the shipped Hummingbirds family, the shipped catalogue included, makes `groupBirdsByHabitat` throw |
| Layout.PatternOf | src/utils/birdHabitatClassifier.js:274-360 | a layout name falls to the linear default exactly when the switch does not recognise it |
| Layout.CeilSqrt | src/utils/birdHabitatClassifier.js:298 | `Math.ceil(Math.sqrt(n))`: the least `c` with `c * c >= n` |
| Layout.CalculateBirdPositions | src/utils/birdHabitatClassifier.js:270-364 | one position per bird, in input order, as the position function gives them, for every pattern; the draws consumed are the pattern's per-bird count times the number of birds |
| Layout.CircularPositions | src/utils/birdHabitatClassifier.js:275-285 | the circular case computes the circle positions for each index |
| Layout.ScatteredPositions | src/utils/birdHabitatClassifier.js:287-295 | the scattered case computes the box positions, three draws per bird |
| Layout.GridPositions | src/utils/birdHabitatClassifier.js:297-308 | the grid case computes the cell positions for each index |
| Layout.BranchesPositions | src/utils/birdHabitatClassifier.js:310-322 | the branches case computes the three-height circle positions for each index |
| Layout.TrunkPositions | src/utils/birdHabitatClassifier.js:324-336 | the trunk case computes the climbing circle positions for each index |
| Layout.FlowersPositions | src/utils/birdHabitatClassifier.js:338-350 | the flowers case computes the ring positions, two draws per bird |
| Layout.LinearPositions | src/utils/birdHabitatClassifier.js:352-360 | the default case computes the line positions for each index |
| Layout.DefaultIsLinear | src/utils/birdHabitatClassifier.js:352-360 | under an unrecognised pattern birds sit one unit above the anchor, at its depth, 1.5 apart along x |
| Layout.TrunkClimbs | src/utils/birdHabitatClassifier.js:324-336 | trunk birds start three units up and each sits exactly two above the one before |
| Layout.BranchHeights | src/utils/birdHabitatClassifier.js:310-322 | branch heights are 2, 3.5 or 5 above the anchor and repeat every three birds |
| Layout.OnCircle | src/utils/birdHabitatClassifier.js:275-336 | circular, branches and trunk birds lie at radius width/3, 2.5 and 1.2 around the anchor |
| Layout.ScatteredInside | src/utils/birdHabitatClassifier.js:287-295 | scattered birds stay within half the width and depth of the anchor, between it and its height above |
| Layout.ScatteredAt | src/utils/birdHabitatClassifier.js:287-295 | scattered bird `i` reads draws `3i`, `3i + 1`, `3i + 2` past the start, for x, y and z |
| Layout.FlowersRing | src/utils/birdHabitatClassifier.js:338-350 | birds round flowers lie between radius 1.5 and 2.5 and between 0.5 and 2.5 above the anchor |
| Layout.GridAt | src/utils/birdHabitatClassifier.js:297-308 | grid bird `i` sits in column `i % cols` and row `i / cols`, with `cols = ceil(sqrt n)` |
| Layout.GridInside | src/utils/birdHabitatClassifier.js:297-308 | grid birds stay on the environment's footprint, half a unit above the anchor |
| Layout.GridDistinct | src/utils/birdHabitatClassifier.js:297-308 | on a footprint of positive area no two grid birds share a position |
| Assembly.GetAllBirdsWithEnvironments | src/utils/birdHabitatClassifier.js:473-494 | the environments are those of `createEnvironmentData`, and the render list is their birds environment by environment in key order, with positions, key and environment attached |
| Assembly.PushEnvironments | src/utils/birdHabitatClassifier.js:477-491 | the loop over keys builds the entries of those keys in order and consumes their draws |
| Assembly.PushEnvironment | src/utils/birdHabitatClassifier.js:478-490 | one environment appends one entry per bird, with `positions[index]`, the key and the environment |
| Assembly.PlaceAllStep | src/utils/birdHabitatClassifier.js:477-491 | the entries of one more key are the earlier entries followed by that key's block |
| Assembly.PlaceAllMembers | src/utils/birdHabitatClassifier.js:477-491 | as many entries as the environments hold birds; each entry is a bird of its own environment filed under its key; every bird has an entry |
| Assembly.EnvironmentMembers | src/utils/birdHabitatClassifier.js:250-264 | an environment's birds are exactly the records of its habitat |
| Assembly.RenderCount | src/utils/birdHabitatClassifier.js:473-494 | the render list has one entry per bird of the catalogue |
| Assembly.RenderFiled | src/utils/birdHabitatClassifier.js:481-489 | every entry is a record of the catalogue, filed under its own habitat with that habitat's environment |
| Assembly.RenderCovers | src/utils/birdHabitatClassifier.js:473-494 | every record of the catalogue appears in the render list |
| Assembly.HeldAll | src/utils/birdHabitatClassifier.js:237-267 | the six environments together hold as many birds as there are records |
| Meshes.SizeOf | src/utils/BirdMeshCreator.js:5-11 | the size scale lies in [0.3, 1.1]; a size string that is not one of the four keys (nor an inherited object key) gives 0.5 |
| Meshes.SizesIncrease | src/utils/BirdMeshCreator.js:5-11 | TINY < SMALL < MEDIUM < LARGE, and any other size scales like SMALL |
| Meshes.PartsArranged | src/utils/BirdMeshCreator.js:33-68 | the wings mirror each other in z; tail behind the body, head in front, beak further forward at the head's height |
| Meshes.RenderedBodyColour | src/utils/BirdMeshCreator.js:19-24 | every render entry's body takes the colour of the environment it is placed in, since entries carry no `familyColor` |
| Meshes.BirdGroup.constructor | src/utils/BirdMeshCreator.js:4-80 | a group whose `allParts` is body, head, wings and tail sharing the body material; the beak has its own orange material and is not in `allParts`; offsets scale with size; position and `userData` from the entry |
| Meshes.CreateBirdMeshes | src/components/FamilyTree.jsx:80-84 | one fresh well-formed group per render entry, in order, with that entry's position, `userData` and body colour, unhighlighted |
| Meshes.BuildBirds | src/components/FamilyTree.jsx:70-84 | one group per catalogue bird, each showing a catalogue record filed under its own habitat, in that habitat's environment colour |
| Animation.Animated | src/utils/BirdAnimationController.js:7-31 | no habitat moves z; only sky moves x; treeHigh and garden do not move; ground never moves down |
| Animation.AnimatedTwice | src/utils/BirdAnimationController.js:10-29 | updates are additive: a second frame at the same time moves a group as far again |
| Animation.AnimateBirds | src/utils/BirdAnimationController.js:3-33 | each group takes one frame of its own habitat's movement at its own index; nothing but positions changes |
| Animation.AnimateBird | src/utils/BirdAnimationController.js:5-32 | the group at `index` moves as its habitat prescribes |
| Animation.ShowsOf | src/utils/BirdAnimationController.js:35-43 | a group shows highlighted (or plain) exactly when its scale and body emissive are 1.3 and 0x444444 (or 1 and 0) |
| Animation.HighlightVisible | src/utils/BirdAnimationController.js:35-43 | highlighted and plain are distinguishable: a highlighted group is enlarged and glows |
| Animation.HighlightBird | src/utils/BirdAnimationController.js:35-43 | every part of `allParts` gets emissive 0x444444 and the group scale 1.3 when highlighted, 0 and 1 otherwise |
| Animation.ResetAllBirds | src/utils/BirdAnimationController.js:45-49 | every group ends plain: scale 1 and emissive 0 |
| Interaction.Thresholds | src/utils/MouseInteractionHandler.js:44-67 | a release under 5 pixels is a click and never a move-drag; exactly 5 pixels is neither a click nor a move-drag |
| Interaction.Owner | src/utils/MouseInteractionHandler.js:109-111 | the first group whose `allParts` contains the part, or none exactly when no group contains it |
| Interaction.OwnerOfPart | src/utils/MouseInteractionHandler.js:109-111 | a part of group `i` and of no earlier group is owned by group `i` |
| Interaction.MouseInteractionHandler.constructor | src/utils/MouseInteractionHandler.js:6-30 | the pointer state starts up, at (0, 0), not dragging, with no callback delivered |
| Interaction.MouseInteractionHandler.HandleMouseDown | src/utils/MouseInteractionHandler.js:32-38 | down and not dragging, with the pointer and the drag start at the event |
| Interaction.MouseInteractionHandler.HandleMouseMove | src/utils/MouseInteractionHandler.js:56-81 | nothing while up; otherwise dragging once more than 5 pixels from the start and never cleared, the rotation turned by the travel with tilt clamped to [-0.5, 0.5], and the pointer remembered |
| Interaction.MouseInteractionHandler.HandleMouseUp | src/utils/MouseInteractionHandler.js:40-54 | up; dragging exactly when the release is 5 or more pixels away; a click resolves against the hits, a drag changes no bird |
| Interaction.MouseInteractionHandler.HandleClick | src/utils/MouseInteractionHandler.js:88-130 | nothing while dragging; with no hit every bird reset; with a hit on a bird's part only that bird highlighted and its `userData` passed to the callback |
| Interaction.MouseInteractionHandler.SelectBird | src/utils/MouseInteractionHandler.js:115-124 | all birds reset, then only the chosen one highlighted, and its `userData` delivered when a callback exists |
| Interaction.MouseInteractionHandler.SelectedAfter | src/utils/MouseInteractionHandler.js:115-128 | the groups' scales and emissives show exactly the selected group highlighted |
| Interaction.MouseInteractionHandler.HandleWheel | src/utils/MouseInteractionHandler.js:83-86 | the camera moves by deltaY · 0.02 and is clamped to [10, 40] |

## Left out

- three.js itself is not modelled. Geometry, shading, `Group.add`, `scale.setScalar` and the raycaster are library calls. Parts and materials are plain objects. The raycast is an input list of parts, nearest first.
- `Math.cos`, `Math.sin` and `Math.random` are parameters (`Layout.MathLib`), and floating point is modelled as real arithmetic. The circle and ring lemmas assume `cos² + sin² = 1` and draws in [0, 1) as preconditions.
- `Math.sqrt` in the click and drag thresholds is replaced by comparing squared integer distances with 25. This is exact for integer pixel coordinates.
- The `setTimeout` delays before click resolution and before the callback are not modelled: both run immediately. The callback itself is recorded as the sequence `delivered` of the `userData` it receives.
- Listener registration and removal, and the normalisation of pointer coordinates to [-1, 1], are DOM plumbing. They only feed the raycaster, which is an input here.
- `testBirdClassification` and `debugEnvironmentSetup` only log to the console.
- `environmentMaterials`, `animationSettings` and `environmentLighting` are constant tables with no logic. Render entries therefore omit the `materials` and `animation` fields that `getAllBirdsWithEnvironments` attaches from them.
- `Assembly.PlacedBird`: render entries are built from environment records, which carry `originalFamilyColor` but no `familyColor`. So the mesh body always takes the environment colour, as `Meshes.RenderedBodyColour` states.
- Environments.Sort: the source's `{...bird, habitat: habitat}` replaces the bird's own list of habitat tags with the computed habitat key. The model keeps the tags in the record's `bird` and the key in its `habitat` field. Nothing downstream reads the tags.
- Meshes.SizeOf: sizes are plain strings, so a missing size is not modelled. A size naming a key inherited from `Object.prototype` (such as `"toString"`) would make `sizeMap[size] || 0.5` a function rather than 0.5. No shipped bird has such a size.
- `Environments.CreateEnvironmentData` and `Environments.GroupBirdsByHabitat` take the classifier as a parameter. Every caller passes `Habitats.HabitatOf`, which `Habitats.GetBirdHabitat` is proved to compute.
- Habitats are an enumeration. `animateBirds`' fall-through for unknown habitat names therefore cannot arise, and `groupBirdsByHabitat` can fail only on `treeHigh` and `garden`.
- Animation.AnimateBirds requires the groups to be distinct objects, which `Meshes.CreateBirdMeshes` guarantees. The source does not state this, but with aliased groups the same group would move twice.
- Interaction.MouseInteractionHandler.constructor requires the groups to form a well-formed scene, as `Meshes.CreateBirdMeshes` builds them.
- Habitats.GetBirdHabitat lower-cases ASCII letters only. Unicode case mapping is not modelled, and no shipped name needs it.
- The renderer field of the handler, `src/utils/EnvironmentCreators.js`, `src/utils/ThreeSceneSetup.js`, the React components, `server.js` and `src/relay/environment.js` are scene construction, UI and networking around the core. They are not part of this model.
