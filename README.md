# Portfolio website: the per-frame and per-render rules, in Dafny

This project models the handful of rules that compute something inside an
otherwise declarative React portfolio site. It proves properties of them.

- **ParticleNetwork**, in `ThreeBackground.jsx`. It holds 100 particles. Each frame moves every particle by its velocity and bounces it off the x/y bound of ±10. A particle near the pointer (distance below 4) is pushed away with speed capped at 0.2; any other particle is relaxed to a speed in [0.01, 0.02] (a particle at rest stays at rest). After that, two flat buffers are rebuilt: the particles' coordinates, and a segment for every pair of particles closer than 2 (`particle_network.dfy`, on the vector helpers of `vectors.dfy`). The model is a class over an array of particles. Its frame method is proved to produce exactly the stepped particles and the two buffers, which are specified as functions. Lemmas then prove:
  - the buffer layouts;
  - a pair is connected if and only if i < j and the particles are close;
  - pairs appear in loop order, each unordered pair at most once;
  - the speed bounds;
  - the repulsion's direction and length.
- **FloatingDust**, in `ThreeBackground.jsx`. Its 500 motes each advance a private clock by half their speed every frame (`floating_dust.dfy`).
- **About** (`about.dfy`). Word spans are rendered with a global index. A once-only precompute gives each span a random maximum spacing. On each scroll update the first word's left margin and every word's right margin are set: last words get 0, anchors 15, other words a spacing interpolated from the scroll progress and capped at 30% of the viewport width.
- **Services** (`services.dfy`). It covers the ids of the tech-stack items, the walkthrough list of all ids, `Math.round` of the tweened index, the active highlight, and the last-item border rule.
- **Projects** and **Blog** (`projects.dfy`, `blog.dfy`). They share the 'All'-or-category filter (`category_filter.dfy`). The project card height depends on its grid position, and each blog category badge has a colour.
- **RobotViewer** (`robot_viewer.dfy`). It covers the breakpoint table for scale and position, the idle-animation fallback, and the rule that the robot follows the pointer only after its entrance.

Decimal JavaScript numbers are modelled as Dafny reals. Three things come in as inputs:
- the values `Math.random` and `Math.sin` produce, as draws;
- the scroll progress;
- the pointer position.

Vector lengths come from a `norm` function that the caller vouches for with `Vectors.IsEuclideanNorm`, because Dafny's reals have no square root.

Two consequences of the code:
- A particle is spawned with z velocity 0 (`ThreeBackground.jsx:20`). The repulsion force at `ThreeBackground.jsx:44` has a z component, so z velocity can change after spawning.
- The bounce test at `ThreeBackground.jsx:37-38` can flip a velocity on consecutive frames; see Findings.

## Model

| member | source | states |
|---|---|---|
| Vectors.Normalize | src/components/ThreeBackground.jsx:44 | three.js `normalize`: the vector divided by its length, or by 1 when the length is 0. Its properties are in NormalizeByUnit |
| Vectors.ClampLength | src/components/ThreeBackground.jsx:45-48 | three.js `clampLength(lo, hi)`: the vector rescaled to its length clamped into [lo, hi]. Its properties are in ClampLengthByExact, ClampLengthByBounds and ClampLengthBySign |
| Vectors.LengthBelowIff | src/components/ThreeBackground.jsx:42-43 | For a true length l of a vector with squared length sq, `l < r` holds exactly when `sq < r²`, so a distance threshold can be tested without a square root |
| Vectors.NormalizeByUnit | src/components/ThreeBackground.jsx:44 | `normalize` yields a vector of squared length 1, and leaves the zero vector unchanged |
| Vectors.ClampLengthByExact | src/components/ThreeBackground.jsx:45-48 | `clampLength(lo, hi)` leaves a non-zero vector with its old length clamped into [lo, hi], and a zero vector at length 0 |
| Vectors.ClampLengthByBounds | src/components/ThreeBackground.jsx:45-48 | With 0 ≤ lo ≤ hi, the clamped length is at most hi, and at least lo for a non-zero vector |
| Vectors.ClampLengthBySign | src/components/ThreeBackground.jsx:48 | Clamping never reverses the sign of the x or y component |
| ParticleNetwork.Spawn | src/components/ThreeBackground.jsx:14-20 | One new particle from five `Math.random()` draws, with z velocity 0. Its ranges are in SpawnRanges |
| ParticleNetwork.Integrate | src/components/ThreeBackground.jsx:34 | `position.add(velocity)`. StepMovesByVelocity states it |
| ParticleNetwork.ReflectAsWritten | src/components/ThreeBackground.jsx:37-38 | The bounce test as written. Its behaviour is in ReflectAsWrittenFlips and AsWrittenCycle |
| ParticleNetwork.ReflectOutward | src/components/ThreeBackground.jsx:37-38 | The corrected bounce test, which negates a component only while it heads out. Its behaviour is in ReflectOutwardSettles and StepHeadsBack |
| ParticleNetwork.PointerWorld | src/components/ThreeBackground.jsx:41 | The pointer point (mouse.x·10, mouse.y·10, 0) |
| ParticleNetwork.NearPointer | src/components/ThreeBackground.jsx:42-43 | `distanceTo(pointer) < 4`. NearPointerIff restates it on squared distance |
| ParticleNetwork.Repulsion | src/components/ThreeBackground.jsx:44 | `clone().sub(pointer).normalize().multiplyScalar(0.1)`. Its direction and length are in RepulsionAway |
| ParticleNetwork.Steer | src/components/ThreeBackground.jsx:41-49 | Either repulsion with `clampLength(0, 0.2)` or relaxation with `clampLength(0.01, 0.02)`. Its speed bounds are in SteerSpeed |
| ParticleNetwork.StepAsWritten | src/components/ThreeBackground.jsx:33-49 | The per-particle update exactly as written. Its properties are in StepSpeed, StepMovesByVelocity and AsWrittenCycle |
| ParticleNetwork.Step | src/components/ThreeBackground.jsx:33-49 | The per-particle update with the corrected bounce. Its properties are in StepSpeed and StepHeadsBack |
| ParticleNetwork.StepBy | src/components/ThreeBackground.jsx:33-49 | Picks StepAsWritten (the program) or Step (the correction); the network class is stated in terms of it |
| ParticleNetwork.SpawnRanges | src/components/ThreeBackground.jsx:14-21 | A new particle starts in [-10,10)×[-10,10)×[-5,5), with x and y velocity in [-0.01,0.01) and z velocity 0 |
| ParticleNetwork.StepMovesByVelocity | src/components/ThreeBackground.jsx:33-34 | A step's new position is the old position plus the old velocity; no later test changes it |
| ParticleNetwork.ReflectAsWrittenFlips | src/components/ThreeBackground.jsx:37-38 | The written test negates x (y) velocity exactly when x (y) is outside [-10,10]. It leaves z and the position alone, and applying it twice at one position undoes it |
| ParticleNetwork.ReflectOutwardSettles | src/components/ThreeBackground.jsx:37-38 | The corrected test leaves no component heading out of the box and never touches a coordinate inside it. It is idempotent, so it reflects once per crossing |
| ParticleNetwork.DistanceBelowIff | src/components/ThreeBackground.jsx:42-43 | `distanceTo(q) < r` holds exactly when the squared distance is below r² |
| ParticleNetwork.NearPointerIff | src/components/ThreeBackground.jsx:41-43 | A particle is in repulsion range of (mouse.x·10, mouse.y·10, 0) exactly when its squared distance to that point is below 16 |
| ParticleNetwork.RepulsionAway | src/components/ThreeBackground.jsx:44 | The force has length 0.1 and points away from the pointer: its dot product with position − pointer is 0.1·distance > 0. At the pointer itself the force is zero |
| ParticleNetwork.SteerSpeed | src/components/ThreeBackground.jsx:41-49 | Near the pointer the new speed is ≤ 0.2. Elsewhere it is ≤ 0.02, and ≥ 0.01 unless the particle was at rest |
| ParticleNetwork.StepSpeed | src/components/ThreeBackground.jsx:33-49 | After any step, as written or corrected, the speed is at most 0.2 |
| ParticleNetwork.StepHeadsBack | src/components/ThreeBackground.jsx:37-48 | With the corrected test, a particle out of the pointer's reach never ends a step heading further out of the box |
| ParticleNetwork.OrdinaryCrossing | src/components/ThreeBackground.jsx:34-37 | A particle at x = 9.99 moving out at 0.02 lands at 10.01, beyond the bound and heading out |
| ParticleNetwork.CrossingTurnsBack | src/components/ThreeBackground.jsx:37 | Both tests turn that particle back, to velocity −0.02 |
| ParticleNetwork.CruiseKeeps | src/components/ThreeBackground.jsx:48 | Relaxing a velocity of length 0.02 along x keeps it unchanged |
| ParticleNetwork.CruisingStep | src/components/ThreeBackground.jsx:41-48 | A particle at squared distance ≥ 16 from the pointer, with x velocity ±0.02, is not repelled and keeps its velocity |
| ParticleNetwork.StuckReflections | src/components/ThreeBackground.jsx:34-38 | A particle at x = 10.1 moving in at 0.02 reaches 10.08. The written test turns it outward there; the corrected test keeps it heading in |
| ParticleNetwork.AsWrittenFirstFrame | src/components/ThreeBackground.jsx:33-49 | With the pointer at the corner, the written step takes that particle to x = 10.08, moving outward |
| ParticleNetwork.AsWrittenSecondFrame | src/components/ThreeBackground.jsx:33-49 | The next step takes it back to x = 10.1, moving inward |
| ParticleNetwork.AsWrittenCycle | src/components/ThreeBackground.jsx:33-49 | So the written step repeats with period two while the particle stays beyond the bound |
| ParticleNetwork.CorrectedLeavesCycle | src/components/ThreeBackground.jsx:33-49 | The corrected step moves the same particle to 10.08 and keeps it heading back into the box |
| ParticleNetwork.Close | src/components/ThreeBackground.jsx:62-64 | `p1.position.distanceTo(p2.position) < radius`, with radius 2. CloseSymmetric states that it is symmetric |
| ParticleNetwork.PositionBuffer | src/components/ThreeBackground.jsx:56-57 | The `positions` pushes of the outer loop. The layout is in PositionBufferLayout |
| ParticleNetwork.ClosePairs | src/components/ThreeBackground.jsx:56-71 | The pairs (i, j) the nested loops connect, in loop order. Membership and order are in ClosePairsMembers and ClosePairsInOrder |
| ParticleNetwork.Segments | src/components/ThreeBackground.jsx:65-68 | Six numbers per pair: the two endpoints' coordinates. The layout is in SegmentsLayout |
| ParticleNetwork.EdgeBuffer | src/components/ThreeBackground.jsx:54-71 | The `linePositions` array the nested loops build. The layout is in EdgeBufferLayout |
| ParticleNetwork.RowEdges | src/components/ThreeBackground.jsx:60-70 | Every pair the inner loop finds for particle i is (i, k) with i < k below the loop bound |
| ParticleNetwork.EdgesBelow | src/components/ThreeBackground.jsx:56-71 | Every pair found by the rows below i has its first index below i and its second index above the first and in range |
| ParticleNetwork.PositionBufferLayout | src/components/ThreeBackground.jsx:53-57 | The position buffer has 3·n entries, with particle k's x, y, z at offsets 3k, 3k+1, 3k+2 |
| ParticleNetwork.RowEdgesMembers | src/components/ThreeBackground.jsx:60-64 | The inner loop for particle i up to j emits (i, k) if and only if i < k < j and the two particles are closer than 2 |
| ParticleNetwork.EdgesBelowMembers | src/components/ThreeBackground.jsx:56-70 | The rows below i emit exactly the close pairs whose first index is below i |
| ParticleNetwork.ClosePairsMembers | src/components/ThreeBackground.jsx:56-71 | A pair (i, j) is connected if and only if i < j < n and the particles are closer than 2 |
| ParticleNetwork.CloseSymmetric | src/components/ThreeBackground.jsx:62-64 | Closeness does not depend on the order of the two particles |
| ParticleNetwork.UnorderedPairOnce | src/components/ThreeBackground.jsx:56-71 | An unordered pair of distinct particles is connected exactly when they are close, and in one orientation only |
| ParticleNetwork.RowEdgesInOrder | src/components/ThreeBackground.jsx:60-70 | The inner loop's pairs strictly increase |
| ParticleNetwork.EdgesBelowInOrder | src/components/ThreeBackground.jsx:56-71 | The pairs of the first i rows strictly increase in lexicographic order |
| ParticleNetwork.ClosePairsInOrder | src/components/ThreeBackground.jsx:56-71 | All pairs come in lexicographic (i, j) order, so none appears twice |
| ParticleNetwork.ClosePairsValid | src/components/ThreeBackground.jsx:56-61 | Every connected pair names two existing particles |
| ParticleNetwork.SegmentsSnoc | src/components/ThreeBackground.jsx:65-68 | One more pair appends six numbers: first endpoint's x, y, z, then the second's |
| ParticleNetwork.SegmentsAppend | src/components/ThreeBackground.jsx:54-71 | The segments of two runs of pairs are the segments of the first run followed by those of the second |
| ParticleNetwork.PositionBufferPrefix | src/components/ThreeBackground.jsx:57 | One more outer turn appends particle i's coordinates to the position buffer |
| ParticleNetwork.EdgesBelowNext | src/components/ThreeBackground.jsx:56-71 | One more outer turn appends row i's segments to the edge buffer |
| ParticleNetwork.SegmentsLayout | src/components/ThreeBackground.jsx:65-68 | Segments of valid pairs take 6 numbers per pair, with block k holding pair k's two endpoints |
| ParticleNetwork.EdgeBufferLayout | src/components/ThreeBackground.jsx:54-74 | The edge buffer has length 6·(number of close pairs), and block k holds the endpoints of the k-th close pair in loop order |
| ParticleNetwork.TwoCloseParticles | src/components/ThreeBackground.jsx:53-71 | Two particles 1.5 apart give one pair (0, 1), and both buffers are [0,0,0,1.5,0,0] |
| ParticleNetwork.Network.constructor | src/components/ThreeBackground.jsx:12-23 | Creates exactly 100 particles, particle k from draws 5k..5k+4 |
| ParticleNetwork.Network.Frame | src/components/ThreeBackground.jsx:29-75 | Every particle is stepped before any buffer is built; the buffers are built from the stepped particles and equal the position buffer and the edge buffer of the new state. With `corrected` false the step is the one written at :33-49; with it true, the corrected one |
| ParticleNetwork.Network.StepAll | src/components/ThreeBackground.jsx:33-50 | Each particle becomes the step of its old state, in place: `StepAsWritten` when `corrected` is false, `Step` when it is true |
| ParticleNetwork.Network.RebuildBuffers | src/components/ThreeBackground.jsx:52-74 | The nested loops produce exactly the position buffer and the edge buffer of the current particles |
| ParticleNetwork.ConnectRow | src/components/ThreeBackground.jsx:60-70 | The inner loop appends exactly the segments of row i's close pairs to the edge buffer |
| FloatingDust.SpawnMote | src/components/ThreeBackground.jsx:99-105 | One mote from six `Math.random()` draws, with mx = my = 0. Its ranges are in SpawnMoteRanges |
| FloatingDust.Advance | src/components/ThreeBackground.jsx:113 | `particle.t += speed / 2`. Its effect is in AdvanceTicks and AdvancedClock |
| FloatingDust.PointerTerms | src/components/ThreeBackground.jsx:119-121 | The pointer terms (mx/10)·a and (my/10)·b of the mote position. PointerTermsVanish states them |
| FloatingDust.SpawnMoteRanges | src/components/ThreeBackground.jsx:96-105 | A new mote has t in [0,100), factor in [20,120), speed in [0.01,0.015), each position factor in [−50,50), and mx = my = 0 |
| FloatingDust.AdvanceTicks | src/components/ThreeBackground.jsx:113 | One frame moves the clock strictly forward, by between 0.005 and 0.0075, and changes nothing else |
| FloatingDust.AdvancedClock | src/components/ThreeBackground.jsx:110-113 | After n frames the clock reads t + n·speed/2 and only the clock has changed |
| FloatingDust.ClockIncreasing | src/components/ThreeBackground.jsx:113 | The clock is strictly increasing in the number of frames |
| FloatingDust.PointerTermsVanish | src/components/ThreeBackground.jsx:119-121 | mx and my stay 0 on every frame, so the pointer terms (mx/10)·a and (my/10)·b are 0 |
| FloatingDust.Dust.constructor | src/components/ThreeBackground.jsx:96-108 | Creates exactly 500 motes, mote k from draws 6k..6k+5 |
| FloatingDust.Dust.Frame | src/components/ThreeBackground.jsx:110-113 | Every mote's clock advances once, in place |
| About.WordOf | src/components/About.jsx:155-171 | The data of word k of line li: anchor flag, line, index, global index li·10 + k, type, last flag, reduced flag. RenderIndices states its indices |
| About.Render | src/components/About.jsx:149-176 | All word spans, line by line. RenderIndices and GlobalIndexDistinct state its indices |
| About.MaxSpacing | src/components/About.jsx:46-51 | baseMin + randomVal·(baseMax − baseMin), with 20/60 on reduced lines and 80/300 otherwise. MaxSpacingRange bounds it |
| About.WithRandomMax | src/components/About.jsx:39-53 | Writes randomMax only when it is absent. WithRandomMaxOnce and WithRandomMaxRange state it |
| About.FirstMarginLeft | src/components/About.jsx:72-78 | 10 + 60·(1 − p) on contract lines and 10 + 60·p otherwise. FirstMarginLeftRange states it |
| About.Spacing | src/components/About.jsx:96-108 | 15 + factor·(max − 15), with factor 1 − p on contract lines and p otherwise. SpacingRange states it |
| About.Capped | src/components/About.jsx:112-113 | The spacing capped at 30% of the window width. CappedBound states it |
| About.ApplyWord | src/components/About.jsx:64-116 | The per-word scroll rule. ApplyWordRules, WideViewportUncapped and OneWordLine state it |
| About.RenderIndices | src/components/About.jsx:149-159 | Each span records its line and position, with global index line·10 + position. When no line has more than ten words, the indices strictly increase in document order |
| About.GlobalIndexDistinct | src/components/About.jsx:16-31 | No two spans of the paragraph share a global index |
| About.MaxSpacingRange | src/components/About.jsx:43-51 | With randomVal in [0,1], the maximum spacing is in [20,60] on reduced lines and in [80,300] otherwise |
| About.WithRandomMaxOnce | src/components/About.jsx:38-53 | Afterwards every word has a randomMax. An existing value is kept, nothing else changes, and running the precompute again changes nothing |
| About.WithRandomMaxRange | src/components/About.jsx:42-52 | A newly written randomMax lies in its line's range |
| About.PrecomputeRandomMax | src/components/About.jsx:38-54 | The loop applies the once-only precompute to every span, and every span then has a randomMax |
| About.FirstMarginLeftRange | src/components/About.jsx:71-79 | The first word's left margin is in [10,70]. Contract at p equals expand at 1 − p, with endpoints 10 and 70 |
| About.SpacingRange | src/components/About.jsx:96-108 | Contract spacing at p equals expand spacing at 1 − p. The endpoints give 15 and the maximum, and values in between stay within [15, max] |
| About.CappedBound | src/components/About.jsx:110-113 | The applied spacing never exceeds 30% of the viewport width, and equals the spacing whenever that fits |
| About.ApplyWordRules | src/components/About.jsx:64-116 | Only a line's first word gets a left margin. A last word gets right margin 0 even if it is an anchor, another anchor gets 15, and any other word gets its capped spacing. Data and randomMax are untouched |
| About.WideViewportUncapped | src/components/About.jsx:91-115 | On a viewport of at least 1000 px, a word's right margin is its uncapped spacing, between 15 and its randomMax |
| About.OneWordLine | src/components/About.jsx:30 | The one-word line `world.` is first and last at once: it gets its left margin set and right margin 0 |
| About.ApplyScroll | src/components/About.jsx:61-118 | One scroll update applies the per-word rules to every span, in place |
| Services.TechId | src/components/Services.jsx:146 | `${r1 or r2}-${index}`. TechIdInjective and DecimalRoundTrip state it |
| Services.AllIds | src/components/Services.jsx:101-104 | The row 1 ids followed by the row 2 ids. AllIdsShape states it |
| Services.Round | src/components/Services.jsx:118 | `Math.round`. RoundNearest states it |
| Services.WalkthroughId | src/components/Services.jsx:118-119 | `allIds[Math.round(index)]`, None outside the list. WalkthroughDefined states it |
| Services.IsActive | src/components/Services.jsx:147 | `activeTech === id`. AtMostOneActive states it |
| Services.DesktopBorder | src/components/Services.jsx:165-176 | `md:border-r-0` for the last item, `md:border-r` otherwise. OneBorderless states it |
| Services.ActiveAfter | src/components/Services.jsx:109-119 | The active id after a run of hovers (:177) and walkthrough updates. ActiveAlwaysListed states it |
| Services.DecimalRoundTrip | src/components/Services.jsx:146 | Reading back the decimal numeral of an index gives the index, so different indices give different ids |
| Services.TechIdInjective | src/components/Services.jsx:146 | Two items share an id only if they are the same row and the same index |
| Services.AllIdsShape | src/components/Services.jsx:101-104 | The walkthrough list has 11 ids: r1-0..r1-3, then r2-0..r2-6. It contains every rendered item's id, starts with the initial id r1-0, and has no duplicates |
| Services.RoundNearest | src/components/Services.jsx:118 | `Math.round(x)` is the integer in (x − 0.5, x + 0.5] |
| Services.WalkthroughDefined | src/components/Services.jsx:107-119 | Every tween value in [0, 10] rounds to a valid index, so the walkthrough always sets a listed id. The ends give r1-0 and r2-6 |
| Services.AtMostOneActive | src/components/Services.jsx:147 | Two highlighted items are the same item |
| Services.OneBorderless | src/components/Services.jsx:165-176 | In a non-empty row exactly one item, the last, gets `md:border-r-0` |
| Services.ActiveAlwaysListed | src/components/Services.jsx:109-119 | Starting from r1-0, after any run of hovers and walkthrough updates the active id is one of the listed ids |
| CategoryFilter.Matching | src/components/Projects.jsx:82 | `.filter(x => x.category === selected)`. MatchingExact and MatchingMembers state it |
| CategoryFilter.Filter | src/components/Projects.jsx:80-82 | The whole list for 'All', otherwise the matching items. FilterSpec states it |
| CategoryFilter.MatchPositionsExact | src/components/Projects.jsx:82 | The positions of matching items strictly increase, and contain a position exactly when the item there has the selected category |
| CategoryFilter.MatchingAtPositions | src/components/Projects.jsx:82 | The k-th filtered item is the item at the k-th matching position |
| CategoryFilter.MatchingExact | src/components/Projects.jsx:82 | The filter result is the subsequence of the items with the selected category, in original order |
| CategoryFilter.MatchingMembers | src/components/Blog.jsx:77 | An item is in the filtered list exactly when it is an item of the selected category |
| CategoryFilter.FilterSpec | src/components/Projects.jsx:80-82 | 'All' returns the list unchanged, and any other selection returns exactly the matching items |
| CategoryFilter.MatchingEmptyIff | src/components/Blog.jsx:77 | The filtered list is empty exactly when no item has the selected category |
| Projects.InitiallyAll | src/components/Projects.jsx:10 | The initial selection 'All' shows every project in order |
| Projects.NoEmptyGrid | src/components/Projects.jsx:15-82 | Every category button selects at least one project |
| Projects.AiProjects | src/components/Projects.jsx:17-82 | AI/ML shows projects 1, 3 and 5, in that order |
| Projects.MinHeight | src/components/Projects.jsx:204 | 550px when index % 3 == 0, 500px otherwise. MinHeightPattern states it |
| Projects.MinHeightPattern | src/components/Projects.jsx:204 | A card is 550px tall exactly when its grid position is ≡ 0 mod 3, and 500px otherwise; the pattern repeats every three cards |
| Projects.AiGridHeights | src/components/Projects.jsx:177-204 | Heights follow the position in the filtered grid: 550/500/500 for AI/ML, and 550/500/500/550/500/500 for All |
| Blog.InitiallyAll | src/components/Blog.jsx:10 | The initial selection 'All' shows every article in order |
| Blog.EmptySelections | src/components/Blog.jsx:15-77 | Design and Business show no article, while AI/ML and Web Development show at least one |
| Blog.CategoryColor | src/components/Blog.jsx:131-139 | `colors[category] || grey default`. CategoryColorCases states it |
| Blog.CategoryColorCases | src/components/Blog.jsx:131-139 | The four known categories get their own classes and any other string gets the grey default. The result is grey if and only if the category is unknown |
| Blog.EveryCategoryColoured | src/components/Blog.jsx:131-139 | Every category button except 'All', and every article's category, has its own colour |
| RobotViewer.TargetPlacement | src/components/RobotViewer.jsx:19-36 | The scale and position for a window width. PlacementBands and ScaleMonotone state it |
| RobotViewer.IdleAction | src/components/RobotViewer.jsx:54 | `actions['Idle'] \|\| actions[names[0]]`. IdleFallback states it |
| RobotViewer.FirstNameKey | src/components/RobotViewer.jsx:54 | The key `names[0]` reads: the first clip name, or "undefined" for an empty list. IdleFallback states its use |
| RobotViewer.PlacementBands | src/components/RobotViewer.jsx:13-36 | Placements by width: below 640, 0.7 at (0.4, 0.8); 640–1023, 0.9 at (0, 0); 1024–1439, 1.1 at (−0.3, 0); 1440 and up, 1.3 at (−0.5, −0.2). Each placement arises only from its band. None is the initial placement (1.0 at (−0.5, 0)), so the first reading always moves the robot |
| RobotViewer.ScaleMonotone | src/components/RobotViewer.jsx:19-36 | A wider window never gives a smaller scale, and the scale stays in [0.7, 1.3] |
| RobotViewer.IdleFallback | src/components/RobotViewer.jsx:54-57 | 'Idle' plays if present, else the first clip's action, else nothing. Nothing plays exactly when neither exists, and something plays whenever there is a clip and every clip has an action |
| RobotViewer.Setup | src/components/RobotViewer.jsx:44-51 | `rotation.y = 0` when the group is mounted. SetupKeepsEntrance states it |
| RobotViewer.Lerp | src/components/RobotViewer.jsx:84-85 | three.js `MathUtils.lerp` |
| RobotViewer.Frame | src/components/RobotViewer.jsx:76-86 | One `useFrame` callback. FrozenBeforeEntry, ApproachAfterEntry and ApproachSteady state it |
| RobotViewer.FrozenBeforeEntry | src/components/RobotViewer.jsx:76-77 | Until the entrance tween completes, no run of frames changes the robot's rotation |
| RobotViewer.ApproachAfterEntry | src/components/RobotViewer.jsx:66-85 | Once `setHasEntered(true)` has run, each frame shrinks each rotation's gap to its target by a factor 0.9 |
| RobotViewer.InitialRobotWaits | src/components/RobotViewer.jsx:12-77 | The robot as first mounted, facing forward with `hasEntered` false, stays unchanged through any run of frames until the entrance completes |
| RobotViewer.ApproachSteady | src/components/RobotViewer.jsx:76-86 | With the pointer still, the gap after k frames is 0.9^k times the first |
| RobotViewer.SetupKeepsEntrance | src/components/RobotViewer.jsx:44-51 | Re-running the setup faces the robot forward but keeps its entrance flag |

## Left out

- The FloatingDust position, scale and rotation formulas (`ThreeBackground.jsx:114-127`) and the instanced-mesh matrix updates are not modelled: they are sine/cosine floating-point arithmetic and three.js internals. Only the clock and the zero pointer terms are modelled.
- `Math.random` and the `Math.sin` pseudo-random value in About are not computed. Their values are inputs (the draws of `Spawn`, `SpawnMote` and the network and dust constructors, and About's `randomVal`), with their ranges as preconditions of the range lemmas.
- three.js `Vector3.length` is not computed, because reals have no square root. It is the `norm` parameter, assumed Euclidean. `normalize` and `clampLength` are assumed to divide by `length || 1`, so the zero vector stays zero; the three.js source is not part of this model.
- JavaScript doubles and the `Float32BufferAttribute` conversion are idealised as exact reals. The attributes' item size of 3 and the upload to the GPU are not modelled.
- ParticleNetwork.Network.RebuildBuffers: the inner loop runs to the array length rather than the constant `count`. The two are equal, since the constructor creates exactly `Count` particles.
- About: the lines are written already split at spaces, and the string `split` is not modelled. The DOM `dataset` strings and the `parseInt`/`parseFloat` round trip are modelled as typed fields. `gsap.set` is modelled as a plain field update.
- About.ApplyScroll requires every non-anchor, non-last word to have a `randomMax`. The effect guarantees this by running the precompute first; without it the handler would compute NaN, which the model does not represent.
- The scroll progress, the viewport width and the GSAP/ScrollTrigger, framer-motion and Lenis animations that drive them are inputs or left out, being animation-library plumbing.
- Services: the `matchMedia` condition (max-width 767px) that enables the walkthrough and the character-track animation are not modelled. A walkthrough index outside the list, which would set an undefined id, is modelled as `None`.
- Blog: a JavaScript object lookup of an inherited key such as "constructor" would return a function rather than the grey default. The model treats every string not in the colour map as unknown.
- Project and article records keep only the fields the logic reads (id, title, category).
- RobotViewer: GLTF loading, lighting, the scale tween and the resize listener are left out. The pointer-derived target angles (`mouse·π/10`) are inputs, because π is not a real literal.
- `Navbar.jsx`, `Layout.jsx`, `Hero.jsx`, `Footer.jsx`, `Company.jsx`, `GetInTouchButton.jsx`, `Home.jsx`, `App.jsx` and `tailwind.config.js` are not modelled: they are DOM I/O, timers or static layout.

## Findings

| source | as written | input that shows it | evidently intended | confidence | as-written member | corrected member |
|---|---|---|---|---|---|---|
| src/components/ThreeBackground.jsx:37-38 | A velocity component is negated on every frame in which its coordinate is outside [-10, 10], whichever way the particle moves | A particle pushed past the bound, at x = 10.1 with velocity (−0.02, 0, 0), pointer at the corner (−1, −1): it alternates between x = 10.08 moving out and x = 10.1 moving in, forever outside the box | Negate only while the component carries the particle further out, so it reflects once per crossing | not executed | ParticleNetwork.AsWrittenCycle | ParticleNetwork.StepHeadsBack |
