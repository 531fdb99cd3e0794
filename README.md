# Solar system scene: a Dafny model of its logic

This project models the logic inside an interactive 3D solar-system web app. It covers the following parts:

- **Earth globe.**
  - The table of 14 cities and the 11 key connections.
  - The two-pass builder of connection lines:
    - key pairs first;
    - then at most one random partner per city, capped at four lines per city.
  - The UV buffer of an animated line.
  - The click and pointer-move handlers.
- **Playground store.** The table of 37 default settings, `updateValue`, `resetToDefaults` and the `usePlayground` guard.
- **Planet data.**
  - The `planetData` table of nine bodies.
  - The `cameraPositions` table.
  - The information panel that looks a body up in `planetData`.
- **Loading screen.** The mapping from load progress to the rocket's offset, the flame, the wobble, the smoke and the percent label.
- **Starfield.**
  - The loop that fills the position and colour buffers.
  - The per-frame spin.
- **Orbit ring.** The loop that builds the points of an orbit circle.

Randomness, `Math.PI` and trigonometry come from module `Oracles`.

- Each `Math.random()` result is an input in [0, 1).
- `sin`, `cos` and `acos` are uninterpreted functions passed in as a `Trig` value.
- Ray casting is left to the caller. The handlers receive the city indices of the hit areas the ray crossed, nearest first.

Modules, one per source file (Earth.jsx is split into three):

| module | file | form |
|---|---|---|
| `CityTable` | earth_cities.dfy | constant tables |
| `Connections` | earth_connections.dfy | the builder as functions of the draws, with its properties |
| `Globe` | earth_globe.dfy | class `Globe` (`lines`, `hoveredCity`, `cursor`) and the imperative loops |
| `Playground` | playground.dfy | class `PlaygroundStore` (`values`), with an action-sequence semantics |
| `Planets` | planets.dfy | `planetData` and `cameraPositions` |
| `PlanetInfo` | planet_info.dfy | the panel lookup |
| `RocketLoader` | rocket_loader.dfy | progress mappings |
| `Starfield` | starfield.dfy | array-fill loop and class `Mesh` |
| `OrbitLine` | orbit_line.dfy | the point loop |
| `Oracles`, `Wrappers`, `KeyLists` | oracles.dfy, wrappers.dfy, keylists.dfy | shared helpers |

The builder in module `Globe` is proved equal to the functions `KeyPhase`, `RandomPhase` and `Wire` in module `Connections`. Everything proved about those functions therefore holds for the lines the class pushes.

## Model

| member | source | states |
|---|---|---|
| Oracles.RandomIndex | solarsystem/src/Earth.jsx:586 | `Math.floor(Math.random() * n)` is a valid index below n |
| Oracles.EveryIndexReachable | solarsystem/src/Earth.jsx:586-587 | every index of a non-empty list is picked by some draw in [0, 1) |
| CityTable.CityTableShape | solarsystem/src/Earth.jsx:21-177 | the table holds 14 cities, each with a valid latitude and longitude |
| CityTable.KeyConnectionsValid | solarsystem/src/Earth.jsx:547-550 | there are 11 key pairs, each joining two different cities of the table |
| CityTable.KeyConnectionsDistinct | solarsystem/src/Earth.jsx:547-550 | no key pair is listed twice, in either orientation |
| Connections.LineColor | solarsystem/src/Earth.jsx:557-558 | the colour picked by a draw is one of the three palette colours |
| Connections.AddLine | solarsystem/src/Earth.jsx:560-566 | pushing a line keeps the earlier lines, appends exactly that line, and raises the counters of its two ends by one each and no other counter |
| Connections.SomeLinksIffListed | solarsystem/src/Earth.jsx:580 | the `some` scan is true exactly when a listed pair joins i and j in either orientation |
| Connections.EligibleBelowSpec | solarsystem/src/Earth.jsx:575-583 | the candidate list holds exactly the eligible cities (not i, below the cap, not a key partner), each once, in increasing order |
| Connections.Partner | solarsystem/src/Earth.jsx:571-587 | a city gains no partner exactly when it is at the cap or has no candidate; a partner is a candidate, below the cap, a different city and not a key partner |
| Connections.AddLineKeepsCounted | solarsystem/src/Earth.jsx:562-566 | if every counter equals the number of lines at its city, that stays true after a push and two counter updates |
| Connections.KeyPhaseDrawsKeyPairs | solarsystem/src/Earth.jsx:553-567 | the first pass draws one line per key pair, in order and with the pair's ends, and each counter equals that city's key degree |
| Connections.KeyDegreesBelowCap | solarsystem/src/Earth.jsx:547-550 | the key pairs give every city at most three lines, and city 0 exactly three |
| Connections.KeyPhaseBelowCap | solarsystem/src/Earth.jsx:543-567 | after the first pass every counter is at most 3 and city 0's is 3, so no city is capped yet |
| Connections.KeyPhaseWellWired | solarsystem/src/Earth.jsx:543-567 | after the first pass the counters match the lines, all cities are within the cap, and no line is a self-loop |
| Connections.RandomStepKeepsWellWired | solarsystem/src/Earth.jsx:570-601 | a random step keeps that state well formed, and either changes nothing or appends exactly one line from city i to its partner |
| Connections.RandomPhaseKeepsWellWired | solarsystem/src/Earth.jsx:570-602 | the second pass keeps the state well formed, keeps the earlier lines as a prefix, and adds at most one line per city |
| Connections.RandomPhaseLinesInCityOrder | solarsystem/src/Earth.jsx:570-602 | each line the second pass adds starts at a city already visited and joins no key pair, and the lines come in strictly increasing start-city order |
| Connections.WireSpec | solarsystem/src/Earth.jsx:543-602 | the finished wiring has the key lines first, in order, then at most one random line per city, none of them a key pair. No line is a self-loop, every city is within the cap of 4, and every counter equals the number of lines at its city |
| Connections.DegreeSumIsTwiceLines | solarsystem/src/Earth.jsx:562-566 | over lines between cities below n, the degrees sum to twice the number of lines |
| Connections.CounterSumIsDegreeSum | solarsystem/src/Earth.jsx:564-566 | when counters match lines, the counter sum equals the degree sum |
| Connections.RandomPhasePrefix | solarsystem/src/Earth.jsx:570-602 | the second pass only appends: the lines after the first m cities begin with the lines after fewer cities |
| Connections.RandomPassCanRepeatAPair | solarsystem/src/Earth.jsx:575-587 | with every draw 0, line 12 joins city 1 to city 2 and line 13 joins city 2 back to city 1, so the same pair is drawn twice |
| Connections.WireHandshake | solarsystem/src/Earth.jsx:543-602 | the 14 counters add up to twice the number of lines drawn |
| Globe.CollectCandidates | solarsystem/src/Earth.jsx:573-583 | the inner loop's list is exactly the candidate list of the specification |
| Globe.LineURunsFromZeroToOne | solarsystem/src/Earth.jsx:221-223 | U is 0 at the first point and 1 at the last, lies in [0, 1], and strictly increases along the line |
| Globe.FillLineUVs | solarsystem/src/Earth.jsx:220-224 | a fresh buffer of 2n numbers in which point i has U = i/(n-1) and V = 0 |
| Globe.ClickedCity | solarsystem/src/Earth.jsx:644-647 | a click selects a city exactly when the ray hit some hit area, and then it selects the city of the nearest hit |
| Globe.Globe.constructor | solarsystem/src/Earth.jsx:661 | no lines yet, no hovered city, no cursor style set |
| Globe.Globe.ConnectCities | solarsystem/src/Earth.jsx:543-602 | the scene set-up pushes exactly the lines of `Wire` onto `lines` |
| Globe.Globe.AddKeyConnections | solarsystem/src/Earth.jsx:553-567 | the key loop pushes the lines of the first pass and returns its counters |
| Globe.Globe.AddKeyConnection | solarsystem/src/Earth.jsx:554-566 | the body for key pair k appends its line and raises both cities' counts: exactly one step of the first pass |
| Globe.Globe.AddRandomConnections | solarsystem/src/Earth.jsx:570-602 | the city loop pushes the lines of the second pass, started from the key counters |
| Globe.Globe.AddRandomConnection | solarsystem/src/Earth.jsx:571-601 | the body for city i performs exactly one step of the second pass |
| Globe.PointerMove | solarsystem/src/Earth.jsx:674-683 | the hovered city becomes the nearest hit, or none on a miss. The cursor turns to pointer or default only when the hovered city changes, and nothing changes otherwise |
| Globe.PointerMoveAsWritten | solarsystem/src/Earth.jsx:663-694 | a move that changes the hovered city, followed by the effect's clean-up when the handler is replaced, ends with the default cursor |
| Globe.PointerCursorIsReset | solarsystem/src/Earth.jsx:674-694 | from the initial state, a move onto city 3 hovers it but leaves the default cursor, so cursor and hover disagree |
| Globe.PointerMoveKeepsCursorMatched | solarsystem/src/Earth.jsx:674-683 | the handler alone keeps the pointer cursor shown exactly while a city is hovered |
| Globe.Globe.HandlePointerMove | solarsystem/src/Earth.jsx:674-683 | the hovered city and the cursor take the values `PointerMove` gives |
| Globe.Globe.CleanUpPointerEffect | solarsystem/src/Earth.jsx:690-693 | the clean-up sets the default cursor and leaves the hovered city alone |
| Playground.DefaultKeysDistinct | solarsystem/src/PlaygroundContext.jsx:15-64 | the defaults name 37 settings, none twice |
| Playground.InitialKeys | solarsystem/src/PlaygroundContext.jsx:15-64 | the initial table is keyed by exactly those 37 names |
| Playground.InitialCount | solarsystem/src/PlaygroundContext.jsx:15-64 | the initial table has exactly 37 entries |
| Playground.ResetIsInitial | solarsystem/src/PlaygroundContext.jsx:73-113 | the table `resetToDefaults` installs is the same as the initial table |
| Playground.Updated | solarsystem/src/PlaygroundContext.jsx:67-70 | the update sets the key, adding it if missing, and leaves every other key's value unchanged |
| Playground.PlaygroundStore.constructor | solarsystem/src/PlaygroundContext.jsx:15-64 | the store starts with the default table |
| Playground.PlaygroundStore.UpdateValue | solarsystem/src/PlaygroundContext.jsx:66-71 | the new table is the old one with the key set to the value |
| Playground.PlaygroundStore.ResetToDefaults | solarsystem/src/PlaygroundContext.jsx:73-113 | the new table is the default table, whatever keys were added |
| Playground.RunAppend | solarsystem/src/PlaygroundContext.jsx:66-113 | running two action sequences in turn is running their concatenation |
| Playground.ResetForgetsHistory | solarsystem/src/PlaygroundContext.jsx:73-113 | after a reset the store behaves as a fresh one, whatever came before |
| Playground.ResetIdempotent | solarsystem/src/PlaygroundContext.jsx:73-113 | resetting twice is resetting once, and a reset yields the initial table |
| Playground.DefaultKeysNeverLost | solarsystem/src/PlaygroundContext.jsx:66-113 | no sequence of updates and resets removes a default key |
| Playground.UntouchedKeyKeepsValue | solarsystem/src/PlaygroundContext.jsx:67-70 | a key that no update names keeps its value through a sequence of updates |
| Playground.LastWriteWins | solarsystem/src/PlaygroundContext.jsx:67-70 | of two updates of one key only the later is seen |
| Playground.UpdatesOfDistinctKeysCommute | solarsystem/src/PlaygroundContext.jsx:67-70 | updates of different keys commute |
| Playground.UsePlayground | solarsystem/src/PlaygroundContext.jsx:6-12 | it succeeds exactly inside a provider, with the provider's value, and otherwise fails with the provider message |
| Planets.PlanetTableShape | solarsystem/src/planetData.js:1-74 | nine distinct bodies, the Sun first, and the table keyed by exactly them |
| Planets.NamesAreKeys | solarsystem/src/planetData.js:1-74 | every entry's `name` equals its key |
| Planets.PlanetCount | solarsystem/src/planetData.js:1-74 | the table has exactly nine entries |
| Planets.DistancesIncrease | solarsystem/src/planetData.js:1-74 | the Sun is at distance 0, and distances strictly increase in table order |
| Planets.DistancesNonNegative | solarsystem/src/planetData.js:1-74 | no distance is negative |
| Planets.SunIsLargest | solarsystem/src/planetData.js:1-74 | every diameter is positive, and the Sun's is larger than any other |
| Planets.CameraTable | solarsystem/src/planetData.js:76-87 | there is one camera position per body plus the overview, each an [x, y, z] triple |
| Planets.CameraStandsOnOrbit | solarsystem/src/planetData.js:76-87 | each planet's camera x equals that planet's default orbit radius in the playground defaults, and the Sun's camera x is 0 |
| PlanetInfo.PanelFor | solarsystem/src/PlanetInfo.jsx:5-55 | a panel is shown exactly for a non-empty name the table holds, with that entry's name, diameter in km, rotation, distance in million km, description and fact |
| PlanetInfo.PanelTitledByRequest | solarsystem/src/PlanetInfo.jsx:8-22 | every body in the table gets a panel titled with the requested name |
| RocketLoader.RocketStaysOnScreen | solarsystem/src/RocketLoader.jsx:24 | at progress 0 to 95 the rocket's offset lies in [-100, 0] |
| RocketLoader.RocketNeverDescends | solarsystem/src/RocketLoader.jsx:24 | more progress never moves the rocket down |
| RocketLoader.FlameTrailsRocket | solarsystem/src/RocketLoader.jsx:24-62 | the flame is never above the rocket. It moves with it up to progress 45, and sits 10 px below it from progress 50 on |
| RocketLoader.RocketWobble | solarsystem/src/RocketLoader.jsx:25-29 | the rocket wobbles (repeats its keyframes) exactly when progress exceeds 80 |
| RocketLoader.WobbleEndsUpright | solarsystem/src/RocketLoader.jsx:25 | the rotation always ends at angle 0 |
| RocketLoader.SmokeHidden | solarsystem/src/RocketLoader.jsx:91 | smoke is hidden exactly when the rocket has left the screen |
| RocketLoader.SmokeDelay | solarsystem/src/RocketLoader.jsx:86 | the eight particles start within the first 1.6 s |
| RocketLoader.Percent | solarsystem/src/RocketLoader.jsx:8 | the label is within 0.5 of the progress, and non-negative for non-negative progress |
| RocketLoader.PercentInRange | solarsystem/src/RocketLoader.jsx:8 | for progress in [0, 100] the label lies in [0, 100] and never goes backwards |
| RocketLoader.Render | solarsystem/src/RocketLoader.jsx:6-109 | one frame: the flame is not above the rocket, smoke is hidden iff progress > 95, it wobbles iff progress > 80, and the bar width equals the label, within [0, 100] |
| Starfield.RadiusInShell | solarsystem/src/Starfield.jsx:15 | every star lies at a radius in [50, 100) |
| Starfield.ColorInRange | solarsystem/src/Starfield.jsx:24-26 | red and green are in [0.8, 1) and blue in [0.9, 1) |
| Starfield.StarOnSphere | solarsystem/src/Starfield.jsx:15-21 | given sin² + cos² = 1, the position lies on the sphere of the star's radius |
| Starfield.WriteStar | solarsystem/src/Starfield.jsx:15-26 | one iteration writes the three position and three colour slots of star i and no other slot |
| Starfield.FillStars | solarsystem/src/Starfield.jsx:9-30 | two fresh buffers of 3·count numbers (15000 at the default 5000 stars), slot 3j + c holding channel c of star j |
| Starfield.RotationIsLinear | solarsystem/src/Starfield.jsx:33-37 | after n frames the field has turned by exactly n · 0.0001 radians |
| Starfield.OnFrame | solarsystem/src/Starfield.jsx:33-37 | a mounted mesh turns by one frame's step, and before mounting nothing happens |
| OrbitLine.RingPoint | solarsystem/src/OrbitLine.jsx:8-11 | every point lies in the y = 0 plane |
| OrbitLine.AnglesSweepOneTurn | solarsystem/src/OrbitLine.jsx:7-8 | the angles run from 0 to 2π and strictly increase |
| OrbitLine.OrbitPoints | solarsystem/src/OrbitLine.jsx:6-12 | segments + 1 points (129 at the default 128 segments), point i being the ring point at angle 2πi/segments |
| OrbitLine.RingCloses | solarsystem/src/OrbitLine.jsx:7-11 | the last point is at angle 2·`Math.PI` and the first at 0. If sin and cos at 2·`Math.PI` are within `gap` of their values at 0, the last point is level with the first and within abs(radius)·gap of it in x and z |
| OrbitLine.RingIsCircular | solarsystem/src/OrbitLine.jsx:8-11 | given sin² + cos² = 1, each point lies on the circle of the given radius |

## Left out

- Floating point: numbers are exact reals.
  - Float32 and Float64 rounding is not modelled.
  - In Float32, a star colour of `0.8 + r * 0.2` can round up to 1.0. `ColorInRange` is therefore proved over reals only.
- NaN cases:
  - `FillLineUVs` requires at least two points (or none). The one-point case divides 0 by 0. The only caller asks for 101 points.
  - `OrbitPoints` requires `segments > 0`. For 0, the source produces NaN angles.
- Draw order: `Math.random()` draws are indexed per call site (key pair k's colour, city i's partner, city i's colour) rather than by one global call order. Every assignment of values stays reachable.
- Rendering is not modelled: Three.js objects, shaders, the Bézier curve, `latLngToVector3`, the globe group, labels and animation timing.
  - A line is modelled by its two city indices and its colour.
  - The city meshes pushed onto `cityMeshes` are not modelled; their hit areas carry the city index the handlers receive.
  - `curve.getPoints(100)` is modelled only as the point count given to `FillLineUVs`.
- Input handling is reduced to its effect:
  - DOM events, mouse coordinates and ray casting become the list of hit city indices.
  - `onCitySelect` becomes the city that `ClickedCity` returns.
  - `setHoveredCity` becomes a field update.
  - React's stale closure over `hoveredCity` is not modelled: the handler reads the current state.
- Globe.Globe.HandlePointerMove: it models the handler alone. The re-registration that follows a change of hovered city is modelled separately: `PointerMoveAsWritten` and `CleanUpPointerEffect` reset the cursor to default (see Findings).
- OrbitLine.RingCloses: it proves closure only up to a gap. `Math.PI` is a double just below π, so `Math.sin(2 * Math.PI)` is about -2.45e-16 rather than 0. The last point is therefore [r, 0, -2.45e-16·r] where the first is [r, 0, 0]. The lemma holds with gap 2.45e-16, and the points coincide only if sin and cos return equal values at 0 and 2·`Math.PI`.
- Globe.Globe.ConnectCities: the source's single effect is modelled as two methods, one per pass. The counter map is a local handed from the first to the second.
- Connections.WireSpec: it does not exclude a duplicated random pair. City i may pick j, and later j may pick i, since the source only rules out key pairs. `RandomPassCanRepeatAPair` shows a case.
- RocketLoader.Percent:
  - `toFixed(0)` is modelled as the integer it spells, halves rounded away from zero.
  - The string form, including `"-0"` for small negative input, is not modelled.
- PlanetInfo.PanelFor:
  - `toLocaleString()` digit grouping is not modelled. The panel holds the number and its unit.
  - Only own keys of `planetData` are looked up. Inherited names such as `constructor` are not modelled.
- Planet texts are kept in a `Text` function over one identifier per text. The table holds the identifier, and `Text` returns the very string of the source.
- Smoke particles: their random x, y, scale, duration and left offset only affect appearance and are left out.
- The Earth helper that builds its own background stars (Earth.jsx:300) is not part of this model.
- OrbitLine: the `color` prop and Solar.jsx's extra `eccentricity` prop do not affect the points and are not modelled.
- The shape of the `usePlayground` context: the model's `None` stands for the missing context. A present context is always an object, so it is never falsy.

## Findings

| source | as written | input that shows it | evidently intended | confidence | as-written member | corrected member |
|---|---|---|---|---|---|---|
| solarsystem/src/Earth.jsx:684-694 | the pointer-move handler depends on `hoveredCity`, so each hover change replaces it, and the effect's clean-up sets the cursor back to default | the pointer moves onto city 3 from the initial state: city 3 is hovered, the cursor is default | the pointer cursor stays while a city is hovered, and the clean-up runs only on unmount | medium, not executed | Globe.PointerCursorIsReset | Globe.PointerMoveKeepsCursorMatched |
