# Atom visualiser: a Dafny model of its layout and load logic

The application shows one chemical element as a 3D atom. The user searches an
element by name, an element-data service returns an `ElementInfo` record, and
the scene draws a nucleus and electrons orbiting in shells. This project
models the discrete logic behind that picture and proves its properties:

- **Electron shell allocation** (`ElectronShells`): the greedy fill of the
  capacity table `[2, 8, 18, 32, 32, 18, 8]`, innermost shell first. Each
  electron gets one record with radius, angular speed, starting offset, tilt
  and id. The two loops of the source are kept. `AllocateElectrons` is the
  outer `while` over shells, and `FillShell` is the inner `for` over the
  electrons of one shell, written as its own method. Both are proved against
  `Allocation`. That function is specified in two layers:
  - `Placements` says where each electron goes: its shell, its number in
    the shell, the shell's size and the order in which it is emitted.
  - `Record` says which record an electron gets from its placement.
  The random tilts are a parameter `draw`: the stream of `Math.random()`
  results. The electron emitted g-th uses draws 3g, 3g+1 and 3g+2.
- **Nucleus** (`Nucleus`): the sphere-point loop, which makes one point per
  nucleon, and the tagging of the first `protons` points as protons.
- **Orbit integrator** (`Orbit`): a class per electron whose angle starts at
  the offset of its first render and advances by `speed * delta` on every
  frame in which its mesh is mounted. A re-render under the same key (a
  speed-slider move or a new element) replaces the props but keeps the
  angle, so later frames use the new speed and the new offset is ignored.
- **Scene composition** (`AtomScene`): the neutron estimate (0 for hydrogen,
  otherwise `Math.round(1.2 Z)`, which equals `(6Z + 2) div 5`), and the
  nucleus and shells built from the atomic number.
- **Application controller** (`App`):
  - the load state machine over `currentElement`, `loading` and `error`;
  - the search guard, which tests `searchTerm.trim()` but loads the term as
    typed;
  - the background colour: Noble before Metal before the default;
  - the scene's `atomicNumber || 6` fallback;
  - the refresh target.
  The element fetch is an input. Each load is given a `FetchOutcome`.
- `Elements` mirrors the `ElementInfo` record. `Decimal` renders the numbers
  in electron ids.

Numbers are modelled as Dafny `real` and `int`, not IEEE doubles. `Math.PI`
is the decimal constant `Pi`.

## Model

| member | source | states |
|---|---|---|
| Decimal.NatToString | components/AtomScene.tsx:127 | The numeral of n in an id is non-empty and all digits. It has one digit exactly when n < 10. |
| Decimal.NatToStringInjective | components/AtomScene.tsx:127 | Different shell or electron numbers render to different numerals. |
| ElectronShells.CapacityTable | components/AtomScene.tsx:107 | The shells inside shell i hold 0, 2, 10, 28, 60, 92, 110 and 118 electrons in total, for i = 0 to 7. |
| ElectronShells.ShellOf | components/AtomScene.tsx:107 | Every output position below 118 falls in the range of the returned shell, and in the range of no other of the seven shells. |
| ElectronShells.AllocateElectrons | components/AtomScene.tsx:108-135 | The loop returns exactly the specified allocation. That is min(max(count, 0), 118) records: none for count <= 0, and clamped at 118. |
| ElectronShells.FillShell | components/AtomScene.tsx:117-129 | The inner loop appends one record per electron of the shell, in order. Each record is the one its placement determines. |
| ElectronShells.ShellStep | components/AtomScene.tsx:113-132 | After shell i the loop has placed the whole shell. Either what remains is count minus the capacity of shells 0..i, or the count is used up. |
| ElectronShells.AllocationDone | components/AtomScene.tsx:113 | The loop stops because the count is used up or because all seven shells are used. Either way, the result is the placements of all seven shells. |
| ElectronShells.PlacementsSettled | components/AtomScene.tsx:113 | Once the count fits in the shells so far, the outer shells add no electron. |
| ElectronShells.PlacementsLength | components/AtomScene.tsx:113-132 | The n innermost shells hold min(max(count, 0), capacity of those n shells) electrons. |
| ElectronShells.PlacementsPrefix | components/AtomScene.tsx:113-133 | Shells are emitted in order: the output for fewer shells is a prefix of the output for more. |
| ElectronShells.PlaceShellAt | components/AtomScene.tsx:117-128 | Electron j of a shell of k is emitted right after the j before it. It carries number j, size k and its position in the output. |
| ElectronShells.PlacementOfElectron | components/AtomScene.tsx:113-133 | Electron j of shell s is output position CapacityBefore(s) + j. |
| ElectronShells.PlacementAt | components/AtomScene.tsx:113-133 | Output position p is electron p - CapacityBefore(s) of the shell s that contains p. |
| ElectronShells.AllocationLength | components/AtomScene.tsx:107-133 | Count conservation: the allocation has min(max(count, 0), 118) records. |
| ElectronShells.GreedyShare | components/AtomScene.tsx:113-132 | Shell i receives min(remaining, capacity) while remaining > 0, and nothing after. Here remaining is the count minus what the inner shells took. No shell exceeds its capacity, and the shells before i take min(count, capacity before i) together. |
| ElectronShells.PrefixFull | components/AtomScene.tsx:113-133 | A shell receives electrons only if every shell inside it is full. |
| ElectronShells.GoldShells | components/AtomScene.tsx:107-133 | A count of 79 fills the shells as 2, 8, 18, 32, 19, 0, 0. |
| ElectronShells.Record | components/AtomScene.tsx:118-128 | A pushed record has radius at least 2.5. Its speed is positive in the seven shells for a positive multiplier, and its offset is in [0, 2π) for an electron within its shell. With draws in [0, 1) its tilt angles are in [0, π). |
| ElectronShells.ElectronAt | components/AtomScene.tsx:115-127 | Electron j of shell s, which holds k electrons, has radius 2.5 + 1.5s and speed (1.5 - 0.2s) times the multiplier. Its offset is 2πj/k, its tilt comes from its own three draws, and its id is `e-s-j`. |
| ElectronShells.ElectronIdInjective | components/AtomScene.tsx:127 | An id `e-<shell>-<j>` determines the shell and j. |
| ElectronShells.AllocationIdsDistinct | components/AtomScene.tsx:118-127 | No two records of an allocation share an id. |
| ElectronShells.AllocationTilts | components/AtomScene.tsx:122-126 | Record p uses the draws 3p, 3p+1 and 3p+2. When every draw is in [0, 1), every tilt angle is in [0, π). |
| ElectronShells.OffsetsEvenlySpaced | components/AtomScene.tsx:121 | In a shell of k electrons the offsets start at 0, stay in [0, 2π) and step by 2π/k. |
| ElectronShells.ShellOrdering | components/AtomScene.tsx:115-120 | The radius strictly grows outward. For the seven shells and a positive multiplier, the speed is positive and strictly falls outward. |
| Nucleus.WrittenLatitude | components/AtomScene.tsx:13 | The formula as written is NaN exactly for a one-point spiral. Otherwise it lies in [-1, 1], with 1 for the first point and -1 for the last. |
| Nucleus.WrittenLatitudeSingleNucleon | components/AtomScene.tsx:13 | As written, a one-nucleon spiral (hydrogen) gets a NaN latitude. |
| Nucleus.Latitude | components/AtomScene.tsx:13 | The latitude of point i of n lies in [-1, 1]. The first point is the north pole and, for n > 1, the last point is the south pole. |
| Nucleus.LatitudeAgrees | components/AtomScene.tsx:13 | The formula as written is NaN exactly when n = 1. Otherwise it equals Latitude. |
| Nucleus.LatitudeDescending | components/AtomScene.tsx:13 | Later points of the spiral lie strictly further south. |
| Nucleus.Spiral | components/AtomScene.tsx:9-21 | The spiral of n has max(n, 0) points. |
| Nucleus.SpiralVersusWritten | components/AtomScene.tsx:12-19 | The spiral's latitudes are those of the formula as written for n > 1. For n = 1 the formula gives NaN, and the spiral puts the point at the pole. |
| Nucleus.SpherePoints | components/AtomScene.tsx:12-19 | The point loop makes max(n, 0) points, one per index, in order, at the corrected latitude. |
| Nucleus.Tag | components/AtomScene.tsx:33-36 | Tagging keeps the length and the positions. Entry i is a proton exactly when i < protons. |
| Nucleus.KindsPartition | components/AtomScene.tsx:35 | Every particle is a proton or a neutron. |
| Nucleus.ThresholdCount | components/AtomScene.tsx:33-36 | A list tagged by a proton threshold holds the threshold's number of protons, clamped to its length. |
| Nucleus.TagCounts | components/AtomScene.tsx:33-36 | There are clamp(protons, 0, n) protons and the rest are neutrons. Every proton precedes every neutron. |
| Nucleus.LayoutNucleus | components/AtomScene.tsx:28-37 | The particle memo tags the spiral of protons + neutrons points. |
| Nucleus.NucleusComposition | components/AtomScene.tsx:28-37 | For non-negative counts the nucleus has protons + neutrons particles: exactly `protons` protons and `neutrons` neutrons. |
| Orbit.AngleAfterSum | components/AtomScene.tsx:74-78 | After any frames, the angle is the offset plus speed times the sum of the deltas. |
| Orbit.SameElapsedSameAngle | components/AtomScene.tsx:76-78 | Frame-rate independence: frames with the same total time reach the same angle. |
| Orbit.AngleAfterConcat | components/AtomScene.tsx:76-78 | Ticks are additive: running xs and then ys is running xs + ys. |
| Orbit.AngleNeverDecreases | components/AtomScene.tsx:78 | With a non-negative speed and non-negative deltas the angle never decreases. No wrap-around is applied. |
| Orbit.AdvanceAtSpeed | components/AtomScene.tsx:76-78 | While the speed does not change, the per-frame updates at that speed are the single-speed fold. |
| Orbit.AdvanceConcat | components/AtomScene.tsx:76-78 | Frames whose speeds differ also compose: running xs and then ys is running xs + ys. |
| Orbit.SpeedChange | components/AtomScene.tsx:74-78 | After a speed change the angle is the start plus the old speed times the time before the change, plus the new speed times the time after it. |
| Orbit.ElectronOrbit.constructor | components/AtomScene.tsx:72-74 | The angle starts at the record's offset, and no frame has been applied. |
| Orbit.ElectronOrbit.Tick | components/AtomScene.tsx:76-78 | A frame with the mesh mounted adds speed * delta at the current speed. A frame without it changes nothing. The props never change on a frame. The angle stays the start plus the sum of each applied frame's speed times its delta. |
| Orbit.ElectronOrbit.Update | components/AtomScene.tsx:66-74 | A re-render under the same key replaces radius, speed, offset and tilt. It keeps the angle and the frames, so the new offset has no effect. |
| Orbit.HalfFramesExample | components/AtomScene.tsx:76-78 | Two half frames and one whole frame both move an electron to offset + speed * delta. |
| Orbit.SliderMoveExample | components/AtomScene.tsx:74-78 | A frame t1 at the old speed, a re-render with a new record, then a frame t2, reach offset + s1·t1 + s2·t2. Here offset is the old record's offset. |
| Orbit.ElementSwitchExample | components/AtomScene.tsx:74 | From carbon to oxygen, electron e-1-1 keeps the starting angle π/2 of its carbon record. Oxygen's record for it says π/3. |
| AtomScene.NeutronEstimate | components/AtomScene.tsx:155-158 | Hydrogen gets no neutron. Any other atomic number z gets the integer nearest to 1.2z, halves rounding up. |
| AtomScene.Round | components/AtomScene.tsx:157 | Math.round gives the integer r with r - 0.5 <= x < r + 0.5. |
| AtomScene.NeutronEstimateClosedForm | components/AtomScene.tsx:155-158 | The estimate is 0 for z = 1 and (6z + 2) div 5 otherwise. |
| AtomScene.NeutronsAtLeastProtons | components/AtomScene.tsx:155-158 | From z = 2 on, the estimate is at least z. |
| AtomScene.BuildScene | components/AtomScene.tsx:155-169 | The scene is the nucleus of z protons plus the estimated neutrons, and the allocation of z electrons. |
| AtomScene.SceneComposition | components/AtomScene.tsx:155-169 | For z >= 0: the nucleus has z protons and the estimated neutrons, and min(z, 118) electrons orbit. Up to z = 118, electrons equal protons. |
| AtomScene.GoldScene | components/AtomScene.tsx:155-169 | Gold (79) gets 95 neutrons, 174 nucleons, 79 protons and 79 electrons. |
| AtomScene.HydrogenScene | components/AtomScene.tsx:155-169 | Hydrogen gets no neutron, a single proton and one electron. |
| App.TrimStart | App.tsx:38 | The result is the suffix left after the longest white-space prefix. |
| App.TrimEnd | App.tsx:38 | The result is the prefix left before the longest white-space suffix. |
| App.TrimEmptyIff | App.tsx:38 | A term trims to "" exactly when it is all white space. |
| App.SearchTarget | App.tsx:38-40 | A search loads exactly when the term has a non-white-space character, and it loads the untrimmed term. |
| App.Contains | App.tsx:50-51 | The `includes` scan is true exactly when the substring occurs at some index. |
| App.ThemeColor | App.tsx:49-53 | The colour is purple exactly when the category contains "Noble". It is blue exactly when it contains "Metal" but not "Noble". It is green when neither occurs or no element is loaded. |
| App.SceneAtomicNumber | App.tsx:60 | The result is never 0. It is the element's atomic number when an element is loaded and its number is non-zero, and 6 otherwise. |
| App.FallbackScene | App.tsx:60 | With no usable element the scene is carbon: 6 protons, 7 neutrons, and 6 electrons as 2 + 4. |
| App.RefreshTarget | App.tsx:111 | The result is never empty. It is the element's name when an element with a non-empty name is loaded, and "Carbon" otherwise. |
| App.AppState.constructor | App.tsx:11-15 | The search box starts at "Carbon". No element is loaded, no load is running, there is no error and the speed is 1. |
| App.AppState.BeginLoad | App.tsx:19-20 | Starting a load sets loading and clears the error. It records the requested name and changes nothing else. |
| App.AppState.CompleteLoad | App.tsx:21-29 | Success replaces the element. Failure keeps it and sets the fixed message. Loading ends either way. |
| App.AppState.LoadElement | App.tsx:18-30 | A whole load requests the name once. Success shows the new element with no error. Failure keeps the old element and shows the message. Loading is false after either. |
| App.AppState.Mount | App.tsx:32-34 | Mounting loads "Carbon". |
| App.AppState.SetSearchTerm | App.tsx:76 | Typing replaces the search term and nothing else. |
| App.AppState.HandleSearch | App.tsx:36-41 | A blank term changes nothing. Any other term is loaded as typed, with the load's outcome. |
| App.AppState.Refresh | App.tsx:111 | Refresh loads the current element's name, or "Carbon". |
| App.FailedSearchKeepsElement | App.tsx:18-41 | After mount, a blank search and then a failed search, the element loaded at mount is still shown and the failure message is up. Exactly two fetches were made. |

## Findings

| source | as written | input that shows it | evidently intended | confidence | as-written member | corrected member |
|---|---|---|---|---|---|---|
| components/AtomScene.tsx:13 | `y = 1 - (i / (n - 1)) * 2` divides 0 by 0 when the spiral has one point | n = 1, i = 0: hydrogen's nucleus of 1 proton and 0 neutrons. Its only nucleon gets latitude NaN (Nucleus.WrittenLatitudeSingleNucleon) | a single point gets a finite latitude; the model puts it at the pole, y = 1 | medium, not executed | Nucleus.WrittenLatitude | Nucleus.Latitude |

## Left out

- The trigonometry of the sphere points and the orbits is not modelled: the golden angle, the x and z coordinates, the cube-root nucleus radius and the electron position on its orbit (components/AtomScene.tsx:11, 14-18, 31, 81-86). It is floating-point geometry. A point keeps only its index, its spiral size and its latitude.
- The nucleus rotation of 0.005 and 0.002 per frame (components/AtomScene.tsx:39-44) is not modelled. It is render-loop animation.
- `Math.random()` is not modelled. Its results are the parameter `draw`, and their range [0, 1) is assumed only where it matters, in ElectronShells.AllocationTilts.
- Floating point is not modelled. Radii, speeds, offsets and the 1.2 factor are exact reals, and `Math.PI` is the 16-digit decimal `Pi`. For |Z| < 2^49, which covers every atomic number, double rounding cannot change `Math.round(1.2 Z)`: the exact 1.2 Z is at least 0.1 away from a half, and the double product is off by less than 0.09.
- AtomScene.NeutronEstimateClosedForm: the closed form (6Z + 2) div 5 is proved over exact reals for every integer Z. For |Z| >= 2^49 the double product of the literal 1.2 and Z can land exactly on a half and round the other way (Z = 1971465296322147 gives 2365758355586577 as a double, 2365758355586576 here). Such counts are far beyond any element, and doubles are not modelled.
- Atomic numbers are integers in the model. A non-integer or NaN count or atomic number is not modelled.
- Rendering is not modelled: the canvas, lights, stars, bloom, orbit controls, meshes and materials, the JSX layout of App.tsx, and components/InfoPanel.tsx.
- The overlay toggle `showUI` (App.tsx:16, 128-134) is not modelled. It only hides the UI.
- The speed slider's parsing (App.tsx:99-106) is not modelled. `simulationSpeed` keeps its initial value 1.
- services/geminiService.ts is not part of this model. The fetch is a `FetchOutcome` input, and `console.error` is left out.
- A malformed service response, such as a missing field, is not modelled, because `ElementInfo` always has all its fields.
- Concurrent loads are not modelled. Loads are sequential pairs of BeginLoad and CompleteLoad, so the case where the last response to resolve wins is not captured.
- Orbit.ElectronOrbit: the keyed reconciliation of the electron list (components/AtomScene.tsx:139-141) is not modelled as a whole. Deciding which ids stay mounted, mounting the new ones with their offset and unmounting the rest is React's work. One electron that stays mounted is modelled by Update, and ElementSwitchExample follows one such electron.
- Nucleus.SpherePoints: the modelled loop puts the single point of a one-point spiral (hydrogen) at the pole, y = 1, where line 13 of components/AtomScene.tsx gives NaN (see Findings). Nucleus.SpiralVersusWritten states where the two differ.
- Orbit.ElectronOrbit.Tick: whether the mesh ref is set (`ref.current`) is a parameter of each frame, because React sets it and the model does not.
