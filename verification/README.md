# Exosubmoon visualisations: stability verdict and orbit step

This project models the computational core of the two exosubmoon
visualisations of the site: the React component
`ExoSubmoonVisualization.jsx` and the plain script `exosubmoon-simulation.js`.
A star sits at the origin; a planet orbits it, a moon orbits the planet and a
submoon orbits the moon, all on circles in one plane. The core has two parts.

- **Stability verdict.** From the masses, the planet/moon ratio and the
  moon/submoon ratio are compared with strict thresholds, first match wins:
  High when moon/submoon > 5 and planet/moon < 60, else Medium when
  moon/submoon > 3 and planet/moon < 80, else Low. Each verdict comes with a
  fixed lifetime text and, in the React component, a tidal-force word
  (in the plain script, a CSS class for the indicator).
- **Orbit step.** Each animation frame adds a per-frame increment to three
  phase angles, then places the planet relative to the star, the moon and
  the moon's orbit ring relative to this frame's planet position, and the
  submoon and the submoon's orbit ring relative to this frame's moon
  position. The React component uses fixed speeds 0.002, 0.006 and 0.01 scaled by
  a speed multiplier and has a paused branch that moves nothing. The
  plain script recomputes the speeds from the masses whenever a mass slider
  moves, and it has no pause.

Modules: `Geometry` (plane vectors and the abstract `cos`, `sin` and `sqrt`),
`Stability` (the shared classifier), `Orbit` (angles, speeds, radii and the
nested layout), `ReactView` and `PlainSimulation` (one per source file).
`cos`, `sin` and `sqrt` are not computed. They are passed in as a
`MathLib` value. The only facts used about them are cos² + sin² = 1
(`UnitCircle`), √x > 0 for x > 0 (`PositiveRoot`) and, for the start
positions, cos 0 = 1 and sin 0 = 0, each stated where it is needed.

In the React component, one run of the scene effect is a `Session`. The
effect depends on `isPlaying`, `speedMultiplier`, `showOrbits` and `viewMode`,
so a change of any of the four (Play/Pause, the speed slider, Hide/Show
Orbits, a view-mode button that switches the mode) rebuilds the scene: the angles restart at 0 and
the meshes go back to their start positions. The `animate` closure also keeps the orbital radii current
when the effect started. Moving a radius slider therefore changes the motion
only at the next rebuild, and `Session.radii` is fixed for the run.

## Model

| member | source | states |
|---|---|---|
| Stability.Classify | ExoSubmoonVisualization.jsx:275-287 | the verdict is the highest tier whose band admits the two ratios (High: m/s > 5 and p/m < 60; Medium: m/s > 3 and p/m < 80; Low: always), which equals the first-match chain because the High band lies inside the Medium band |
| Stability.ClassifyPartition | ExoSubmoonVisualization.jsx:275-287 | High exactly when both strict High conditions hold, Medium exactly when not High and both Medium conditions hold, Low otherwise; a ratio of exactly 5 or 60 is not High, exactly 3 or 80 is Low |
| Stability.ClassifyMonotone | ExoSubmoonVisualization.jsx:279-287 | raising the moon/submoon ratio or lowering the planet/moon ratio never moves the verdict down Low < Medium < High |
| Stability.PlanetToMoon | ExoSubmoonVisualization.jsx:271 | for positive masses the ratio is positive and times the moon mass gives the planet mass |
| Stability.MoonToSubmoon | ExoSubmoonVisualization.jsx:272 | for positive masses the ratio is positive and times the submoon mass gives the moon mass |
| Stability.TierOfMasses | ExoSubmoonVisualization.jsx:271-287 | on the masses themselves: High exactly when moon > 5·submoon and planet < 60·moon; not Low exactly when moon > 3·submoon and planet < 80·moon |
| Geometry.OffsetOnCircle | ExoSubmoonVisualization.jsx:170-171 | a point placed at radius·(cos a, sin a) lies at squared distance radius² from its centre |
| Orbit.AdvanceAdds | ExoSubmoonVisualization.jsx:165-167 | two angle advances with the same speeds equal one advance by the summed factor |
| Orbit.Layout | ExoSubmoonVisualization.jsx:170-187 | the planet sits at its radius-scaled (cos, sin) offset from the origin; moon minus this frame's planet and submoon minus this frame's moon are their own offsets; each ring centre equals its parent body's position |
| Orbit.LayoutAbsolute | ExoSubmoonVisualization.jsx:170-187 | the submoon's absolute position is the sum of the three circular offsets |
| Orbit.LayoutDistances | ExoSubmoonVisualization.jsx:170-187 | planet at distance planetRadius from the star, moon at moonRadius from this frame's planet, submoon at submoonRadius from this frame's moon |
| Orbit.LayoutAtZero | ExoSubmoonVisualization.jsx:170-187 | at angle 0 every body lies on the x axis at the sum of the radii out to it |
| Orbit.InitialFrameMatchesLayout | ExoSubmoonVisualization.jsx:82-104 | the hard-coded start positions (20, 23, 23.8) are the default radii's layout at angle 0, but the moon's ring starts at the origin rather than at the planet |
| ReactView.Start | ExoSubmoonVisualization.jsx:147-149 | a new run of the scene effect keeps the given playing flag, multiplier and radii and starts with all angles 0, meshes at their start positions and both moving rings at the origin |
| ReactView.Animate | ExoSubmoonVisualization.jsx:157-187 | paused: the session is unchanged; playing: each angle grows by exactly its speed × multiplier, all three strictly grow when the multiplier is positive with the submoon gaining most and the planet least, and the meshes are re-laid out from the new angles with rings on their parents |
| ReactView.PausedRunFrozen | ExoSubmoonVisualization.jsx:158-162 | any number of paused frames leaves angles and positions unchanged |
| ReactView.PlayingRunClosedForm | ExoSubmoonVisualization.jsx:164-187 | after n playing frames each angle has grown by n × speed × multiplier and the meshes sit at the layout of those angles |
| ReactView.ComputeStats | ExoSubmoonVisualization.jsx:271-294 | High / "> 100 million years" / "Weak" exactly under the High conditions, Medium / "~ 50 million years" / "Moderate" exactly when not High under the Medium conditions, Low / "< 10 million years" / "Strong" otherwise; the orbit ratio times planetRadius is moonRadius |
| ReactView.ParameterEffect | ExoSubmoonVisualization.jsx:254-296 | the overlay keeps its previous statistics unless the scene exists and all three bodies are found; then it shows the verdict, lifetime and tidal word of the masses' tier and the orbit ratio moonRadius / planetRadius |
| ReactView.StatsMonotone | ExoSubmoonVisualization.jsx:279-287 | a larger moon/submoon ratio or a smaller planet/moon ratio never turns a High overlay into a lower one, nor a non-Low one into Low |
| ReactView.SetPlayingAsWritten | ExoSubmoonVisualization.jsx:251 | as written, pressing Pause or Play flips the flag and starts a fresh session: angles 0 and meshes at their start positions |
| ReactView.PauseResetsOrbit | ExoSubmoonVisualization.jsx:147-251 | one playing frame at multiplier 1 then Pause: the angles fall back from (0.002, 0.006, 0.01) to 0, and in every later paused frame the moon's ring is not centred on the planet |
| ReactView.TogglePlaying | ExoSubmoonVisualization.jsx:158-162 | corrected pause toggle: flips the flag and keeps angles, positions, multiplier and radii |
| ReactView.PauseKeepsPosition | ExoSubmoonVisualization.jsx:158-167 | with the corrected toggle, paused frames keep the angles and positions where play left them, and Play resumes from those angles |
| PlainSimulation.UpdateStabilityInfo | exosubmoon-simulation.js:183-208 | High / "> 100 million years" / "high" exactly under the High conditions, Medium / "~ 50 million years" / "medium" exactly when not High under the Medium conditions, Low / "< 10 million years" / "low" otherwise; the class is the lower-cased word; the printed ratios are the two mass ratios |
| PlainSimulation.IndicatorIsLowerWord | exosubmoon-simulation.js:187-199 | for every tier the indicator class is the stability word lower-cased letter by letter |
| PlainSimulation.AgreesWithReact | exosubmoon-simulation.js:191-199 | for the same masses the script's stability word and lifetime text equal the React overlay's |
| PlainSimulation.SpeedsFor | exosubmoon-simulation.js:233-235 | the three speeds 0.002·√(1/planet), 0.006·√(planet/moon), 0.01·√(moon/submoon) are positive for positive masses |
| PlainSimulation.UpdateOrbitalParameters | exosubmoon-simulation.js:226-239 | speeds are recomputed and the panel shows the masses' verdict; masses, radii, angles and positions are untouched, and the state becomes consistent |
| PlainSimulation.Init | exosubmoon-simulation.js:241-245 | before the first frame: default masses 28, 0.5, 0.05, angles 0, start positions, speeds and panel derived from the masses (the placeholder speeds are overwritten), verdict High |
| PlainSimulation.OnSliderInput | exosubmoon-simulation.js:211-224 | a slider sets only its own mass; radii, angles and positions are unchanged; speeds and panel are recomputed from the new masses; consistency is preserved |
| PlainSimulation.Animate | exosubmoon-simulation.js:248-274 | every frame adds the current speeds to the angles unconditionally (strictly growing in a consistent state), lays out the meshes from the new angles, and preserves consistency |
| PlainSimulation.RunClosedForm | exosubmoon-simulation.js:251-274 | after n frames without slider events each angle has grown by n × its speed and the meshes sit at the layout of those angles |
| PlainSimulation.AnimateComposition | exosubmoon-simulation.js:257-274 | with the fixed radii 20, 3 and 0.8 (which no handler reassigns), after a frame the planet is at distance 20 from the star, the moon at 3 from this frame's planet, the submoon at 0.8 from this frame's moon, and each ring is centred on its parent |

## Left out

- Three.js scene construction, meshes, materials, lights, the camera, view modes, orbit visibility and `OrbitControls`: rendering through a library that is not part of this model.
- Mesh scaling by mass (ExoSubmoonVisualization.jsx:266-268, exosubmoon-simulation.js:228-230): visual only.
- React hooks, effect scheduling, `requestAnimationFrame`, resize listeners, DOM and stylesheet injection: UI lifecycle. Each scene-effect run is a fresh `Session`. The scene-graph lookup of bodies by material colour becomes the `sceneReady` flag of `ReactView.ParameterEffect`.
- `toFixed` and `innerHTML` formatting: the orbit ratio and the two printed mass ratios are kept as numbers.
- The React component's initial statistics state (ExoSubmoonVisualization.jsx:26-31) is not modelled: the parameter effect replaces it as soon as the scene exists.
- A `Session` ends on a change of any of the scene effect's four dependencies (ExoSubmoonVisualization.jsx:251). The Hide/Show Orbits button and a view-mode button that switches the mode therefore end a session exactly as Pause does; pressing the button of the mode already selected leaves `viewMode` unchanged and does not; the next session is a fresh `ReactView.Start`. Orbit visibility and camera placement themselves are not modelled.
- Stability.TierOfMasses: holds in exact real arithmetic only. At masses on a threshold, the program's double-precision division can land on the other side. For masses (66, 1.1, 0.2) the program computes 66/1.1 = 59.99999999999999 < 60 and shows High, while the model has 66/1.1 = 60 exactly and gives Medium. The same holds for (50, 4.7, 0.94), where the program shows High and the model gives Medium, and for (50, 2.1, 0.7), where the program shows Medium and the model gives Low. The ClassifyPartition statements about ratios are exact; only the step from masses to ratios differs.
- PlainSimulation.Init: assumes the page has all three mass sliders. Lines 132-134 of exosubmoon-simulation.js look them up with `getElementById`, and lines 211-221 attach listeners without a null check. If one is missing, initialisation throws before `updateOrbitalParameters()` (line 245) and `animate()` (line 289) run, so the panel keeps its start-up text and nothing moves. That failure path is not modelled.
- Floating point: all quantities are `real`. `Math.cos`, `Math.sin` and `Math.sqrt` are abstract functions with only the properties stated above.
- Zero or negative masses: the React sliders have positive minimums, so ratios are defined only for positive masses. The script's slider bounds live in its HTML page, which is not part of this model, and so do `parseFloat` results such as NaN.
- The y coordinate: every body stays at y = 0, so positions are (x, z) pairs.
- PlainSimulation.Animate: does not claim the submoon gains the most per frame, because in this script the speeds depend on the masses and their order is not fixed.
- ResearchShowcase.jsx and modal-fix.js: static markup and modal wiring with no logic.

## Findings

| source | as written | input that shows it | evidently intended | confidence | as-written member | corrected member |
|---|---|---|---|---|---|---|
| ExoSubmoonVisualization.jsx:251 | `isPlaying` is a dependency of the scene effect, so Pause tears down and rebuilds the scene. The angles restart at 0, the bodies jump back to their start positions and the moon's and submoon's orbit rings sit at the star while paused. The speed multiplier slider, the Hide/Show Orbits button and a view-mode button for a different mode (ExoSubmoonVisualization.jsx:435, 461) reset the orbit the same way, since `speedMultiplier`, `showOrbits` and `viewMode` are in the same dependency list. | play one frame at multiplier 1 (angles 0.002, 0.006, 0.01), then press Pause: angles 0, moon ring at the origin, not at the planet | Pause freezes the bodies where they are and Play resumes from there | medium; not executed | ReactView.SetPlayingAsWritten, shown by ReactView.PauseResetsOrbit | ReactView.TogglePlaying, proved by ReactView.PauseKeepsPosition |
