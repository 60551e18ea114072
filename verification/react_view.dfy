/**
 The React visualisation (ExoSubmoonVisualization.jsx).

 The scene effect depends on `isPlaying`, `speedMultiplier`, `showOrbits`
 and `viewMode`: each run of it builds a fresh scene, starts all three angles at 0 and captures the
 orbital radii current at that moment. A `Session` is one such run; its
 `Animate` step is the body of the `animate` callback. The angular speeds
 are the fixed constants 0.002, 0.006 and 0.01 (the component never derives
 them from the masses). The parameter effect turns masses and radii into
 the statistics overlay.
 */
module ReactView {
  import opened Geometry
  import opened Orbit
  import opened Stability

  /** Per-frame angle increments at multiplier 1, ordered planet < moon < submoon. */
  const FixedSpeeds: Speeds := Speeds(0.002, 0.006, 0.01)

  /** One run of the scene effect: `playing`, `multiplier` and `radii` are fixed for the run; `angles` and `frame` advance. */
  datatype Session = Session(playing: bool, multiplier: real, radii: Radii, angles: Angles, frame: Frame)

  /** A fresh run of the scene effect: angles at 0 and every mesh where scene construction put it. */
  function Start(playing: bool, multiplier: real, radii: Radii): (s: Session)
    ensures s.playing == playing && s.multiplier == multiplier && s.radii == radii
    ensures s.angles == ZeroAngles && s.frame == InitialFrame
    ensures s.frame.moonRing == Origin && s.frame.submoonRing == Origin
  {
    Session(playing, multiplier, radii, ZeroAngles, InitialFrame)
  }

  /**
   One animation frame. Paused: nothing moves. Playing: each angle gains its
   speed times the multiplier, then planet, moon and submoon (with the two
   rings) are placed in that order from this frame's angles.
   */
  function Animate(m: MathLib, s: Session): (r: Session)
    ensures r.playing == s.playing && r.multiplier == s.multiplier && r.radii == s.radii
    ensures !s.playing ==> r == s
    ensures s.playing ==>
              && r.angles.planet - s.angles.planet == 0.002 * s.multiplier
              && r.angles.moon - s.angles.moon == 0.006 * s.multiplier
              && r.angles.submoon - s.angles.submoon == 0.01 * s.multiplier
    ensures s.playing && s.multiplier > 0.0 ==>
              && s.angles.planet < r.angles.planet
              && s.angles.moon < r.angles.moon
              && s.angles.submoon < r.angles.submoon
              && r.angles.planet - s.angles.planet < r.angles.moon - s.angles.moon
              && r.angles.moon - s.angles.moon < r.angles.submoon - s.angles.submoon
    ensures s.playing ==> r.frame == Layout(m, s.radii, r.angles)
    ensures s.playing ==> r.frame.moonRing == r.frame.planet && r.frame.submoonRing == r.frame.moon
  {
    if !s.playing then s
    else
      var angles := Advance(s.angles, FixedSpeeds, s.multiplier);
      s.(angles := angles, frame := Layout(m, s.radii, angles))
  }

  /** `n` consecutive frames of one session. */
  function Run(m: MathLib, s: Session, n: nat): Session
    decreases n
  {
    if n == 0 then s else Animate(m, Run(m, s, n - 1))
  }

  /** A paused session never moves, however many frames are drawn. */
  lemma {:induction false} PausedRunFrozen(m: MathLib, s: Session, n: nat)
    requires !s.playing
    ensures Run(m, s, n) == s
    decreases n
  {
    if n > 0 {
      PausedRunFrozen(m, s, n - 1);
    }
  }

  /**
   After `n` playing frames each angle has grown by exactly `n` times its
   per-frame increment, and (from the first frame on) the meshes sit where
   `Layout` puts them for those angles.
   */
  lemma {:induction false} PlayingRunClosedForm(m: MathLib, s: Session, n: nat)
    requires s.playing
    ensures Run(m, s, n).playing && Run(m, s, n).multiplier == s.multiplier && Run(m, s, n).radii == s.radii
    ensures Run(m, s, n).angles == Advance(s.angles, FixedSpeeds, (n as real) * s.multiplier)
    ensures n > 0 ==> Run(m, s, n).frame == Layout(m, s.radii, Run(m, s, n).angles)
    decreases n
  {
    if n > 0 {
      PlayingRunClosedForm(m, s, n - 1);
      var prev := Run(m, s, n - 1);
      var k, d := (n - 1) as real, s.multiplier;
      assert Run(m, s, n).angles == Advance(prev.angles, FixedSpeeds, d);
      AdvanceAdds(s.angles, FixedSpeeds, k * d, d);
      OneMoreTime(k, d);
    }
  }

  /** (k + 1)·d = k·d + d. */
  lemma OneMoreTime(k: real, d: real)
    ensures k * d + d == (k + 1.0) * d
  {
  }

  /** The values the parameter effect reads: the three masses and the three radii sliders. */
  datatype Params = Params(masses: Masses, radii: Radii)

  /** The slider minimums keep every mass and radius positive. */
  predicate ValidParams(p: Params) {
    PositiveMasses(p.masses) && p.radii.planet > 0.0
  }

  /** The statistics overlay; `orbitRatio` is kept as the number before it is formatted. */
  datatype Stats = Stats(stability: string, estimatedLifetime: string, tidalForces: string, orbitRatio: real)

  function StabilityWord(t: Tier): string {
    match t
    case High => "High"
    case Medium => "Medium"
    case Low => "Low"
  }

  function LifetimeText(t: Tier): string {
    match t
    case High => "> 100 million years"
    case Medium => "~ 50 million years"
    case Low => "< 10 million years"
  }

  function TidalText(t: Tier): string {
    match t
    case High => "Weak"
    case Medium => "Moderate"
    case Low => "Strong"
  }

  /** The statistics the parameter effect computes. */
  function ComputeStats(p: Params): (r: Stats)
    requires ValidParams(p)
    ensures r.stability == "High" <==> MoonToSubmoon(p.masses) > 5.0 && PlanetToMoon(p.masses) < 60.0
    ensures r.stability == "Medium" <==>
              && !(MoonToSubmoon(p.masses) > 5.0 && PlanetToMoon(p.masses) < 60.0)
              && MoonToSubmoon(p.masses) > 3.0 && PlanetToMoon(p.masses) < 80.0
    ensures r.stability == "Low" <==> !(MoonToSubmoon(p.masses) > 3.0 && PlanetToMoon(p.masses) < 80.0)
    ensures r.stability == "High" ==> r.estimatedLifetime == "> 100 million years" && r.tidalForces == "Weak"
    ensures r.stability == "Medium" ==> r.estimatedLifetime == "~ 50 million years" && r.tidalForces == "Moderate"
    ensures r.stability == "Low" ==> r.estimatedLifetime == "< 10 million years" && r.tidalForces == "Strong"
    ensures r.orbitRatio * p.radii.planet == p.radii.moon
  {
    var t := TierOf(p.masses);
    ClassifyPartition(PlanetToMoon(p.masses), MoonToSubmoon(p.masses));
    Stats(StabilityWord(t), LifetimeText(t), TidalText(t), p.radii.moon / p.radii.planet)
  }

  /**
   The parameter effect: the overlay changes only when the scene exists and
   all three bodies were found in it (`sceneReady`); it then shows exactly
   the computed statistics.
   */
  function ParameterEffect(prev: Stats, sceneReady: bool, p: Params): (r: Stats)
    requires ValidParams(p)
    ensures !sceneReady ==> r == prev
    ensures sceneReady ==> r.stability == StabilityWord(TierOf(p.masses))
    ensures sceneReady ==> r.estimatedLifetime == LifetimeText(TierOf(p.masses))
    ensures sceneReady ==> r.tidalForces == TidalText(TierOf(p.masses))
    ensures sceneReady ==> r.orbitRatio * p.radii.planet == p.radii.moon
  {
    if sceneReady then ComputeStats(p) else prev
  }

  /** A heavier moon relative to its submoon, or a lighter planet relative to its moon, never lowers the overlay's verdict. */
  lemma StatsMonotone(p: Params, q: Params)
    requires ValidParams(p) && ValidParams(q)
    requires PlanetToMoon(q.masses) <= PlanetToMoon(p.masses)
    requires MoonToSubmoon(p.masses) <= MoonToSubmoon(q.masses)
    ensures ComputeStats(p).stability == "High" ==> ComputeStats(q).stability == "High"
    ensures ComputeStats(p).stability != "Low" ==> ComputeStats(q).stability != "Low"
  {
    ClassifyMonotone(PlanetToMoon(p.masses), MoonToSubmoon(p.masses), PlanetToMoon(q.masses), MoonToSubmoon(q.masses));
  }

  // ---------------------------------------------------------------------
  // Pausing (see "Findings" in README.md)
  // ---------------------------------------------------------------------

  /**
   As written: the Pause/Play button sets `isPlaying` to its negation, and
   `isPlaying` is a dependency of the scene effect, so the button tears the
   scene down and starts a fresh run with the radii current at that moment.
   */
  function SetPlayingAsWritten(s: Session, radii: Radii): (r: Session)
    ensures r.playing == !s.playing && r.multiplier == s.multiplier && r.radii == radii
    ensures r.angles == ZeroAngles && r.frame == InitialFrame
  {
    Start(!s.playing, s.multiplier, radii)
  }

  /**
   One frame of play followed by Pause: the paused scene is back at angle 0
   rather than where the frame left it, and every paused frame after that
   shows the moon's orbit ring around the star instead of around the planet.
   */
  lemma PauseResetsOrbit(m: MathLib, n: nat)
    ensures Animate(m, Start(true, 1.0, DefaultRadii)).angles == Angles(0.002, 0.006, 0.01)
    ensures SetPlayingAsWritten(Animate(m, Start(true, 1.0, DefaultRadii)), DefaultRadii).angles
         != Animate(m, Start(true, 1.0, DefaultRadii)).angles
    ensures Run(m, SetPlayingAsWritten(Animate(m, Start(true, 1.0, DefaultRadii)), DefaultRadii), n).frame.moonRing
         != Run(m, SetPlayingAsWritten(Animate(m, Start(true, 1.0, DefaultRadii)), DefaultRadii), n).frame.planet
  {
    var paused := SetPlayingAsWritten(Animate(m, Start(true, 1.0, DefaultRadii)), DefaultRadii);
    PausedRunFrozen(m, paused, n);
  }

  /** Corrected: Pause and Play only flip the flag; the angles and the meshes stay where they are. */
  function TogglePlaying(s: Session): (r: Session)
    ensures r.playing == !s.playing
    ensures r.multiplier == s.multiplier && r.radii == s.radii
    ensures r.angles == s.angles && r.frame == s.frame
  {
    s.(playing := !s.playing)
  }

  /**
   With the corrected toggle, a paused session stays exactly where play left
   it, for any number of frames, and Play resumes from those angles.
   */
  lemma PauseKeepsPosition(m: MathLib, s: Session, n: nat)
    requires s.playing
    ensures Run(m, TogglePlaying(s), n).angles == s.angles
    ensures Run(m, TogglePlaying(s), n).frame == s.frame
    ensures Animate(m, TogglePlaying(Run(m, TogglePlaying(s), n))).angles
         == Advance(s.angles, FixedSpeeds, s.multiplier)
  {
    PausedRunFrozen(m, TogglePlaying(s), n);
  }
}
