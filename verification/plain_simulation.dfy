/**
 The plain-script visualisation (exosubmoon-simulation.js).

 Everything lives in the closure of `initEnhancedSimulation`: three masses
 that sliders change, three orbital radii that nothing changes, three
 angular speeds recomputed from the masses, three angles, the mesh
 positions and the stability panel. A `Sim` value is that closure state.
 There is no pause: every frame advances the angles by the current speeds.
 */
module PlainSimulation {
  import opened Geometry
  import opened Orbit
  import opened Stability
  import ReactView

  /** The stability panel: verdict word, lifetime text, CSS class of the indicator and the two ratios it prints. */
  datatype Info = Info(stability: string, lifetime: string, indicatorClass: string, planetToMoon: real, moonToSubmoon: real)

  function StabilityWord(t: Tier): string {
    match t
    case High => "High"
    case Medium => "Medium"
    case Low => "Low"
  }

  function LifetimeText(t: Tier): string {
    match t
    case High => "> 100 million years"
    case Medium => "~ 50 million years"
    case Low => "< 10 million years"
  }

  function IndicatorClass(t: Tier): string {
    match t
    case High => "high"
    case Medium => "medium"
    case Low => "low"
  }

  /** ASCII lower-casing, letter by letter. */
  function LowerChar(c: char): char {
    if 'A' <= c <= 'Z' then (c as int + 32) as char else c
  }

  function Lower(s: string): string {
    seq(|s|, i requires 0 <= i < |s| => LowerChar(s[i]))
  }

  /** The indicator's CSS class is the verdict word in lower case, for every tier. */
  lemma IndicatorIsLowerWord(t: Tier)
    ensures IndicatorClass(t) == Lower(StabilityWord(t))
  {
    var w := StabilityWord(t);
    assert forall i :: 0 <= i < |w| ==> Lower(w)[i] == IndicatorClass(t)[i];
  }

  /** `updateStabilityInfo`: the panel for the current masses. */
  function UpdateStabilityInfo(ms: Masses): (r: Info)
    requires PositiveMasses(ms)
    ensures r.stability == "High" <==> MoonToSubmoon(ms) > 5.0 && PlanetToMoon(ms) < 60.0
    ensures r.stability == "Medium" <==>
              && !(MoonToSubmoon(ms) > 5.0 && PlanetToMoon(ms) < 60.0)
              && MoonToSubmoon(ms) > 3.0 && PlanetToMoon(ms) < 80.0
    ensures r.stability == "Low" <==> !(MoonToSubmoon(ms) > 3.0 && PlanetToMoon(ms) < 80.0)
    ensures r.stability == "High" ==> r.lifetime == "> 100 million years" && r.indicatorClass == "high"
    ensures r.stability == "Medium" ==> r.lifetime == "~ 50 million years" && r.indicatorClass == "medium"
    ensures r.stability == "Low" ==> r.lifetime == "< 10 million years" && r.indicatorClass == "low"
    ensures r.indicatorClass == Lower(r.stability)
    ensures r.planetToMoon * ms.moon == ms.planet && r.moonToSubmoon * ms.submoon == ms.moon
  {
    var t := TierOf(ms);
    ClassifyPartition(PlanetToMoon(ms), MoonToSubmoon(ms));
    IndicatorIsLowerWord(t);
    Info(StabilityWord(t), LifetimeText(t), IndicatorClass(t), PlanetToMoon(ms), MoonToSubmoon(ms))
  }

  /** For the same masses this panel shows the React overlay's verdict word and lifetime text. */
  lemma AgreesWithReact(ms: Masses, radii: Radii)
    requires PositiveMasses(ms) && radii.planet > 0.0
    ensures UpdateStabilityInfo(ms).stability == ReactView.ComputeStats(ReactView.Params(ms, radii)).stability
    ensures UpdateStabilityInfo(ms).lifetime == ReactView.ComputeStats(ReactView.Params(ms, radii)).estimatedLifetime
  {
  }

  /** The speed formulas of `updateOrbitalParameters`: each speed is positive and depends on the masses alone. */
  function SpeedsFor(m: MathLib, ms: Masses): (s: Speeds)
    requires PositiveMasses(ms) && PositiveRoot(m)
    ensures s.planet > 0.0 && s.moon > 0.0 && s.submoon > 0.0
  {
    assert 1.0 / ms.planet > 0.0 && PlanetToMoon(ms) > 0.0 && MoonToSubmoon(ms) > 0.0;
    Speeds(0.002 * m.sqrt(1.0 / ms.planet), 0.006 * m.sqrt(ms.planet / ms.moon), 0.01 * m.sqrt(ms.moon / ms.submoon))
  }

  /** The closure state of `initEnhancedSimulation`. */
  datatype Sim = Sim(masses: Masses, radii: Radii, speeds: Speeds, angles: Angles, frame: Frame, info: Info)

  /** What every event handler leaves behind: positive masses, the fixed radii, and speeds and panel derived from the masses. */
  ghost predicate Consistent(m: MathLib, s: Sim) {
    && PositiveMasses(s.masses)
    && PositiveRoot(m)
    && s.radii == DefaultRadii
    && s.speeds == SpeedsFor(m, s.masses)
    && s.info == UpdateStabilityInfo(s.masses)
  }

  const DefaultMasses: Masses := Masses(28.0, 0.5, 0.05)

  /** `updateOrbitalParameters`: speeds first, then the stability panel; nothing else changes. */
  function UpdateOrbitalParameters(m: MathLib, s: Sim): (r: Sim)
    requires PositiveMasses(s.masses) && PositiveRoot(m)
    ensures r.masses == s.masses && r.radii == s.radii && r.angles == s.angles && r.frame == s.frame
    ensures r.speeds.planet > 0.0 && r.speeds.moon > 0.0 && r.speeds.submoon > 0.0
    ensures r.info.stability == StabilityWord(TierOf(s.masses))
    ensures s.radii == DefaultRadii ==> Consistent(m, r)
  {
    var speeds := SpeedsFor(m, s.masses);
    s.(speeds := speeds, info := UpdateStabilityInfo(s.masses))
  }

  /**
   The state just before the first frame: default masses and radii, angles at
   0, meshes at their start positions; the placeholder speeds 0.002, 0.006 and
   0.01 are overwritten at once by the mass-derived ones.
   */
  function Init(m: MathLib): (s: Sim)
    requires PositiveRoot(m)
    ensures Consistent(m, s)
    ensures s.masses == DefaultMasses && s.angles == ZeroAngles && s.frame == InitialFrame
    ensures s.info.stability == "High"
  {
    // the panel written at start-up shows no ratios; its two ratio fields here are placeholders
    var placeholder := Info("High", ">100 million years", "high", 0.0, 0.0);
    TierOfMasses(DefaultMasses);
    UpdateOrbitalParameters(m, Sim(DefaultMasses, DefaultRadii, Speeds(0.002, 0.006, 0.01), ZeroAngles, InitialFrame, placeholder))
  }

  /** The three mass sliders. */
  datatype Slider = PlanetMassSlider | MoonMassSlider | SubmoonMassSlider

  /** A slider's `input` handler: set its own mass, then rerun `updateOrbitalParameters`. */
  function OnSliderInput(m: MathLib, s: Sim, slider: Slider, value: real): (r: Sim)
    requires PositiveMasses(s.masses) && PositiveRoot(m) && value > 0.0
    ensures slider == PlanetMassSlider ==> r.masses == Masses(value, s.masses.moon, s.masses.submoon)
    ensures slider == MoonMassSlider ==> r.masses == Masses(s.masses.planet, value, s.masses.submoon)
    ensures slider == SubmoonMassSlider ==> r.masses == Masses(s.masses.planet, s.masses.moon, value)
    ensures r.radii == s.radii && r.angles == s.angles && r.frame == s.frame
    ensures r.speeds == SpeedsFor(m, r.masses) && r.info == UpdateStabilityInfo(r.masses)
    ensures Consistent(m, s) ==> Consistent(m, r)
  {
    var masses := match slider
      case PlanetMassSlider => s.masses.(planet := value)
      case MoonMassSlider => s.masses.(moon := value)
      case SubmoonMassSlider => s.masses.(submoon := value);
    UpdateOrbitalParameters(m, s.(masses := masses))
  }

  /**
   One frame of `animate`: every angle gains its current speed, unconditionally,
   then the planet, the moon (with its ring) and the submoon (with its ring)
   are placed in that order from this frame's angles.
   */
  function Animate(m: MathLib, s: Sim): (r: Sim)
    ensures r.masses == s.masses && r.radii == s.radii && r.speeds == s.speeds && r.info == s.info
    ensures r.angles.planet - s.angles.planet == s.speeds.planet
    ensures r.angles.moon - s.angles.moon == s.speeds.moon
    ensures r.angles.submoon - s.angles.submoon == s.speeds.submoon
    ensures r.frame == Layout(m, s.radii, r.angles)
    ensures Consistent(m, s) ==> Consistent(m, r)
    ensures Consistent(m, s) ==>
              s.angles.planet < r.angles.planet && s.angles.moon < r.angles.moon && s.angles.submoon < r.angles.submoon
  {
    var angles := Angles(s.angles.planet + s.speeds.planet, s.angles.moon + s.speeds.moon, s.angles.submoon + s.speeds.submoon);
    s.(angles := angles, frame := Layout(m, s.radii, angles))
  }

  /** `n` consecutive frames with no slider event in between. */
  function Run(m: MathLib, s: Sim, n: nat): Sim
    decreases n
  {
    if n == 0 then s else Animate(m, Run(m, s, n - 1))
  }

  /** After `n` frames each angle has grown by exactly `n` times its speed, and the meshes sit where `Layout` puts them. */
  lemma {:induction false} RunClosedForm(m: MathLib, s: Sim, n: nat)
    ensures Run(m, s, n).speeds == s.speeds && Run(m, s, n).radii == s.radii
    ensures Run(m, s, n).angles == Advance(s.angles, s.speeds, n as real)
    ensures n > 0 ==> Run(m, s, n).frame == Layout(m, s.radii, Run(m, s, n).angles)
    decreases n
  {
    if n > 0 {
      RunClosedForm(m, s, n - 1);
      AdvanceAdds(s.angles, s.speeds, (n - 1) as real, 1.0);
      assert Advance(Run(m, s, n - 1).angles, s.speeds, 1.0) == Run(m, s, n).angles;
    }
  }

  /**
   The drawn frame composes the orbits: the planet at distance 20 from the
   star, the moon at distance 3 from this frame's planet, the submoon at 0.8
   from this frame's moon, and each ring centred on its parent body.
   */
  lemma AnimateComposition(m: MathLib, s: Sim)
    requires s.radii == DefaultRadii && UnitCircle(m)
    ensures NormSq(Animate(m, s).frame.planet) == 400.0
    ensures NormSq(Sub(Animate(m, s).frame.moon, Animate(m, s).frame.planet)) == 9.0
    ensures NormSq(Sub(Animate(m, s).frame.submoon, Animate(m, s).frame.moon)) == 0.64
    ensures Animate(m, s).frame.moonRing == Animate(m, s).frame.planet
    ensures Animate(m, s).frame.submoonRing == Animate(m, s).frame.moon
  {
    LayoutDistances(m, s.radii, Animate(m, s).angles);
  }
}
