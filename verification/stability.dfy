/**
 The heuristic stability rule shared by both visualisations.

 Two mass ratios are compared with fixed strict thresholds in an
 if / else-if chain whose first successful test wins; when neither test
 succeeds the verdict stays at its initial value, Low.
 */
module Stability {

  /** The three verdicts, ordered Low < Medium < High by `Rank`. */
  datatype Tier = Low | Medium | High

  function Rank(t: Tier): nat {
    match t
    case Low => 0
    case Medium => 1
    case High => 2
  }

  /** The ratio band in which a tier's test succeeds; Low is the fallback and admits every pair. */
  predicate Admits(t: Tier, planetToMoon: real, moonToSubmoon: real) {
    match t
    case High => moonToSubmoon > 5.0 && planetToMoon < 60.0
    case Medium => moonToSubmoon > 3.0 && planetToMoon < 80.0
    case Low => true
  }

  /**
   The first-match chain. Because the High band lies inside the Medium band,
   first match coincides with "the highest tier whose band admits the ratios",
   which is what the contract states.
   */
  function Classify(planetToMoon: real, moonToSubmoon: real): (t: Tier)
    ensures Admits(t, planetToMoon, moonToSubmoon)
    ensures forall u :: Admits(u, planetToMoon, moonToSubmoon) ==> Rank(u) <= Rank(t)
  {
    if moonToSubmoon > 5.0 && planetToMoon < 60.0 then High
    else if moonToSubmoon > 3.0 && planetToMoon < 80.0 then Medium
    else Low
  }

  /** Raising the moon/submoon ratio or lowering the planet/moon ratio never lowers the verdict. */
  lemma ClassifyMonotone(planetToMoon: real, moonToSubmoon: real, planetToMoon': real, moonToSubmoon': real)
    requires planetToMoon' <= planetToMoon && moonToSubmoon <= moonToSubmoon'
    ensures Rank(Classify(planetToMoon, moonToSubmoon)) <= Rank(Classify(planetToMoon', moonToSubmoon'))
  {
    var t := Classify(planetToMoon, moonToSubmoon);
    assert Admits(t, planetToMoon', moonToSubmoon');
  }

  /** Exactly one tier results, and the thresholds are strict: 5 and 60 themselves are not High, 3 and 80 not Medium. */
  lemma ClassifyPartition(planetToMoon: real, moonToSubmoon: real)
    ensures Classify(planetToMoon, moonToSubmoon) == High <==> moonToSubmoon > 5.0 && planetToMoon < 60.0
    ensures Classify(planetToMoon, moonToSubmoon) == Medium <==>
              !(moonToSubmoon > 5.0 && planetToMoon < 60.0) && moonToSubmoon > 3.0 && planetToMoon < 80.0
    ensures Classify(planetToMoon, moonToSubmoon) == Low <==>
              !(moonToSubmoon > 3.0 && planetToMoon < 80.0)
    ensures Classify(planetToMoon, 5.0) != High && Classify(60.0, moonToSubmoon) != High
    ensures Classify(planetToMoon, 3.0) == Low && Classify(80.0, moonToSubmoon) == Low
  {
  }

  /** Masses of the three orbiting bodies, in the visualisations' mass units. */
  datatype Masses = Masses(planet: real, moon: real, submoon: real)

  predicate PositiveMasses(ms: Masses) {
    ms.planet > 0.0 && ms.moon > 0.0 && ms.submoon > 0.0
  }

  function PlanetToMoon(ms: Masses): (r: real)
    requires PositiveMasses(ms)
    ensures r > 0.0 && r * ms.moon == ms.planet
  {
    ms.planet / ms.moon
  }

  function MoonToSubmoon(ms: Masses): (r: real)
    requires PositiveMasses(ms)
    ensures r > 0.0 && r * ms.submoon == ms.moon
  {
    ms.moon / ms.submoon
  }

  /** The verdict for three masses, as both visualisations compute it. */
  function TierOf(ms: Masses): Tier
    requires PositiveMasses(ms)
  {
    Classify(PlanetToMoon(ms), MoonToSubmoon(ms))
  }

  /** Stated on masses directly: High exactly when moon > 5·submoon and planet < 60·moon. */
  lemma TierOfMasses(ms: Masses)
    requires PositiveMasses(ms)
    ensures TierOf(ms) == High <==> ms.moon > 5.0 * ms.submoon && ms.planet < 60.0 * ms.moon
    ensures TierOf(ms) != Low <==> ms.moon > 3.0 * ms.submoon && ms.planet < 80.0 * ms.moon
  {
    var p, s := PlanetToMoon(ms), MoonToSubmoon(ms);
    RatioScale(p, ms.moon, ms.planet, 60.0);
    RatioScale(p, ms.moon, ms.planet, 80.0);
    RatioScale(s, ms.submoon, ms.moon, 5.0);
    RatioScale(s, ms.submoon, ms.moon, 3.0);
  }

  /** With r·d = n and d > 0, comparing r with k is comparing n with k·d. */
  lemma RatioScale(r: real, d: real, n: real, k: real)
    requires d > 0.0 && r * d == n
    ensures r < k <==> n < k * d
    ensures r > k <==> n > k * d
  {
    if r < k {
      assert r * d < k * d;
    } else if r > k {
      assert r * d > k * d;
    }
  }
}
