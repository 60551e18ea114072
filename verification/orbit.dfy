/**
 The per-frame orbit kinematics common to both visualisations: three phase
 angles, their angular speeds, and the nested placement of planet, moon and
 submoon (with the rings that trace the moon's and the submoon's orbits).
 */
module Orbit {
  import opened Geometry

  /** Phase angles, in radians, of planet (around the star), moon (around the planet) and submoon (around the moon). */
  datatype Angles = Angles(planet: real, moon: real, submoon: real)

  /** Angle increments per frame. */
  datatype Speeds = Speeds(planet: real, moon: real, submoon: real)

  /** Orbital radii in scene distance units, each around the body's own parent. */
  datatype Radii = Radii(planet: real, moon: real, submoon: real)

  const ZeroAngles: Angles := Angles(0.0, 0.0, 0.0)

  /** The radii both visualisations start with. */
  const DefaultRadii: Radii := Radii(20.0, 3.0, 0.8)

  /** Positions of the three bodies and of the centres of the moon's and submoon's orbit rings. */
  datatype Frame = Frame(planet: Vec, moonRing: Vec, moon: Vec, submoonRing: Vec, submoon: Vec)

  /**
   Where the meshes sit when the scene has just been built: bodies at their
   hard-coded start coordinates, the two orbit rings still at the origin.
   */
  const InitialFrame: Frame :=
    Frame(Vec(20.0, 0.0), Origin, Vec(23.0, 0.0), Origin, Vec(23.8, 0.0))

  /** Every angle moves by its speed times `factor`. */
  function Advance(a: Angles, s: Speeds, factor: real): Angles {
    Angles(a.planet + s.planet * factor, a.moon + s.moon * factor, a.submoon + s.submoon * factor)
  }

  /** Two advances by the same speeds add their factors. */
  lemma AdvanceAdds(a: Angles, s: Speeds, x: real, y: real)
    ensures Advance(Advance(a, s, x), s, y) == Advance(a, s, x + y)
  {
    assert s.planet * x + s.planet * y == s.planet * (x + y);
    assert s.moon * x + s.moon * y == s.moon * (x + y);
    assert s.submoon * x + s.submoon * y == s.submoon * (x + y);
  }

  /**
   The position update of one frame, in the source's order: planet from the
   origin, then the moon ring and the moon from this frame's planet position,
   then the submoon ring and the submoon from this frame's moon position.
   */
  function Layout(m: MathLib, r: Radii, a: Angles): (f: Frame)
    ensures f.planet == Offset(m, r.planet, a.planet)
    ensures f.moonRing == f.planet && f.submoonRing == f.moon
    ensures Sub(f.moon, f.planet) == Offset(m, r.moon, a.moon)
    ensures Sub(f.submoon, f.moon) == Offset(m, r.submoon, a.submoon)
  {
    var planet := Offset(m, r.planet, a.planet);
    var moonRing := planet;
    var moon := Add(planet, Offset(m, r.moon, a.moon));
    var submoonRing := moon;
    var submoon := Add(moon, Offset(m, r.submoon, a.submoon));
    Frame(planet, moonRing, moon, submoonRing, submoon)
  }

  /** The submoon's absolute position is the sum of the three circular offsets. */
  lemma LayoutAbsolute(m: MathLib, r: Radii, a: Angles)
    ensures Layout(m, r, a).submoon
         == Add(Add(Offset(m, r.planet, a.planet), Offset(m, r.moon, a.moon)), Offset(m, r.submoon, a.submoon))
  {
  }

  /**
   Each body lies on the circle of its own radius around its parent's
   position of the same frame; the planet's parent is the star at the origin.
   */
  lemma LayoutDistances(m: MathLib, r: Radii, a: Angles)
    requires UnitCircle(m)
    ensures NormSq(Layout(m, r, a).planet) == r.planet * r.planet
    ensures NormSq(Sub(Layout(m, r, a).moon, Layout(m, r, a).planet)) == r.moon * r.moon
    ensures NormSq(Sub(Layout(m, r, a).submoon, Layout(m, r, a).moon)) == r.submoon * r.submoon
  {
    var f := Layout(m, r, a);
    OffsetOnCircle(m, r.planet, a.planet);
    OffsetOnCircle(m, r.moon, a.moon);
    OffsetOnCircle(m, r.submoon, a.submoon);
    assert Sub(f.moon, f.planet) == Offset(m, r.moon, a.moon);
    assert Sub(f.submoon, f.moon) == Offset(m, r.submoon, a.submoon);
  }

  /** At angle 0 every body sits on the positive x axis, at the sum of the radii out to it. */
  lemma LayoutAtZero(m: MathLib, r: Radii)
    requires m.cos(0.0) == 1.0 && m.sin(0.0) == 0.0
    ensures Layout(m, r, ZeroAngles).planet == Vec(r.planet, 0.0)
    ensures Layout(m, r, ZeroAngles).moon == Vec(r.planet + r.moon, 0.0)
    ensures Layout(m, r, ZeroAngles).submoon == Vec(r.planet + r.moon + r.submoon, 0.0)
  {
  }

  /**
   With cos 0 = 1 and sin 0 = 0, the hard-coded start positions of the three
   bodies are the ones the default radii give at angle 0; the rings are not
   (they wait at the origin until the first position update).
   */
  lemma InitialFrameMatchesLayout(m: MathLib)
    requires m.cos(0.0) == 1.0 && m.sin(0.0) == 0.0
    ensures Layout(m, DefaultRadii, ZeroAngles).planet == InitialFrame.planet
    ensures Layout(m, DefaultRadii, ZeroAngles).moon == InitialFrame.moon
    ensures Layout(m, DefaultRadii, ZeroAngles).submoon == InitialFrame.submoon
    ensures Layout(m, DefaultRadii, ZeroAngles).moonRing != InitialFrame.moonRing
  {
    LayoutAtZero(m, DefaultRadii);
  }
}
