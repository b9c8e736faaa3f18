/** Rays and free-space propagation (src/jaxgym/ray.py).

    A ray carries its position (x, y), its slopes (dx, dy), its axial
    position z, its optical path length and the homogeneous coordinate
    `one` of the 5-vector [x, y, dx, dy, one]. The optical elements also
    read and pass on `amplitude`, `wavelength` and the `blocked` flag, so
    those ride along here too. */
module Rays {

  datatype Ray = Ray(
    x: real, y: real,
    dx: real, dy: real,
    z: real,
    pathlength: real,
    one: real,
    amplitude: real,
    wavelength: real,
    blocked: real)
  {
    /** The 5-vector [x, y, dx, dy, one] that transfer matrices act on. */
    function Vec(): (v: seq<real>)
      ensures |v| == 5
      ensures v[0] == x && v[1] == y && v[2] == dx && v[3] == dy && v[4] == one
    {
      [x, y, dx, dy, one]
    }
  }

  /** Paraxial free-space propagation over `distance`. */
  function Propagate(distance: real, r: Ray): (p: Ray)
  {
    r.(x := r.x + r.dx * distance,
       y := r.y + r.dy * distance,
       z := r.z + distance,
       pathlength := r.pathlength + distance)
  }

  /** Propagation along direction cosines. The normalisation
      N = sqrt(1 + dx^2 + dy^2) is given as `n`, characterised by its
      square; only the path length needs it, since L / N = dx / N^2. */
  function PropagateDirCosine(distance: real, r: Ray, n: real): (p: Ray)
    requires n > 0.0 && n * n == 1.0 + r.dx * r.dx + r.dy * r.dy
  {
    r.(x := r.x + (r.dx / n) / n * distance,
       y := r.y + (r.dy / n) / n * distance,
       one := 1.0 * r.one,
       z := r.z * r.one + distance,
       pathlength := r.pathlength + distance * n)
  }

  /** Propagation moves the position along the slopes and advances z and
      the path length by the distance; slopes, the homogeneous coordinate
      and the carried fields are kept. */
  lemma PropagateMoves(distance: real, r: Ray)
    ensures var p := Propagate(distance, r);
      p.dx == r.dx && p.dy == r.dy && p.one == r.one &&
      p.amplitude == r.amplitude && p.wavelength == r.wavelength && p.blocked == r.blocked &&
      p.x - r.x == r.dx * distance && p.y - r.y == r.dy * distance &&
      p.z - r.z == distance && p.pathlength - r.pathlength == distance
  {
  }

  /** Propagating by zero changes nothing. */
  lemma PropagateZero(r: Ray)
    ensures Propagate(0.0, r) == r
  {
  }

  /** Propagating by a and then by b is propagating by a + b. */
  lemma PropagateCompose(a: real, b: real, r: Ray)
    ensures Propagate(b, Propagate(a, r)) == Propagate(a + b, r)
  {
    var p, q := Propagate(b, Propagate(a, r)), Propagate(a + b, r);
    assert r.dx * (a + b) == r.dx * a + r.dx * b;
    assert r.dy * (a + b) == r.dy * a + r.dy * b;
    assert p.x == q.x && p.y == q.y;
    assert p.z == q.z && p.pathlength == q.pathlength;
  }

  /** Propagating forwards and back by the same distance restores the ray. */
  lemma PropagateBack(distance: real, r: Ray)
    ensures Propagate(-distance, Propagate(distance, r)) == r
  {
    PropagateCompose(distance, -distance, r);
    PropagateZero(r);
  }

  /** Direction-cosine propagation keeps the slopes and sets z to
      z * one + distance, so with one == 1 it advances z by exactly the
      distance. With zero slopes it agrees with paraxial propagation. */
  lemma DirCosineAdvancesZ(distance: real, r: Ray, n: real)
    requires n > 0.0 && n * n == 1.0 + r.dx * r.dx + r.dy * r.dy
    ensures var p := PropagateDirCosine(distance, r, n);
      p.dx == r.dx && p.dy == r.dy && p.one == r.one &&
      p.z == r.z * r.one + distance &&
      (r.one == 1.0 ==> p.z - r.z == distance)
  {
  }

  /** Along the axis (zero slopes) direction cosines and paraxial
      propagation coincide: N is then exactly 1. */
  lemma DirCosineOnAxis(distance: real, r: Ray, n: real)
    requires n > 0.0 && n * n == 1.0 + r.dx * r.dx + r.dy * r.dy
    requires r.dx == 0.0 && r.dy == 0.0 && r.one == 1.0
    ensures PropagateDirCosine(distance, r, n) == Propagate(distance, r)
  {
    assert (n - 1.0) * (n + 1.0) == 0.0;
    assert n == 1.0;
  }
}
