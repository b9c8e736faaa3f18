/** Optical elements (src/jaxgym/components.py).

    The elements form one closed variant; `Step` is the shared capability
    that builds a new ray from the old one. Every step keeps z (except
    ThickLens), amplitude, wavelength and the homogeneous coordinate. */
module Components {
  import opened Rays
  import opened Transfer

  /** The eight linear descan-error coefficients, in the order the
      Descanner unpacks them. */
  datatype DescanError = DescanError(
    xx: real, xy: real, yx: real, yy: real,
    dxx: real, dxy: real, dyx: real, dyy: real)

  /** One deflector: its plane and the slope kick it gives. */
  datatype Deflection = Deflection(z: real, defX: real, defY: real)

  /** The static geometry of a pixel grid (scan grid or detector). */
  datatype Grid = Grid(
    rotationDeg: real,
    stepY: real, stepX: real,
    shapeY: nat, shapeX: nat,
    centreY: real, centreX: real)

  /** The rotator's angle enters only through its cosine and sine, which
      are stored here; the rotation by a degree angle itself is not modelled. */
  datatype Element =
    | Lens(z: real, focalLength: real)
    | ThickLens(zPo: real, zPi: real, focalLength: real)
    | Descanner(z: real, descanError: DescanError, offsetX: real, offsetY: real)
    | Deflector(deflection: Deflection)
    | Rotator(z: real, cosAngle: real, sinAngle: real)
    | DoubleDeflector(z: real, first: Deflection, second: Deflection)
    | InputPlane(z: real)
    | PointSource(z: real, semiConv: real)
    | ScanGrid(z: real, scanGrid: Grid)
    | Aperture(z: real, radius: real, cx: real, cy: real)
    | Detector(z: real, detGrid: Grid, flipY: bool)
  {
    /** The element's axial position; a thick lens sits at its object-side
        principal plane. */
    function Z(): real
    {
      match this
      case ThickLens(zPo, _, _) => zPo
      case Deflector(d) => d.z
      case _ => this.z
    }

    /** Lenses divide by their focal length. */
    predicate Valid()
    {
      (Lens? || ThickLens?) ==> focalLength != 0.0
    }
  }

  function LensStep(f: real, r: Ray): Ray
    requires f != 0.0
  {
    r.(dx := -r.x / f + r.dx,
       dy := -r.y / f + r.dy,
       pathlength := r.pathlength - (r.x * r.x + r.y * r.y) / (2.0 * f))
  }

  function DeflectorStep(d: Deflection, r: Ray): Ray
  {
    r.(dx := r.dx + d.defX,
       dy := r.dy + d.defY,
       pathlength := r.pathlength + r.dx * r.x + r.dy * r.y)
  }

  /** The aperture's test distance > radius, on squared distances: a
      negative radius is exceeded by every distance. */
  predicate OutsideAperture(radius: real, cx: real, cy: real, r: Ray)
  {
    radius < 0.0 || (r.x - cx) * (r.x - cx) + (r.y - cy) * (r.y - cy) > radius * radius
  }

  function Step(e: Element, r: Ray): Ray
    requires e.Valid()
  {
    match e
    case Lens(_, f) => LensStep(f, r)
    case ThickLens(zPo, zPi, f) => LensStep(f, r).(z := r.z - (zPo - zPi))
    case Descanner(_, err, ox, oy) =>
      r.(x := r.x * (1.0 + err.xx) + err.xy * r.y + ox,
         y := r.y * (1.0 + err.yy) + err.yx * r.x + oy,
         dx := r.dx + r.x * err.dxx + r.y * err.dxy,
         dy := r.dy + r.y * err.dyy + r.x * err.dyx,
         pathlength := r.pathlength - ox * r.x - oy * r.y)
    case Deflector(d) => DeflectorStep(d, r)
    case Rotator(_, c, s) =>
      r.(x := r.x * c - r.y * s,
         y := r.x * s + r.y * c,
         dx := r.dx * c - r.dy * s,
         dy := r.dx * s + r.dy * c)
    case DoubleDeflector(_, first, second) =>
      DeflectorStep(second, Propagate(second.z - first.z, DeflectorStep(first, r)))
    case Aperture(_, radius, cx, cy) =>
      r.(blocked := if OutsideAperture(radius, cx, cy, r) then 1.0 else r.blocked)
    case InputPlane(_) => r
    case PointSource(_, _) => r
    case ScanGrid(_, _) => r
    case Detector(_, _, _) => r
  }

  /** The element's transfer matrix: the homogeneous affine map of its step
      on [x, y, dx, dy, 1], so state_out = M * state_in. Constant terms
      such as the descanner's offsets sit in the last column. */
  function TransferMatrix(e: Element): Mat5
    requires e.Valid()
  {
    match e
    case Lens(_, f) => LensMatrix(f)
    case ThickLens(_, _, f) => LensMatrix(f)
    case Descanner(_, err, ox, oy) =>
      [[1.0 + err.xx, err.xy, 0.0, 0.0, ox],
       [err.yx, 1.0 + err.yy, 0.0, 0.0, oy],
       [err.dxx, err.dxy, 1.0, 0.0, 0.0],
       [err.dyx, err.dyy, 0.0, 1.0, 0.0],
       [0.0, 0.0, 0.0, 0.0, 1.0]]
    case Deflector(d) =>
      [[1.0, 0.0, 0.0, 0.0, 0.0],
       [0.0, 1.0, 0.0, 0.0, 0.0],
       [0.0, 0.0, 1.0, 0.0, d.defX],
       [0.0, 0.0, 0.0, 1.0, d.defY],
       [0.0, 0.0, 0.0, 0.0, 1.0]]
    case Rotator(_, c, s) =>
      [[c, -s, 0.0, 0.0, 0.0],
       [s, c, 0.0, 0.0, 0.0],
       [0.0, 0.0, c, -s, 0.0],
       [0.0, 0.0, s, c, 0.0],
       [0.0, 0.0, 0.0, 0.0, 1.0]]
    case DoubleDeflector(_, d1, d2) =>
      var l := d2.z - d1.z;
      [[1.0, 0.0, l, 0.0, l * d1.defX],
       [0.0, 1.0, 0.0, l, l * d1.defY],
       [0.0, 0.0, 1.0, 0.0, d1.defX + d2.defX],
       [0.0, 0.0, 0.0, 1.0, d1.defY + d2.defY],
       [0.0, 0.0, 0.0, 0.0, 1.0]]
    case _ => Identity()
  }

  function LensMatrix(f: real): Mat5
    requires f != 0.0
  {
    [[1.0, 0.0, 0.0, 0.0, 0.0],
     [0.0, 1.0, 0.0, 0.0, 0.0],
     [-1.0 / f, 0.0, 1.0, 0.0, 0.0],
     [0.0, -1.0 / f, 0.0, 1.0, 0.0],
     [0.0, 0.0, 0.0, 0.0, 1.0]]
  }

  /** Every element acts on the ray vector exactly as its transfer matrix:
      the affine first-order model is exact for each closed-form step. */
  lemma StepIsAffine(e: Element, r: Ray)
    requires e.Valid() && r.one == 1.0
    ensures Step(e, r).Vec() == MatVec(TransferMatrix(e), r.Vec())
  {
    match e
    case Lens(_, f) => LensIsAffine(f, r);
    case ThickLens(_, _, f) => LensIsAffine(f, r);
    case Descanner(z, err, ox, oy) => DescannerIsAffine(z, err, ox, oy, r);
    case Deflector(d) => DeflectorIsAffine(d, r);
    case Rotator(z, c, s) => RotatorIsAffine(z, c, s, r);
    case DoubleDeflector(z, d1, d2) => DoubleDeflectorIsAffine(z, d1, d2, r);
    case Aperture(_, _, _, _) => IdentityFixes(r.Vec());
    case InputPlane(_) => IdentityFixes(r.Vec());
    case PointSource(_, _) => IdentityFixes(r.Vec());
    case ScanGrid(_, _) => IdentityFixes(r.Vec());
    case Detector(_, _, _) => IdentityFixes(r.Vec());
  }

  lemma LensIsAffine(f: real, r: Ray)
    requires f != 0.0 && r.one == 1.0
    ensures LensStep(f, r).Vec() == MatVec(LensMatrix(f), r.Vec())
  {
    var v, w, m := r.Vec(), LensStep(f, r).Vec(), LensMatrix(f);
    var u := MatVec(m, v);
    assert -r.x / f == (-1.0 / f) * r.x;
    assert -r.y / f == (-1.0 / f) * r.y;
    assert w[2] == u[2];
    assert w[3] == u[3];
    RowEq(w, u);
  }

  lemma DescannerIsAffine(z: real, err: DescanError, ox: real, oy: real, r: Ray)
    requires r.one == 1.0
    ensures var e := Descanner(z, err, ox, oy);
      Step(e, r).Vec() == MatVec(TransferMatrix(e), r.Vec())
  {
    var e := Descanner(z, err, ox, oy);
    var v, w := r.Vec(), Step(e, r).Vec();
    var u := MatVec(TransferMatrix(e), v);
    assert w[0] == u[0];
    assert w[1] == u[1];
    assert w[2] == u[2];
    assert w[3] == u[3];
    RowEq(w, u);
  }

  lemma DeflectorIsAffine(d: Deflection, r: Ray)
    requires r.one == 1.0
    ensures Step(Deflector(d), r).Vec() == MatVec(TransferMatrix(Deflector(d)), r.Vec())
  {
    var v, w := r.Vec(), Step(Deflector(d), r).Vec();
    var u := MatVec(TransferMatrix(Deflector(d)), v);
    assert w[2] == u[2];
    assert w[3] == u[3];
    RowEq(w, u);
  }

  lemma RotatorIsAffine(z: real, c: real, s: real, r: Ray)
    requires r.one == 1.0
    ensures Step(Rotator(z, c, s), r).Vec() == MatVec(TransferMatrix(Rotator(z, c, s)), r.Vec())
  {
    var e := Rotator(z, c, s);
    var v, w := r.Vec(), Step(e, r).Vec();
    var u := MatVec(TransferMatrix(e), v);
    assert w[0] == u[0];
    assert w[1] == u[1];
    assert w[2] == u[2];
    assert w[3] == u[3];
    RowEq(w, u);
  }

  /** The double deflector (kick, drift, kick) acts as its matrix. */
  lemma DoubleDeflectorIsAffine(z: real, d1: Deflection, d2: Deflection, r: Ray)
    requires r.one == 1.0
    ensures var e := DoubleDeflector(z, d1, d2);
      Step(e, r).Vec() == MatVec(TransferMatrix(e), r.Vec())
  {
    var e := DoubleDeflector(z, d1, d2);
    var v, w := r.Vec(), Step(e, r).Vec();
    var u := MatVec(TransferMatrix(e), v);
    var l := d2.z - d1.z;
    assert w[0] == r.x + (r.dx + d1.defX) * l;
    assert (r.dx + d1.defX) * l == l * r.dx + l * d1.defX;
    assert w[0] == u[0];
    assert w[1] == r.y + (r.dy + d1.defY) * l;
    assert (r.dy + d1.defY) * l == l * r.dy + l * d1.defY;
    assert w[1] == u[1];
    assert w[2] == u[2];
    assert w[3] == u[3];
    RowEq(w, u);
  }

  /** The double deflector's matrix is the product of the second kick, the
      drift between the two deflector planes and the first kick. */
  lemma DoubleDeflectorIsProduct(z: real, d1: Deflection, d2: Deflection)
    ensures TransferMatrix(DoubleDeflector(z, d1, d2))
         == MatMul(TransferMatrix(Deflector(d2)), MatMul(Drift(d2.z - d1.z), TransferMatrix(Deflector(d1))))
  {
    var l := d2.z - d1.z;
    var kick1 := TransferMatrix(Deflector(d1));
    var drifted: Mat5 :=
      [[1.0, 0.0, l, 0.0, l * d1.defX],
       [0.0, 1.0, 0.0, l, l * d1.defY],
       [0.0, 0.0, 1.0, 0.0, d1.defX],
       [0.0, 0.0, 0.0, 1.0, d1.defY],
       [0.0, 0.0, 0.0, 0.0, 1.0]];
    var m := MatMul(Drift(l), kick1);
    RowEq(m[0], drifted[0]);
    RowEq(m[1], drifted[1]);
    RowEq(m[2], drifted[2]);
    RowEq(m[3], drifted[3]);
    RowEq(m[4], drifted[4]);
    var p := MatMul(TransferMatrix(Deflector(d2)), drifted);
    var j := TransferMatrix(DoubleDeflector(z, d1, d2));
    RowEq(p[0], j[0]);
    RowEq(p[1], j[1]);
    RowEq(p[2], j[2]);
    RowEq(p[3], j[3]);
    RowEq(p[4], j[4]);
  }

  /** A lens keeps position, z and the blocked flag; an on-axis ray passes
      with unchanged slopes and path length. */
  lemma LensOnAxis(z: real, f: real, r: Ray)
    requires f != 0.0
    ensures var s := Step(Lens(z, f), r);
      s.x == r.x && s.y == r.y && s.z == r.z && s.blocked == r.blocked &&
      (r.x == 0.0 && r.y == 0.0 ==> s.dx == r.dx && s.dy == r.dy && s.pathlength == r.pathlength)
  {
  }

  /** A ray parallel to the axis crosses the axis one focal length after
      the lens. */
  lemma LensFocusesParallelRays(z: real, f: real, r: Ray)
    requires f != 0.0 && r.dx == 0.0 && r.dy == 0.0
    ensures var s := Propagate(f, Step(Lens(z, f), r));
      s.x == 0.0 && s.y == 0.0
  {
    assert (-r.x / f) * f == -r.x;
    assert (-r.y / f) * f == -r.y;
  }

  /** Thin-lens imaging: with 1/u + 1/v == 1/f (written f * (u + v) == u * v),
      every ray leaving the axis u before the lens returns to the axis v
      after it, whatever its slopes. */
  lemma LensImagesAxialPoint(z: real, f: real, u: real, v: real, r: Ray)
    requires f != 0.0 && f * (u + v) == u * v
    requires r.x == 0.0 && r.y == 0.0
    ensures var s := Propagate(v, Step(Lens(z, f), Propagate(u, r)));
      s.x == 0.0 && s.y == 0.0
  {
    ThinLensEquation(f, u, v);
    ImagedX(f, u, v, r);
    ImagedY(f, u, v, r);
  }

  lemma ThinLensEquation(f: real, u: real, v: real)
    requires f != 0.0 && f * (u + v) == u * v
    ensures u * v / f == u + v
  {
    assert u * v / f == f * (u + v) / f;
  }

  lemma ImagedX(f: real, u: real, v: real, r: Ray)
    requires f != 0.0 && u * v / f == u + v && r.x == 0.0
    ensures Propagate(v, LensStep(f, Propagate(u, r))).x == 0.0
  {
    var a := r.dx * u;
    var p := Propagate(u, r);
    assert p.x == a && p.dx == r.dx;
    var q := LensStep(f, p);
    assert q.x == a;
    assert q.dx == -a / f + r.dx;
    ImageOnAxis(f, u, v, r.dx, a);
    assert Propagate(v, q).x == q.x + q.dx * v;
  }

  lemma ImagedY(f: real, u: real, v: real, r: Ray)
    requires f != 0.0 && u * v / f == u + v && r.y == 0.0
    ensures Propagate(v, LensStep(f, Propagate(u, r))).y == 0.0
  {
    var a := r.dy * u;
    var p := Propagate(u, r);
    assert p.y == a && p.dy == r.dy;
    var q := LensStep(f, p);
    assert q.y == a;
    assert q.dy == -a / f + r.dy;
    ImageOnAxis(f, u, v, r.dy, a);
    assert Propagate(v, q).y == q.y + q.dy * v;
  }

  /** One coordinate of thin-lens imaging: slope t leaves the axis, meets
      the lens at a == t * u and is back on the axis after v. */
  lemma ImageOnAxis(f: real, u: real, v: real, t: real, a: real)
    requires f != 0.0 && u * v / f == u + v && a == t * u
    ensures a + (-a / f + t) * v == 0.0
  {
    calc {
      a + (-a / f + t) * v;
      t * u + t * v - (t * u) * v / f;
      { assert (t * u) * v / f == t * (u * v / f); }
      t * u + t * v - t * (u + v);
      0.0;
    }
  }

  /** A thick lens acts as the thin lens of the same focal length, then
      moves z back by the principal-plane separation; it sits at z_po. */
  lemma ThickLensAsLens(zPo: real, zPi: real, f: real, z: real, r: Ray)
    requires f != 0.0
    ensures Step(ThickLens(zPo, zPi, f), r) == Step(Lens(z, f), r).(z := r.z - (zPo - zPi))
    ensures ThickLens(zPo, zPi, f).Z() == zPo
  {
  }

  /** A descanner without errors shifts the position by its offsets, keeps
      the slopes and takes offset . position off the path length. */
  lemma DescannerWithoutError(z: real, ox: real, oy: real, r: Ray)
    ensures var s := Step(Descanner(z, DescanError(0.0, 0.0, 0.0, 0.0, 0.0, 0.0, 0.0, 0.0), ox, oy), r);
      s.x == r.x + ox && s.y == r.y + oy && s.dx == r.dx && s.dy == r.dy && s.z == r.z &&
      s.pathlength == r.pathlength - (ox * r.x + oy * r.y)
  {
  }

  /** A deflector keeps position and z, kicks the slopes by its deflection
      and adds the incoming slope . position to the path length. */
  lemma DeflectorKicks(d: Deflection, r: Ray)
    ensures var s := Step(Deflector(d), r);
      s.x == r.x && s.y == r.y && s.z == r.z &&
      s.dx - r.dx == d.defX && s.dy - r.dy == d.defY &&
      s.pathlength - r.pathlength == r.dx * r.x + r.dy * r.y
  {
  }

  /** Two deflectors in the same plane keep the position and add their
      kicks. */
  lemma DoubleDeflectorSamePlane(z: real, d1: Deflection, d2: Deflection, r: Ray)
    requires d1.z == d2.z
    ensures var s := Step(DoubleDeflector(z, d1, d2), r);
      s.x == r.x && s.y == r.y && s.z == r.z &&
      s.dx == r.dx + d1.defX + d2.defX && s.dy == r.dy + d1.defY + d2.defY
  {
  }

  /** An aperture leaves the ray vector and path length alone; it sets
      blocked exactly when the ray lies outside it and keeps the old flag
      otherwise. */
  lemma ApertureBlocks(z: real, radius: real, cx: real, cy: real, r: Ray)
    ensures var s := Step(Aperture(z, radius, cx, cy), r);
      s.Vec() == r.Vec() && s.z == r.z && s.pathlength == r.pathlength &&
      (OutsideAperture(radius, cx, cy, r) ==> s.blocked == 1.0) &&
      (!OutsideAperture(radius, cx, cy, r) ==> s.blocked == r.blocked)
  {
  }

  /** No element ever clears the blocked flag: each keeps it or sets it to 1. */
  lemma BlockedNeverClears(e: Element, r: Ray)
    requires e.Valid()
    ensures Step(e, r).blocked == r.blocked || Step(e, r).blocked == 1.0
  {
  }

  /** Point sources, input planes, scan grids and detectors pass the ray on
      unchanged. */
  lemma PassiveElements(e: Element, r: Ray)
    requires e.InputPlane? || e.PointSource? || e.ScanGrid? || e.Detector?
    ensures Step(e, r) == r
  {
  }

  /** The aperture's squared test is the source's test on the distance
      d = sqrt((x - cx)^2 + (y - cy)^2): d > radius. */
  lemma ApertureIsSqrtTest(radius: real, cx: real, cy: real, r: Ray, d: real)
    requires d >= 0.0 && d * d == (r.x - cx) * (r.x - cx) + (r.y - cy) * (r.y - cy)
    ensures OutsideAperture(radius, cx, cy, r) <==> d > radius
  {
    if radius >= 0.0 {
      if d > radius {
        PositiveProduct(d - radius, d + radius);
      } else {
        NonNegativeProduct(radius - d, radius + d);
      }
    }
  }

  lemma PositiveProduct(a: real, b: real)
    requires a > 0.0 && b > 0.0
    ensures a * b > 0.0
  {
  }

  lemma NonNegativeProduct(a: real, b: real)
    requires a >= 0.0 && b >= 0.0
    ensures a * b >= 0.0
  {
  }

  /** A proper rotation (cos^2 + sin^2 == 1) keeps the ray's distance from
      the axis, the size of its slope and its path length. */
  lemma RotatorKeepsRadii(z: real, c: real, s: real, r: Ray)
    requires c * c + s * s == 1.0
    ensures var q := Step(Rotator(z, c, s), r);
      q.x * q.x + q.y * q.y == r.x * r.x + r.y * r.y &&
      q.dx * q.dx + q.dy * q.dy == r.dx * r.dx + r.dy * r.dy &&
      q.pathlength == r.pathlength
  {
    var q := Step(Rotator(z, c, s), r);
    calc {
      q.x * q.x + q.y * q.y;
      (r.x * c - r.y * s) * (r.x * c - r.y * s) + (r.x * s + r.y * c) * (r.x * s + r.y * c);
      (r.x * r.x + r.y * r.y) * (c * c + s * s);
    }
    calc {
      q.dx * q.dx + q.dy * q.dy;
      (r.dx * c - r.dy * s) * (r.dx * c - r.dy * s) + (r.dx * s + r.dy * c) * (r.dx * s + r.dy * c);
      (r.dx * r.dx + r.dy * r.dy) * (c * c + s * s);
    }
  }

  /** The pixel grid in raster order: row y of the grid lists the pixels
      (y, 0), ..., (y, shapeX - 1), rows outermost. `toMetres` is the
      grid's pixel-to-metre transform, which is not part of this model. */
  function RasterRows(rows: nat, width: nat, toMetres: (int, int) -> (real, real)): seq<(real, real)>
  {
    if rows == 0 then []
    else RasterRows(rows - 1, width, toMetres) + seq(width, x => toMetres(rows - 1, x))
  }

  function Coords(g: Grid, toMetres: (int, int) -> (real, real)): seq<(real, real)>
  {
    RasterRows(g.shapeY, g.shapeX, toMetres)
  }

  /** Entry k of the coordinate list is the image of pixel
      (k div width, k mod width). */
  lemma {:induction false} RasterOrder(rows: nat, width: nat, toMetres: (int, int) -> (real, real), k: nat)
    requires k < rows * width
    ensures |RasterRows(rows, width, toMetres)| == rows * width
    ensures RasterRows(rows, width, toMetres)[k] == toMetres(k / width, k % width)
  {
    RasterLength(rows, width, toMetres);
    var prefix := RasterRows(rows - 1, width, toMetres);
    assert |prefix| == (rows - 1) * width by { RasterLength(rows - 1, width, toMetres); }
    if k < (rows - 1) * width {
      RasterOrder(rows - 1, width, toMetres, k);
    } else {
      var x := k - (rows - 1) * width;
      assert 0 <= x < width;
      DivModOfRow(rows - 1, width, x);
    }
  }

  lemma {:induction false} RasterLength(rows: nat, width: nat, toMetres: (int, int) -> (real, real))
    ensures |RasterRows(rows, width, toMetres)| == rows * width
  {
    if rows > 0 {
      RasterLength(rows - 1, width, toMetres);
    }
  }

  lemma DivModOfRow(y: nat, width: nat, x: nat)
    requires x < width
    ensures (y * width + x) / width == y && (y * width + x) % width == x
  {
    var a := y * width + x;
    var q, m := a / width, a % width;
    assert a == q * width + m && 0 <= m < width;
    if y > q {
      WholeRowsApart(q, y, width, m, x);
    } else if y < q {
      WholeRowsApart(y, q, width, x, m);
    }
  }

  /** Two indices a whole row apart cannot both sit inside one row. */
  lemma WholeRowsApart(lo: int, hi: int, width: nat, cLo: int, cHi: int)
    requires lo < hi && 0 <= cLo < width && 0 <= cHi < width
    ensures lo * width + cLo != hi * width + cHi
  {
    var d := hi - lo;
    assert hi * width == lo * width + d * width;
    assert d * width >= width by {
      assert (d - 1) * width >= 0;
      assert d * width == (d - 1) * width + width;
    }
  }

  /** The grid lists shapeY * shapeX coordinates and pixel (y, x) is found
      at index y * shapeX + x. */
  lemma CoordsOfPixel(g: Grid, toMetres: (int, int) -> (real, real), y: nat, x: nat)
    requires y < g.shapeY && x < g.shapeX
    ensures |Coords(g, toMetres)| == g.shapeY * g.shapeX
    ensures y * g.shapeX + x < g.shapeY * g.shapeX
    ensures Coords(g, toMetres)[y * g.shapeX + x] == toMetres(y, x)
  {
    assert y * g.shapeX + x < (y + 1) * g.shapeX <= g.shapeY * g.shapeX;
    RasterOrder(g.shapeY, g.shapeX, toMetres, y * g.shapeX + x);
    DivModOfRow(y, g.shapeX, x);
  }
}
