/** Source slopes, the ray acceptance mask and the in-place frame sum
    (src/microscope_calibration/stemoverfocus.py).

    Coordinates are (x, y) pairs. A total transfer matrix maps the source
    state [pos_x, pos_y, theta_x, theta_y, 1] to the detector; its rows 0
    and 1 read [A_xx, A_xy, B_xx, B_xy, delta_x] and
    [A_yx, A_yy, B_yx, B_yy, delta_y]. */
module Calibration {
  import opened Transfer
  import opened Rasters

  /** The determinant of the slope-to-position block B. */
  function SlopeDeterminant(t: Mat5): real
  {
    t[0][2] * t[1][3] - t[0][3] * t[1][2]
  }

  /** Where the ray from `pos` with slopes `theta` meets the detector:
      rows 0 and 1 of the transfer matrix applied to the source state. */
  function Landing(pos: (real, real), theta: (real, real), t: Mat5): (real, real)
  {
    var s := SourceState(pos.0, pos.1, theta.0, theta.1);
    (Dot(t[0], s), Dot(t[1], s))
  }

  /** The source slopes aimed at detector coordinate `out`, by the
      closed-form solution of the 2x2 system. */
  function SlopeFor(pos: (real, real), out: (real, real), t: Mat5): (real, real)
    requires SlopeDeterminant(t) != 0.0
  {
    SolveSlopes(t[0][0], t[0][1], t[0][2], t[0][3], t[0][4],
                t[1][0], t[1][1], t[1][2], t[1][3], t[1][4],
                pos.0, pos.1, out.0, out.1)
  }

  /** The source's formulas for (theta_x, theta_y), over the named matrix
      entries, the source position and the detector coordinate. */
  function SolveSlopes(aXX: real, aXY: real, bXX: real, bXY: real, deltaX: real,
                       aYX: real, aYY: real, bYX: real, bYY: real, deltaY: real,
                       posX: real, posY: real, xOut: real, yOut: real): (real, real)
    requires bXX * bYY - bXY * bYX != 0.0
  {
    var denom := bXX * bYY - bXY * bYX;
    var thetaX :=
      (- aXX * bYY * posX
       - aXY * bYY * posY
       + aYX * bXY * posX
       + aYY * bXY * posY
       + bXY * deltaY
       - bXY * yOut
       - bYY * deltaX
       + bYY * xOut) / denom;
    var thetaY :=
      (  aXX * bYX * posX
       + aXY * bYX * posY
       - aYX * bXX * posX
       - aYY * bXX * posY
       - bXX * deltaY
       + bXX * yOut
       + bYX * deltaX
       - bYX * xOut) / denom;
    (thetaX, thetaY)
  }

  /** One slope pair per detector coordinate; each depends only on its
      own coordinate. */
  function FindInputSlopes(pos: (real, real), detectorCoords: seq<(real, real)>, t: Mat5): (slopes: seq<(real, real)>)
    requires SlopeDeterminant(t) != 0.0
    ensures |slopes| == |detectorCoords|
    ensures forall i :: 0 <= i < |slopes| ==> slopes[i] == SlopeFor(pos, detectorCoords[i], t)
  {
    seq(|detectorCoords|, i requires 0 <= i < |detectorCoords| => SlopeFor(pos, detectorCoords[i], t))
  }

  /** Round trip: the ray with the returned slopes lands exactly on the
      detector coordinate it was solved for. */
  lemma FindInputSlopesLand(pos: (real, real), detectorCoords: seq<(real, real)>, t: Mat5)
    requires SlopeDeterminant(t) != 0.0
    ensures var slopes := FindInputSlopes(pos, detectorCoords, t);
      forall i :: 0 <= i < |detectorCoords| ==> Landing(pos, slopes[i], t) == detectorCoords[i]
  {
    var slopes := FindInputSlopes(pos, detectorCoords, t);
    forall i | 0 <= i < |detectorCoords|
      ensures Landing(pos, slopes[i], t) == detectorCoords[i]
    {
      SlopeForLands(pos, detectorCoords[i], t);
    }
  }

  /** The slopes the solver returns are the only ones that land on `out`:
      theta lands on `out` exactly when it is SlopeFor(pos, out, t). */
  lemma SlopeForUnique(pos: (real, real), out: (real, real), theta: (real, real), t: Mat5)
    requires SlopeDeterminant(t) != 0.0
    ensures Landing(pos, theta, t) == out <==> theta == SlopeFor(pos, out, t)
  {
    SlopeForLands(pos, out, t);
    var (cx, cy) := Residual(pos, out, t);
    if Landing(pos, theta, t) == out {
      LandingAsResidual(pos, theta, out, t);
      var (u, w) := SlopeFor(pos, out, t);
      LandingAsResidual(pos, (u, w), out, t);
      SolutionUnique(t[0][2], t[0][3], t[1][2], t[1][3], theta.0, theta.1, u, w);
    }
  }

  /** What B * theta must equal for the ray to land on `out`:
      out - A * pos - delta. */
  function Residual(pos: (real, real), out: (real, real), t: Mat5): (real, real)
  {
    (out.0 - t[0][0] * pos.0 - t[0][1] * pos.1 - t[0][4],
     out.1 - t[1][0] * pos.0 - t[1][1] * pos.1 - t[1][4])
  }

  lemma LandingAsResidual(pos: (real, real), theta: (real, real), out: (real, real), t: Mat5)
    ensures var (cx, cy) := Residual(pos, out, t);
      Landing(pos, theta, t) == out <==>
        (t[0][2] * theta.0 + t[0][3] * theta.1 == cx && t[1][2] * theta.0 + t[1][3] * theta.1 == cy)
  {
    var s := SourceState(pos.0, pos.1, theta.0, theta.1);
    var (cx, cy) := Residual(pos, out, t);
    var lx := t[0][0] * pos.0 + t[0][1] * pos.1 + t[0][2] * theta.0 + t[0][3] * theta.1 + t[0][4];
    var ly := t[1][0] * pos.0 + t[1][1] * pos.1 + t[1][2] * theta.0 + t[1][3] * theta.1 + t[1][4];
    assert Dot(t[0], s) == lx;
    assert Dot(t[1], s) == ly;
    assert Landing(pos, theta, t) == (lx, ly);
    assert lx == out.0 <==> t[0][2] * theta.0 + t[0][3] * theta.1 == cx;
    assert ly == out.1 <==> t[1][2] * theta.0 + t[1][3] * theta.1 == cy;
  }

  /** The numerators of the source's formulas are Cramer's rule on the
      residual (cx, cy) == out - A * pos - delta. */
  lemma SolveSlopesIsCramer(aXX: real, aXY: real, bXX: real, bXY: real, deltaX: real,
                            aYX: real, aYY: real, bYX: real, bYY: real, deltaY: real,
                            posX: real, posY: real, xOut: real, yOut: real)
    requires bXX * bYY - bXY * bYX != 0.0
    ensures var cx := xOut - aXX * posX - aXY * posY - deltaX;
      var cy := yOut - aYX * posX - aYY * posY - deltaY;
      var d := bXX * bYY - bXY * bYX;
      SolveSlopes(aXX, aXY, bXX, bXY, deltaX, aYX, aYY, bYX, bYY, deltaY, posX, posY, xOut, yOut)
        == ((bYY * cx - bXY * cy) / d, (bXX * cy - bYX * cx) / d)
  {
    assert - aXX * bYY * posX - aXY * bYY * posY + aYX * bXY * posX + aYY * bXY * posY
           + bXY * deltaY - bXY * yOut - bYY * deltaX + bYY * xOut
        == bYY * (xOut - aXX * posX - aXY * posY - deltaX) - bXY * (yOut - aYX * posX - aYY * posY - deltaY);
    assert aXX * bYX * posX + aXY * bYX * posY - aYX * bXX * posX - aYY * bXX * posY
           - bXX * deltaY + bXX * yOut + bYX * deltaX - bYX * xOut
        == bXX * (yOut - aYX * posX - aYY * posY - deltaY) - bYX * (xOut - aXX * posX - aXY * posY - deltaX);
  }

  lemma SlopeForLands(pos: (real, real), out: (real, real), t: Mat5)
    requires SlopeDeterminant(t) != 0.0
    ensures Landing(pos, SlopeFor(pos, out, t), t) == out
  {
    var theta := SlopeFor(pos, out, t);
    SolveSlopesLands(t[0][0], t[0][1], t[0][2], t[0][3], t[0][4],
                     t[1][0], t[1][1], t[1][2], t[1][3], t[1][4],
                     pos.0, pos.1, out.0, out.1);
    assert t[0][0] * pos.0 + t[0][1] * pos.1 + t[0][2] * theta.0 + t[0][3] * theta.1 + t[0][4] == out.0;
    assert t[1][0] * pos.0 + t[1][1] * pos.1 + t[1][2] * theta.0 + t[1][3] * theta.1 + t[1][4] == out.1;
    var s := SourceState(pos.0, pos.1, theta.0, theta.1);
    assert Dot(t[0], s) == t[0][0] * pos.0 + t[0][1] * pos.1 + t[0][2] * theta.0 + t[0][3] * theta.1 + t[0][4];
    assert Dot(t[1], s) == t[1][0] * pos.0 + t[1][1] * pos.1 + t[1][2] * theta.0 + t[1][3] * theta.1 + t[1][4];
    assert Landing(pos, theta, t) == (Dot(t[0], s), Dot(t[1], s));
  }

  /** The source's formulas give slopes that land on (xOut, yOut). */
  lemma SolveSlopesLands(aXX: real, aXY: real, bXX: real, bXY: real, deltaX: real,
                         aYX: real, aYY: real, bYX: real, bYY: real, deltaY: real,
                         posX: real, posY: real, xOut: real, yOut: real)
    requires bXX * bYY - bXY * bYX != 0.0
    ensures var theta := SolveSlopes(aXX, aXY, bXX, bXY, deltaX, aYX, aYY, bYX, bYY, deltaY, posX, posY, xOut, yOut);
      aXX * posX + aXY * posY + bXX * theta.0 + bXY * theta.1 + deltaX == xOut &&
      aYX * posX + aYY * posY + bYX * theta.0 + bYY * theta.1 + deltaY == yOut
  {
    SolveSlopesIsCramer(aXX, aXY, bXX, bXY, deltaX, aYX, aYY, bYX, bYY, deltaY, posX, posY, xOut, yOut);
    CramerSolves(bXX, bXY, bYX, bYY, xOut - aXX * posX - aXY * posY - deltaX, yOut - aYX * posX - aYY * posY - deltaY);
  }

  /** Cramer's rule solves a 2x2 system with non-zero determinant. */
  lemma CramerSolves(bXX: real, bXY: real, bYX: real, bYY: real, cx: real, cy: real)
    requires bXX * bYY - bXY * bYX != 0.0
    ensures var d := bXX * bYY - bXY * bYX;
      var (u, w) := ((bYY * cx - bXY * cy) / d, (bXX * cy - bYX * cx) / d);
      bXX * u + bXY * w == cx && bYX * u + bYY * w == cy
  {
    var d := bXX * bYY - bXY * bYX;
    var nu, nw := bYY * cx - bXY * cy, bXX * cy - bYX * cx;
    assert bXX * nu + bXY * nw == d * cx;
    assert bYX * nu + bYY * nw == d * cy;
    assert bXX * (nu / d) + bXY * (nw / d) == (bXX * nu + bXY * nw) / d;
    assert bYX * (nu / d) + bYY * (nw / d) == (bYX * nu + bYY * nw) / d;
  }

  /** A 2x2 system with non-zero determinant has at most one solution. */
  lemma SolutionUnique(bXX: real, bXY: real, bYX: real, bYY: real, u1: real, w1: real, u2: real, w2: real)
    requires bXX * bYY - bXY * bYX != 0.0
    requires bXX * u1 + bXY * w1 == bXX * u2 + bXY * w2
    requires bYX * u1 + bYY * w1 == bYX * u2 + bYY * w2
    ensures u1 == u2 && w1 == w2
  {
    var du, dw := u1 - u2, w1 - w2;
    assert bXX * du + bXY * dw == 0.0;
    assert bYX * du + bYY * dw == 0.0;
    assert (bXX * bYY - bXY * bYX) * du == bYY * (bXX * du + bXY * dw) - bXY * (bYX * du + bYY * dw);
    assert (bXX * bYY - bXY * bYX) * dw == bXX * (bYX * du + bYY * dw) - bYX * (bXX * du + bXY * dw);
  }

  // ---------------------------------------------------------------------
  // Ray acceptance mask

  /** numpy's argmax on booleans: the first index holding the maximum,
      so the first true entry, or 0 when there is none. */
  function ArgMax(s: seq<bool>): (k: nat)
    requires |s| > 0
    ensures k < |s|
  {
    if s[0] || |s| == 1 then 0
    else
      var k := ArgMax(s[1..]);
      if s[1..][k] then k + 1 else 0
  }

  lemma {:induction false} ArgMaxFindsFirstTrue(s: seq<bool>)
    requires |s| > 0
    ensures (exists i :: 0 <= i < |s| && s[i]) ==>
      s[ArgMax(s)] && forall j :: 0 <= j < ArgMax(s) ==> !s[j]
    ensures (forall i :: 0 <= i < |s| ==> !s[i]) ==> ArgMax(s) == 0
  {
    if !s[0] && |s| > 1 {
      ArgMaxFindsFirstTrue(s[1..]);
      if exists i :: 0 <= i < |s| && s[i] {
        var i :| 0 <= i < |s| && s[i];
        assert s[1..][i - 1];
      }
    }
  }

  function Reverse(s: seq<bool>): (r: seq<bool>)
    ensures |r| == |s| && forall i :: 0 <= i < |s| ==> r[i] == s[|s| - 1 - i]
  {
    seq(|s|, i requires 0 <= i < |s| => s[|s| - 1 - i])
  }

  /** Entry i is true and no later entry is. */
  predicate IsLastTrue(mask: seq<bool>, i: nat)
    requires i < |mask|
  {
    mask[i] && forall j :: i < j < |mask| ==> !mask[j]
  }

  /** The mask collapsed to its last true entry: a fresh all-false mask
      with that one entry set, and all false when the mask has none. */
  function SelectLastRay(mask: seq<bool>): (r: seq<bool>)
    requires |mask| > 0
    ensures |r| == |mask|
    ensures forall i :: 0 <= i < |mask| ==> (r[i] <==> IsLastTrue(mask, i))
  {
    var rev := Reverse(mask);
    var idx := ArgMax(rev);
    var lastIdx := (|mask| - idx) - 1;
    var newMask := seq(|mask|, _ => false);
    SelectLastRayIsLast(mask, rev, idx, lastIdx);
    if mask[lastIdx] then newMask[lastIdx := true] else newMask
  }

  lemma SelectLastRayIsLast(mask: seq<bool>, rev: seq<bool>, idx: nat, lastIdx: nat)
    requires |mask| > 0 && rev == Reverse(mask) && idx == ArgMax(rev) && lastIdx == |mask| - idx - 1
    ensures mask[lastIdx] ==> IsLastTrue(mask, lastIdx)
    ensures !mask[lastIdx] ==> forall i :: 0 <= i < |mask| ==> !mask[i]
  {
    ArgMaxFindsFirstTrue(rev);
    if exists i :: 0 <= i < |mask| && mask[i] {
      var i :| 0 <= i < |mask| && mask[i];
      assert rev[|mask| - 1 - i];
      forall j | lastIdx < j < |mask|
        ensures !mask[j]
      {
        assert !rev[|mask| - 1 - j];
      }
    }
  }

  /** At most one entry survives the collapse, it lies under a true entry
      of the input, and an input without true entries gives all false. */
  lemma SelectLastRayKeepsAtMostOne(mask: seq<bool>)
    requires |mask| > 0
    ensures var r := SelectLastRay(mask);
      (forall i :: 0 <= i < |mask| && r[i] ==> mask[i]) &&
      (forall i, j :: 0 <= i < |mask| && 0 <= j < |mask| && r[i] && r[j] ==> i == j) &&
      ((forall i :: 0 <= i < |mask| ==> !mask[i]) ==> forall i :: 0 <= i < |mask| ==> !r[i])
  {
    var r := SelectLastRay(mask);
    forall i, j | 0 <= i < |mask| && 0 <= j < |mask| && r[i] && r[j]
      ensures i == j
    {
      assert IsLastTrue(mask, i) && IsLastTrue(mask, j);
    }
  }

  function SquaredRadius(theta: (real, real)): real
  {
    theta.0 * theta.0 + theta.1 * theta.1
  }

  function Max(a: real, b: real): real
  {
    if a >= b then a else b
  }

  /** Slopes inside the larger of the beam cone and the pixel cone. */
  function ThresholdMask(slopes: seq<(real, real)>, semiConv: real, minAlpha: real): (mask: seq<bool>)
    ensures |mask| == |slopes|
    ensures forall i :: 0 <= i < |slopes| ==>
      (mask[i] <==> SquaredRadius(slopes[i]) <= Max(semiConv * semiConv, minAlpha * minAlpha))
  {
    seq(|slopes|, i requires 0 <= i < |slopes| =>
      SquaredRadius(slopes[i]) <= Max(semiConv * semiConv, minAlpha * minAlpha))
  }

  /** The acceptance mask. A beam cone wider than one pixel's angular
      footprint `minAlpha` keeps every slope within the threshold;
      otherwise only the last slope within it survives. */
  function MaskRays(slopes: seq<(real, real)>, semiConv: real, minAlpha: real): (mask: seq<bool>)
    requires |slopes| > 0
    ensures |mask| == |slopes|
    ensures semiConv > minAlpha ==> forall i :: 0 <= i < |slopes| ==>
      (mask[i] <==> SquaredRadius(slopes[i]) <= Max(semiConv * semiConv, minAlpha * minAlpha))
    ensures semiConv <= minAlpha ==> forall i :: 0 <= i < |slopes| ==>
      (mask[i] <==> (SquaredRadius(slopes[i]) <= Max(semiConv * semiConv, minAlpha * minAlpha) &&
                     forall j :: i < j < |slopes| ==>
                       SquaredRadius(slopes[j]) > Max(semiConv * semiConv, minAlpha * minAlpha)))
  {
    var mask := ThresholdMask(slopes, semiConv, minAlpha);
    if semiConv > minAlpha then mask else SelectLastRay(mask)
  }

  /** With a non-negative pixel cone narrower than the beam, the mask is
      exactly the beam cone. */
  lemma WideBeamMask(slopes: seq<(real, real)>, semiConv: real, minAlpha: real)
    requires |slopes| > 0 && 0.0 <= minAlpha < semiConv
    ensures forall i :: 0 <= i < |slopes| ==>
      (MaskRays(slopes, semiConv, minAlpha)[i] <==> SquaredRadius(slopes[i]) <= semiConv * semiConv)
  {
    assert minAlpha * minAlpha <= semiConv * minAlpha <= semiConv * semiConv;
  }

  /** A narrow beam keeps at most one ray. */
  lemma NarrowBeamKeepsOne(slopes: seq<(real, real)>, semiConv: real, minAlpha: real)
    requires |slopes| > 0 && semiConv <= minAlpha
    ensures var mask := MaskRays(slopes, semiConv, minAlpha);
      forall i, j :: 0 <= i < |slopes| && 0 <= j < |slopes| && mask[i] && mask[j] ==> i == j
  {
    SelectLastRayKeepsAtMostOne(ThresholdMask(slopes, semiConv, minAlpha));
  }

  /** The distance the source's matrix puts between source and detector,
      read off as the mean of its two slope-to-position diagonal terms. */
  function CameraLength(t: Mat5): real
  {
    (t[0][2] + t[1][3]) / 2.0
  }

  /** The detector-plane ray [x, y, dx, dy, 1] of the source ray aimed at
      detector coordinate `out`: rows 0-3 of the total matrix applied to
      the source state. */
  function DetectorRay(pos: (real, real), out: (real, real), total: Mat5): Vec5
    requires SlopeDeterminant(total) != 0.0
  {
    var theta := SlopeFor(pos, out, total);
    var s := SourceState(pos.0, pos.1, theta.0, theta.1);
    [Dot(total[0], s), Dot(total[1], s), Dot(total[2], s), Dot(total[3], s), 1.0]
  }

  /** The detector-plane ray of pixel `out` sits exactly on `out`. */
  lemma DetectorRayOnPixel(pos: (real, real), out: (real, real), total: Mat5)
    requires SlopeDeterminant(total) != 0.0
    ensures DetectorRay(pos, out, total)[0] == out.0 && DetectorRay(pos, out, total)[1] == out.1
  {
    SlopeForLands(pos, out, total);
  }

  /** Where the detector-plane ray of pixel `out` meets the target plane. */
  function PlanePoint(pos: (real, real), out: (real, real), total: Mat5, toPlane: Mat5): (real, real)
    requires SlopeDeterminant(total) != 0.0
  {
    var p := MatVec(toPlane, DetectorRay(pos, out, total));
    (p[0], p[1])
  }

  /** Back-projection of every detector pixel to a target plane: one point
      per pixel, the image under `toPlane` of that pixel's detector-plane
      ray, with the acceptance mask of the solved slopes at
      minAlpha == minRadius / camera length. */
  function RayCoordsAtPlane(semiConv: real, pos: (real, real), detectorCoords: seq<(real, real)>,
                            total: Mat5, toPlane: Mat5, minRadius: real): (result: (seq<(real, real)>, seq<bool>))
    requires |detectorCoords| > 0 && SlopeDeterminant(total) != 0.0 && CameraLength(total) != 0.0
    ensures |result.0| == |detectorCoords| && |result.1| == |detectorCoords|
    ensures forall i :: 0 <= i < |detectorCoords| ==> result.0[i] == PlanePoint(pos, detectorCoords[i], total, toPlane)
    ensures result.1 == MaskRays(FindInputSlopes(pos, detectorCoords, total), semiConv, minRadius / CameraLength(total))
  {
    var slopes := FindInputSlopes(pos, detectorCoords, total);
    var points := seq(|detectorCoords|, i requires 0 <= i < |detectorCoords| => PlanePoint(pos, detectorCoords[i], total, toPlane));
    (points, MaskRays(slopes, semiConv, minRadius / CameraLength(total)))
  }

  // ---------------------------------------------------------------------
  // In-place frame sum

  /** Adds frame[i] into buffer[px_y[i], px_x[i]] for every kept entry
      whose pixel lies inside the buffer; other entries are dropped. */
  method InplaceSum(pxY: seq<int>, pxX: seq<int>, mask: seq<bool>, frame: seq<real>, buffer: array2<real>)
    requires |pxX| >= |pxY| && |mask| >= |pxY| && |frame| >= |pxY|
    modifies buffer
    ensures forall y, x :: 0 <= y < buffer.Length0 && 0 <= x < buffer.Length1 ==>
      buffer[y, x] == old(buffer[y, x]) + HitSum(pxY, pxX, mask, frame, |pxY|, y, x)
  {
    var h, w := buffer.Length0, buffer.Length1;
    var n := |pxY|;
    for i := 0 to n
      invariant forall y, x :: 0 <= y < h && 0 <= x < w ==>
        buffer[y, x] == old(buffer[y, x]) + HitSum(pxY, pxX, mask, frame, i, y, x)
    {
      var py, px := pxY[i], pxX[i];
      if mask[i] && 0 <= py < h && 0 <= px < w {
        buffer[py, px] := buffer[py, px] + frame[i];
      }
    }
  }

  // ---------------------------------------------------------------------
  // Disk diameters

  /** The inputs the diameter check reads: the first components of the
      scan step and detector pixel size stand for the (square) pitches. */
  datatype DiameterParams = DiameterParams(
    semiConv: real, defocus: real, scanStep: real, detPxSize: real, cameraLength: real)

  /** The beam disk diameters at the scan plane and at the detector. The
      pitch comparisons only build warnings that are never raised. */
  function CheckDiameterOnScanAndDet(params: DiameterParams): (diameters: (real, real))
  {
    var scanDisk := DiskDiameter(params.defocus, params.semiConv);
    var detectorDisk := DiskDiameter(params.defocus + params.cameraLength, params.semiConv);
    (scanDisk, detectorDisk)
  }

  /** The width of the beam cone `distance` past its apex. */
  function DiskDiameter(distance: real, semiConv: real): real
  {
    distance * 2.0 * semiConv
  }

  /** The detector disk exceeds the scan disk by the camera length's share
      of the cone, and neither depends on the pixel pitches. */
  lemma DiskDiameters(params: DiameterParams, scanStep: real, detPxSize: real)
    ensures CheckDiameterOnScanAndDet(params).1 - CheckDiameterOnScanAndDet(params).0
            == params.cameraLength * 2.0 * params.semiConv
    ensures CheckDiameterOnScanAndDet(params.(scanStep := scanStep, detPxSize := detPxSize))
            == CheckDiameterOnScanAndDet(params)
  {
    assert (params.defocus + params.cameraLength) * 2.0 * params.semiConv - params.defocus * 2.0 * params.semiConv
        == params.cameraLength * 2.0 * params.semiConv;
    var other := params.(scanStep := scanStep, detPxSize := detPxSize);
    assert other.defocus == params.defocus && other.semiConv == params.semiConv;
    assert other.cameraLength == params.cameraLength;
  }
}
