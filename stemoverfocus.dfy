/** The 4D-STEM pipeline of src/jaxgym/stemoverfocus.py: the per-scan-position
    transfer matrices, the forward and backward projections of one frame, the
    loops that fill a 4D dataset or collect back-projected pixels, and the
    shifted-sum raster.

    The linearisation of the model (`solve_model`), the accumulation of
    transfer matrices, the matrix inverse, the back-projection of detector
    pixels to a plane and the metre-to-pixel conversion are computations
    whose code is not part of this model; they enter as the fields of a
    `Numerics` value and are only ever applied, never looked into. */
module StemOverfocus {
  import opened Rays
  import opened Transfer
  import opened Components
  import opened Rasters

  /** The computations the pipeline calls but this model does not define. */
  datatype Numerics = Numerics(
    solveModel: (Ray, seq<Element>) -> seq<Mat5>,
    accumulate: (seq<Mat5>, nat, nat) -> Mat5,
    inverse: Mat5 -> Mat5,
    rayCoordsAtPlane: (real, (real, real), seq<(real, real)>, Mat5, Mat5) -> (seq<real>, seq<real>, seq<bool>),
    metresToPixels: (Grid, real, real) -> (int, int))

  /** What the wrapper hands back: every element's matrix, the source to
      detector matrix, and the detector to scan-grid matrix. */
  datatype Transfers = Transfers(matrices: seq<Mat5>, total: Mat5, detectorToScanGrid: Mat5)

  /** A model the wrapper can unpack: point source, scan grid, descanner
      and detector in the first four places. */
  predicate FourdstemModel(model: seq<Element>)
  {
    |model| >= 4 && model[2].Descanner?
  }

  // ---------------------------------------------------------------------
  // Transfer matrices for one scan position

  /** The single reference ray whose Jacobian gives the transfer matrices:
      it starts at the scan position on the axis direction, at the source
      plane. The carried amplitude, wavelength and blocked fields are not
      set by the source and take neutral values. */
  function ReferenceRay(scanPos: (real, real), z: real): (r: Ray)
    ensures r.Vec() == SourceState(scanPos.0, scanPos.1, 0.0, 0.0)
    ensures r.z == z && r.pathlength == 0.0 && r.blocked == 0.0
  {
    Ray(scanPos.0, scanPos.1, 0.0, 0.0, z, 0.0, 1.0, 1.0, 0.0, 0.0)
  }

  /** The model rebuilt for one scan position: the descanner moves to the
      scan grid's plane, keeps its descan error and takes the scan
      position as its offsets; everything after the detector is dropped. */
  function ScanModel(model: seq<Element>, scanPos: (real, real)): (m: seq<Element>)
    requires FourdstemModel(model)
  {
    [model[0], model[1], Descanner(model[1].Z(), model[2].descanError, scanPos.0, scanPos.1), model[3]]
  }

  function SolveModelFourdstemWrapper(model: seq<Element>, scanPos: (real, real), num: Numerics): (t: Transfers)
    requires FourdstemModel(model)
    ensures t.matrices == num.solveModel(ReferenceRay(scanPos, model[0].Z()), ScanModel(model, scanPos))
    ensures t.total == num.accumulate(t.matrices, 0, 3)
    ensures t.detectorToScanGrid == num.inverse(num.accumulate(t.matrices, 1, 3))
  {
    var ray := ReferenceRay(scanPos, model[0].Z());
    var matrices := num.solveModel(ray, ScanModel(model, scanPos));
    var total := num.accumulate(matrices, 0, 3);
    var scanGridToDetector := num.accumulate(matrices, 1, 3);
    Transfers(matrices, total, num.inverse(scanGridToDetector))
  }

  /** The rebuilt model holds four elements, the first, second and fourth
      of the given model, and a descanner at the scan grid whose offsets
      are the scan position; with no descan error it shifts every ray by
      exactly the scan position. */
  lemma ScanModelDescans(model: seq<Element>, scanPos: (real, real), r: Ray)
    requires FourdstemModel(model)
    ensures var m := ScanModel(model, scanPos);
      |m| == 4 && m[0] == model[0] && m[1] == model[1] && m[3] == model[3] &&
      m[2].Descanner? && m[2].Z() == model[1].Z() && m[2].descanError == model[2].descanError
    ensures model[2].descanError == DescanError(0.0, 0.0, 0.0, 0.0, 0.0, 0.0, 0.0, 0.0) ==>
      var s := Step(ScanModel(model, scanPos)[2], r);
      s.x == r.x + scanPos.0 && s.y == r.y + scanPos.1 && s.dx == r.dx && s.dy == r.dy
  {
    if model[2].descanError == DescanError(0.0, 0.0, 0.0, 0.0, 0.0, 0.0, 0.0, 0.0) {
      DescannerWithoutError(model[1].Z(), scanPos.0, scanPos.1, r);
    }
  }

  /** The matrices depend on the given descanner only through its descan
      error: its own plane and offsets are replaced, and elements after
      the fourth are never read. */
  lemma WrapperIgnoresOldDescanner(model: seq<Element>, model': seq<Element>, scanPos: (real, real), num: Numerics)
    requires FourdstemModel(model) && FourdstemModel(model')
    requires model[0] == model'[0] && model[1] == model'[1] && model[3] == model'[3]
    requires model[2].descanError == model'[2].descanError
    ensures SolveModelFourdstemWrapper(model, scanPos, num) == SolveModelFourdstemWrapper(model', scanPos, num)
  {
    assert ScanModel(model, scanPos) == ScanModel(model', scanPos);
  }

  // ---------------------------------------------------------------------
  // Boolean-mask selection

  /** The positions a boolean mask selects, in increasing order. */
  function SelectedIndices(mask: seq<bool>): (idx: seq<nat>)
    ensures forall k :: 0 <= k < |idx| ==> idx[k] < |mask| && mask[idx[k]]
    ensures forall k, l :: 0 <= k < l < |idx| ==> idx[k] < idx[l]
  {
    if |mask| == 0 then []
    else
      var prefix := SelectedIndices(mask[..|mask| - 1]);
      prefix + (if mask[|mask| - 1] then [|mask| - 1] else [])
  }

  /** `s[mask]`: the entries whose mask entry is true, in their order. */
  function Select<T>(s: seq<T>, mask: seq<bool>): (r: seq<T>)
    requires |mask| == |s|
    ensures |r| == |SelectedIndices(mask)|
    ensures forall k :: 0 <= k < |r| ==> r[k] == s[SelectedIndices(mask)[k]]
  {
    if |s| == 0 then []
    else
      var n := |s| - 1;
      assert mask[..n] == mask[..|mask| - 1];
      Select(s[..n], mask[..n]) + (if mask[n] then [s[n]] else [])
  }

  /** A position is selected exactly when the mask keeps it, and then
      exactly once. */
  lemma {:induction false} SelectedIndicesExact(mask: seq<bool>, i: nat)
    requires i < |mask|
    ensures mask[i] <==> exists k :: 0 <= k < |SelectedIndices(mask)| && SelectedIndices(mask)[k] == i
    ensures forall k, l :: (0 <= k < |SelectedIndices(mask)| && 0 <= l < |SelectedIndices(mask)| &&
      SelectedIndices(mask)[k] == i && SelectedIndices(mask)[l] == i) ==> k == l
  {
    if mask[i] {
      SelectedIndexOf(mask, i);
    }
  }

  /** A position the mask keeps occurs among the selected positions. */
  lemma {:induction false} SelectedIndexOf(mask: seq<bool>, i: nat)
    requires i < |mask| && mask[i]
    ensures exists k :: 0 <= k < |SelectedIndices(mask)| && SelectedIndices(mask)[k] == i
  {
    var n := |mask| - 1;
    var prefix := SelectedIndices(mask[..n]);
    assert SelectedIndices(mask) == prefix + (if mask[n] then [n] else []);
    if i == n {
      assert SelectedIndices(mask)[|prefix|] == i;
    } else {
      assert mask[..n][i];
      SelectedIndexOf(mask[..n], i);
      var k :| 0 <= k < |prefix| && prefix[k] == i;
      assert SelectedIndices(mask)[k] == i;
    }
  }

  // ---------------------------------------------------------------------
  // Projections of one frame

  /** Parallel pixel-index and value lists for one scan position. */
  datatype Projection = Projection(pxY: seq<int>, pxX: seq<int>, values: seq<real>)
  {
    predicate Aligned()
    {
      |pxX| == |pxY| && |values| == |pxY|
    }
  }

  /** The back-projection of every detector pixel to the scan plane for one
      scan position: plane coordinates and the acceptance mask. */
  function PlaneRays(model: seq<Element>, detCoords: seq<(real, real)>, scanPos: (real, real), num: Numerics)
    : (seq<real>, seq<real>, seq<bool>)
    requires FourdstemModel(model) && model[0].PointSource?
  {
    var t := SolveModelFourdstemWrapper(model, scanPos, num);
    num.rayCoordsAtPlane(model[0].semiConv, scanPos, detCoords, t.total, t.detectorToScanGrid)
  }

  /** The plane coordinates and the mask have one entry per detector pixel. */
  predicate PlaneRaysFit(model: seq<Element>, detCoords: seq<(real, real)>, scanPos: (real, real), num: Numerics, n: nat)
    requires FourdstemModel(model) && model[0].PointSource?
  {
    var c := PlaneRays(model, detCoords, scanPos, num);
    |c.0| == n && |c.1| == n && |c.2| == n
  }

  /** Converts parallel metre coordinates to pixel indices one pair at a
      time; the pair is passed in the order it is listed and the result is
      read as (row, column). */
  function ToPixels(num: Numerics, g: Grid, first: seq<real>, second: seq<real>): (px: (seq<int>, seq<int>))
    requires |second| == |first|
    ensures |px.0| == |first| && |px.1| == |first|
    ensures forall k :: 0 <= k < |first| ==> (px.0[k], px.1[k]) == num.metresToPixels(g, first[k], second[k])
  {
    (seq(|first|, k requires 0 <= k < |first| => num.metresToPixels(g, first[k], second[k]).0),
     seq(|first|, k requires 0 <= k < |first| => num.metresToPixels(g, first[k], second[k]).1))
  }

  /** Back-projects one detector frame: the accepted pixels' scan-plane
      coordinates become scan-grid pixel indices, paired with the frame's
      intensities at those pixels. */
  function ProjectFrameBackward(model: seq<Element>, detCoords: seq<(real, real)>, detFrame: seq<real>,
                                scanPos: (real, real), num: Numerics): (p: Projection)
    requires FourdstemModel(model) && model[0].PointSource? && model[1].ScanGrid?
    requires PlaneRaysFit(model, detCoords, scanPos, num, |detFrame|)
    ensures p.Aligned()
  {
    var c := PlaneRays(model, detCoords, scanPos, num);
    var scanRaysX := Select(c.0, c.2);
    var scanRaysY := Select(c.1, c.2);
    var detValues := Select(detFrame, c.2);
    var px := ToPixels(num, model[1].scanGrid, scanRaysX, scanRaysY);
    Projection(px.0, px.1, detValues)
  }

  /** Entry k of the backward projection is the k-th accepted detector
      pixel: its intensity, and the scan-grid pixel of its scan-plane point. */
  lemma BackwardKeepsAcceptedPixels(model: seq<Element>, detCoords: seq<(real, real)>, detFrame: seq<real>,
                                    scanPos: (real, real), num: Numerics)
    requires FourdstemModel(model) && model[0].PointSource? && model[1].ScanGrid?
    requires PlaneRaysFit(model, detCoords, scanPos, num, |detFrame|)
    ensures var p := ProjectFrameBackward(model, detCoords, detFrame, scanPos, num);
      var c := PlaneRays(model, detCoords, scanPos, num);
      var idx := SelectedIndices(c.2);
      |p.values| == |idx| &&
      forall k :: 0 <= k < |idx| ==>
        p.values[k] == detFrame[idx[k]] &&
        (p.pxY[k], p.pxX[k]) == num.metresToPixels(model[1].scanGrid, c.0[idx[k]], c.1[idx[k]])
  {
  }

  /** Forward-projects one scan position: each accepted detector pixel gets
      the sample value at its ray's scan-plane point (sampled as (y, x)),
      and the detector pixel indices of its own coordinate. */
  function ProjectFrameForward(model: seq<Element>, detCoords: seq<(real, real)>, interpolant: (real, real) -> real,
                               scanPos: (real, real), num: Numerics): (p: Projection)
    requires FourdstemModel(model) && model[0].PointSource? && model[3].Detector?
    requires PlaneRaysFit(model, detCoords, scanPos, num, |detCoords|)
    ensures p.Aligned()
  {
    var c := PlaneRays(model, detCoords, scanPos, num);
    var scanRaysX := Select(c.0, c.2);
    var scanRaysY := Select(c.1, c.2);
    var detRays := Select(detCoords, c.2);
    var sampleValues := seq(|scanRaysY|, k requires 0 <= k < |scanRaysY| => interpolant(scanRaysY[k], scanRaysX[k]));
    var detRaysX := seq(|detRays|, k requires 0 <= k < |detRays| => detRays[k].0);
    var detRaysY := seq(|detRays|, k requires 0 <= k < |detRays| => detRays[k].1);
    var px := ToPixels(num, model[3].detGrid, detRaysX, detRaysY);
    Projection(px.0, px.1, sampleValues)
  }

  /** Entry k of the forward projection is the k-th accepted detector
      pixel: its own detector pixel indices, and the sample value at its
      ray's scan-plane point. */
  lemma ForwardSamplesAcceptedPixels(model: seq<Element>, detCoords: seq<(real, real)>, interpolant: (real, real) -> real,
                                     scanPos: (real, real), num: Numerics)
    requires FourdstemModel(model) && model[0].PointSource? && model[3].Detector?
    requires PlaneRaysFit(model, detCoords, scanPos, num, |detCoords|)
    ensures var p := ProjectFrameForward(model, detCoords, interpolant, scanPos, num);
      var c := PlaneRays(model, detCoords, scanPos, num);
      var idx := SelectedIndices(c.2);
      |p.values| == |idx| &&
      forall k :: 0 <= k < |idx| ==>
        p.values[k] == interpolant(c.1[idx[k]], c.0[idx[k]]) &&
        (p.pxY[k], p.pxX[k]) == num.metresToPixels(model[3].detGrid, detCoords[idx[k]].0, detCoords[idx[k]].1)
  {
  }

  // ---------------------------------------------------------------------
  // Filling the 4D dataset

  /** Every pixel index of a projection lies inside an h x w frame. */
  predicate InFrame(p: Projection, h: int, w: int)
  {
    p.Aligned() && forall k :: 0 <= k < |p.pxY| ==> 0 <= p.pxY[k] < h && 0 <= p.pxX[k] < w
  }

  /** `data[s, pxY, pxX] = values`: writes the projection into slice s,
      later entries overwriting earlier ones at the same pixel. */
  method WriteSlice(data: array3<real>, s: int, p: Projection)
    requires 0 <= s < data.Length0 && InFrame(p, data.Length1, data.Length2)
    modifies data
    ensures forall t, y, x :: 0 <= t < data.Length0 && 0 <= y < data.Length1 && 0 <= x < data.Length2 ==>
      data[t, y, x] == if t == s then LastWrite(p.pxY, p.pxX, p.values, |p.pxY|, y, x, old(data[t, y, x]))
                       else old(data[t, y, x])
  {
    for k := 0 to |p.pxY|
      invariant forall t, y, x :: 0 <= t < data.Length0 && 0 <= y < data.Length1 && 0 <= x < data.Length2 ==>
        data[t, y, x] == if t == s then LastWrite(p.pxY, p.pxX, p.values, k, y, x, old(data[t, y, x]))
                         else old(data[t, y, x])
    {
      data[s, p.pxY[k], p.pxX[k]] := p.values[k];
    }
  }

  /** The forward projection for every scan position fits the dataset's
      frames; the indexed writes are not bounds-checked. */
  predicate ForwardFits(model: seq<Element>, detCoords: seq<(real, real)>, interpolant: (real, real) -> real,
                        scanCoords: seq<(real, real)>, num: Numerics, n: int, h: int, w: int)
    requires FourdstemModel(model) && model[0].PointSource? && model[3].Detector?
  {
    n <= |scanCoords| &&
    forall s :: 0 <= s < n ==>
      PlaneRaysFit(model, detCoords, scanCoords[s], num, |detCoords|) &&
      InFrame(ProjectFrameForward(model, detCoords, interpolant, scanCoords[s], num), h, w)
  }

  /** The scan positions, read from the scan grid `model[1]` in row-major
      pixel order; `toMetres` is its pixel-to-metre transform. */
  function ScanCoords(model: seq<Element>, toMetres: (int, int) -> (real, real)): (c: seq<(real, real)>)
    requires |model| >= 2 && model[1].ScanGrid?
    ensures |c| == model[1].scanGrid.shapeY * model[1].scanGrid.shapeX
  {
    RasterLength(model[1].scanGrid.shapeY, model[1].scanGrid.shapeX, toMetres);
    Coords(model[1].scanGrid, toMetres)
  }

  /** The detector pixel coordinates, read from the last element of the
      model, `model[-1]`, in row-major pixel order. */
  function DetCoords(model: seq<Element>, toMetres: (int, int) -> (real, real)): seq<(real, real)>
    requires |model| >= 1 && model[|model| - 1].Detector?
  {
    Coords(model[|model| - 1].detGrid, toMetres)
  }

  /** Simulates a 4D-STEM dataset: frame s is the forward projection at
      scan pixel (s div width, s mod width) of the scan grid, written over
      what the array held, so every pixel holds the last sample value
      aimed at it, and untouched pixels keep their initial value. */
  method ComputeFourdstemDataset(model: seq<Element>, interpolant: (real, real) -> real, num: Numerics,
                                 scanToMetres: (int, int) -> (real, real), detToMetres: (int, int) -> (real, real),
                                 data: array3<real>)
    returns (result: array3<real>)
    requires FourdstemModel(model) && model[0].PointSource? && model[1].ScanGrid? && model[3].Detector?
    requires model[|model| - 1].Detector?
    requires ForwardFits(model, DetCoords(model, detToMetres), interpolant, ScanCoords(model, scanToMetres), num,
                         data.Length0, data.Length1, data.Length2)
    modifies data
    ensures result == data
    ensures forall s :: 0 <= s < data.Length0 ==>
      var width := model[1].scanGrid.shapeX;
      ScanCoords(model, scanToMetres)[s] == scanToMetres(s / width, s % width)
    ensures forall s, y, x :: 0 <= s < data.Length0 && 0 <= y < data.Length1 && 0 <= x < data.Length2 ==>
      var p := ProjectFrameForward(model, DetCoords(model, detToMetres), interpolant,
                                   ScanCoords(model, scanToMetres)[s], num);
      data[s, y, x] == LastWrite(p.pxY, p.pxX, p.values, |p.pxY|, y, x, old(data[s, y, x]))
  {
    var scanCoords := ScanCoords(model, scanToMetres);
    var detCoords := DetCoords(model, detToMetres);
    for s := 0 to data.Length0
      invariant forall t, y, x :: 0 <= t < data.Length0 && 0 <= y < data.Length1 && 0 <= x < data.Length2 ==>
        data[t, y, x] == if t < s then
          var p := ProjectFrameForward(model, detCoords, interpolant, scanCoords[t], num);
          LastWrite(p.pxY, p.pxX, p.values, |p.pxY|, y, x, old(data[t, y, x]))
        else old(data[t, y, x])
    {
      var p := ProjectFrameForward(model, detCoords, interpolant, scanCoords[s], num);
      WriteSlice(data, s, p);
    }
    result := data;
    ScanPositionsInRasterOrder(model, scanToMetres, data.Length0);
  }

  /** Scan position s is the image of scan pixel (s div width, s mod width). */
  lemma ScanPositionsInRasterOrder(model: seq<Element>, toMetres: (int, int) -> (real, real), n: nat)
    requires |model| >= 2 && model[1].ScanGrid? && n <= |ScanCoords(model, toMetres)|
    ensures forall s :: 0 <= s < n ==>
      var width := model[1].scanGrid.shapeX;
      ScanCoords(model, toMetres)[s] == toMetres(s / width, s % width)
  {
    var g := model[1].scanGrid;
    forall s | 0 <= s < n
      ensures ScanCoords(model, toMetres)[s] == toMetres(s / g.shapeX, s % g.shapeX)
    {
      RasterOrder(g.shapeY, g.shapeX, toMetres, s);
    }
  }

  // ---------------------------------------------------------------------
  // Collecting back-projected pixels

  /** The backward projection fits every frame of the dataset. */
  predicate BackwardFits(model: seq<Element>, detCoords: seq<(real, real)>, frames: seq<seq<real>>,
                         scanCoords: seq<(real, real)>, num: Numerics)
    requires FourdstemModel(model) && model[0].PointSource?
  {
    |frames| <= |scanCoords| &&
    forall i :: 0 <= i < |frames| ==> PlaneRaysFit(model, detCoords, scanCoords[i], num, |frames[i]|)
  }

  /** Back-projects every frame (each given flattened, in row-major order)
      and collects the three per-scan lists: entry i comes from frame i at
      scan position i of the scan grid, with the detector coordinates of
      the model's last element. */
  method ComputeScanGridRaysAndIntensities(model: seq<Element>, frames: seq<seq<real>>, num: Numerics,
                                           scanToMetres: (int, int) -> (real, real), detToMetres: (int, int) -> (real, real))
    returns (samplePxYs: seq<seq<int>>, samplePxXs: seq<seq<int>>, intensities: seq<seq<real>>)
    requires FourdstemModel(model) && model[0].PointSource? && model[1].ScanGrid? && model[|model| - 1].Detector?
    requires BackwardFits(model, DetCoords(model, detToMetres), frames, ScanCoords(model, scanToMetres), num)
    ensures |samplePxYs| == |frames| && |samplePxXs| == |frames| && |intensities| == |frames|
    ensures forall i :: 0 <= i < |frames| ==>
      var p := ProjectFrameBackward(model, DetCoords(model, detToMetres), frames[i], ScanCoords(model, scanToMetres)[i], num);
      samplePxYs[i] == p.pxY && samplePxXs[i] == p.pxX && intensities[i] == p.values
  {
    var scanCoords := ScanCoords(model, scanToMetres);
    var detCoords := DetCoords(model, detToMetres);
    samplePxYs, samplePxXs, intensities := CollectBackProjections(model, frames, scanCoords, detCoords, num);
  }

  /** Frame i's backward projection, at scan position i. */
  function BackProjection(model: seq<Element>, frames: seq<seq<real>>, scanCoords: seq<(real, real)>,
                          detCoords: seq<(real, real)>, num: Numerics, i: nat): Projection
    requires FourdstemModel(model) && model[0].PointSource? && model[1].ScanGrid?
    requires BackwardFits(model, detCoords, frames, scanCoords, num) && i < |frames|
  {
    ProjectFrameBackward(model, detCoords, frames[i], scanCoords[i], num)
  }

  /** The loop of the collector: appends frame idx's backward projection
      to the three lists, for idx from 0 up to the number of frames. */
  method CollectBackProjections(model: seq<Element>, frames: seq<seq<real>>, scanCoords: seq<(real, real)>,
                                detCoords: seq<(real, real)>, num: Numerics)
    returns (samplePxYs: seq<seq<int>>, samplePxXs: seq<seq<int>>, intensities: seq<seq<real>>)
    requires FourdstemModel(model) && model[0].PointSource? && model[1].ScanGrid?
    requires BackwardFits(model, detCoords, frames, scanCoords, num)
    ensures |samplePxYs| == |frames| && |samplePxXs| == |frames| && |intensities| == |frames|
    ensures forall i :: 0 <= i < |frames| ==>
      var p := ProjectFrameBackward(model, detCoords, frames[i], scanCoords[i], num);
      samplePxYs[i] == p.pxY && samplePxXs[i] == p.pxX && intensities[i] == p.values
  {
    samplePxYs, samplePxXs, intensities := [], [], [];
    var idx := 0;
    while idx < |frames|
      invariant 0 <= idx <= |frames|
      invariant |samplePxYs| == idx && |samplePxXs| == idx && |intensities| == idx
      invariant forall i :: 0 <= i < idx ==>
        samplePxYs[i] == BackProjection(model, frames, scanCoords, detCoords, num, i).pxY
      invariant forall i :: 0 <= i < idx ==>
        samplePxXs[i] == BackProjection(model, frames, scanCoords, detCoords, num, i).pxX
      invariant forall i :: 0 <= i < idx ==>
        intensities[i] == BackProjection(model, frames, scanCoords, detCoords, num, i).values
    {
      var p := BackProjection(model, frames, scanCoords, detCoords, num, idx);
      samplePxYs := samplePxYs + [p.pxY];
      samplePxXs := samplePxXs + [p.pxX];
      intensities := intensities + [p.values];
      idx := idx + 1;
    }
  }

  // ---------------------------------------------------------------------
  // Shifted sum

  /** Adds intensity i into image[y_i, x_i] for every entry whose pixel is
      inside the image, drops the others, and hands back the same array. */
  method ShiftedSum(image: array2<real>, ys: seq<int>, xs: seq<int>, vals: seq<real>) returns (result: array2<real>)
    requires |xs| >= |ys| && |vals| >= |ys|
    modifies image
    ensures result == image
    ensures forall y, x :: 0 <= y < image.Length0 && 0 <= x < image.Length1 ==>
      image[y, x] == old(image[y, x]) + HitSum(ys, xs, KeepAll(|ys|), vals, |ys|, y, x)
  {
    var height, width := image.Length0, image.Length1;
    var n := |ys|;
    for i := 0 to n
      invariant forall y, x :: 0 <= y < height && 0 <= x < width ==>
        image[y, x] == old(image[y, x]) + HitSum(ys, xs, KeepAll(n), vals, i, y, x)
    {
      var y, x := ys[i], xs[i];
      if y >= 0 && y < height && x >= 0 && x < width {
        image[y, x] := image[y, x] + vals[i];
      }
    }
    result := image;
  }

  /** The per-scan lists laid end to end, as they are flattened before the
      shifted sum. */
  function Flatten<T>(lists: seq<seq<T>>): (flat: seq<T>)
  {
    if |lists| == 0 then [] else Flatten(lists[..|lists| - 1]) + lists[|lists| - 1]
  }

  /** The per-scan lists of one scan position have equal lengths. */
  predicate AlignedScans(ys: seq<seq<int>>, xs: seq<seq<int>>, vals: seq<seq<real>>)
  {
    |xs| == |ys| && |vals| == |ys| &&
    forall i :: 0 <= i < |ys| ==> |xs[i]| == |ys[i]| && |vals[i]| == |ys[i]|
  }

  /** What the scan positions contribute to pixel (y, x), one scan at a time. */
  function ScanTotal(ys: seq<seq<int>>, xs: seq<seq<int>>, vals: seq<seq<real>>, y: int, x: int): real
    requires AlignedScans(ys, xs, vals)
  {
    if |ys| == 0 then 0.0
    else
      var m := |ys| - 1;
      ScanTotal(ys[..m], xs[..m], vals[..m], y, x)
        + HitSum(ys[m], xs[m], KeepAll(|ys[m]|), vals[m], |ys[m]|, y, x)
  }

  /** Shifted-summing the flattened lists adds to each pixel the sum of
      every scan position's own contribution, whatever order the scans are
      laid out in. */
  lemma {:induction false} FlattenedSumIsScanTotal(ys: seq<seq<int>>, xs: seq<seq<int>>, vals: seq<seq<real>>, y: int, x: int)
    requires AlignedScans(ys, xs, vals)
    ensures |Flatten(xs)| == |Flatten(ys)| && |Flatten(vals)| == |Flatten(ys)|
    ensures HitSum(Flatten(ys), Flatten(xs), KeepAll(|Flatten(ys)|), Flatten(vals), |Flatten(ys)|, y, x)
            == ScanTotal(ys, xs, vals, y, x)
  {
    if |ys| > 0 {
      var m := |ys| - 1;
      FlattenedSumIsScanTotal(ys[..m], xs[..m], vals[..m], y, x);
      var fy, fx, fv := Flatten(ys[..m]), Flatten(xs[..m]), Flatten(vals[..m]);
      assert Flatten(ys) == fy + ys[m] && Flatten(xs) == fx + xs[m] && Flatten(vals) == fv + vals[m];
      assert KeepAll(|fy| + |ys[m]|) == KeepAll(|fy|) + KeepAll(|ys[m]|);
      HitSumAppend(fy, fx, KeepAll(|fy|), fv, ys[m], xs[m], KeepAll(|ys[m]|), vals[m], y, x);
    }
  }
}
