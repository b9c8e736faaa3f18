# Ray optics and 4D-STEM rasterisation of JaxTemGym, in Dafny

This project models the exact-arithmetic core of JaxTemGym, a ray-tracing
simulator for transmission electron microscopes:

- `ray.dfy` (module `Rays`): the ray record and free-space propagation
  (`src/jaxgym/ray.py`).
- `transfer.dfy` (module `Transfer`): 5x5 transfer matrices acting on the
  ray vector `[x, y, dx, dy, 1]`.
- `components.dfy` (module `Components`): the optical elements as one closed
  datatype with a single `Step`, each element's closed-form transfer matrix,
  and the row-major pixel order of the scan-grid and detector coordinate
  lists (`src/jaxgym/components.py`).
- `raster.dfy` (module `Rasters`): what a scatter-add and a scatter-write
  leave in one pixel, stated over parallel index and value lists.
- `calibration.dfy` (module `Calibration`): the source-slope solver, the ray
  acceptance mask, back-projection to a plane, the in-place frame sum and
  the disk-diameter check (`src/microscope_calibration/stemoverfocus.py`).
- `stemoverfocus.dfy` (module `StemOverfocus`): the per-scan-position
  transfer matrices, the forward and backward projections of one frame, the
  loops that fill a 4D dataset and collect back-projected pixels, and the
  shifted sum (`src/jaxgym/stemoverfocus.py`).

Pure code is modelled as functions and lemmas. The loops are methods:

- `inplace_sum` and `do_shifted_sum` scatter-add into an `array2`. Both are
  proved against the specification function `HitSum`.
- `compute_fourdstem_dataset` scatter-writes into an `array3`. It is proved
  against `LastWrite`.
- `compute_scan_grid_rays_and_intensities` appends to three sequences. It
  is proved against the per-frame function `ProjectFrameBackward`.

Some computations are called but their code is not part of this model:
`solve_model`, `accumulate_transfer_matrices`, `jnp.linalg.inv`, the
`ray_coords_at_plane` of the `propagate` module, `transfer_rays`,
`metres_to_pixels`, the pixel-to-metre transform and `sample_interpolant`.
They enter as function-valued parameters. The `Numerics` datatype bundles
those the 4D-STEM pipeline needs. The model only applies them.

Where parts of the code disagree with each other, the model follows the
code that runs:

- **`mask_rays` strict test.** The docstring of `mask_rays`
  (src/microscope_calibration/stemoverfocus.py:172-176) names
  `semi_conv < min_alpha` as the edge case. The code tests
  `semi_conv > min_alpha` (line 195) to keep the whole mask, so equality
  also falls into the single-ray branch. The model uses the code's test.
- **Argument order at `metres_to_pixels`.** Every caller passes the x list
  first:
  - `[scan_rays_x, scan_rays_y]` at src/jaxgym/stemoverfocus.py:93 and
    src/microscope_calibration/stemoverfocus.py:277;
  - `[det_rays_x, det_rays_y]` at src/jaxgym/stemoverfocus.py:127.

  Both `metres_to_pixels` methods unpack their argument as `(y, x)`
  (src/jaxgym/components.py:225 and 394). The model passes the pair in the
  order the callers list it.
- **First coordinate of a scan position.** `get_coords` stacks each
  coordinate as `(y, x)` (src/jaxgym/components.py:214). The wrapper reads
  `scan_pos_m[0]` as x (src/jaxgym/stemoverfocus.py:27). The model does
  what the wrapper does.
- **The reference ray's `matrix`.** The wrapper builds its reference ray as
  `Ray(z=..., matrix=[scan_x, scan_y, 0, 0, 1], pathlength=...)`
  (src/jaxgym/stemoverfocus.py:29-35). The `Ray` of src/jaxgym/ray.py:6-13
  has no `matrix` field; it has `x`, `y`, `dx`, `dy`, `z`, `pathlength` and
  `_one`. `StemOverfocus.ReferenceRay` reads `matrix` as
  `[x, y, dx, dy, _one]`.
- **Which element is the detector.** `compute_fourdstem_dataset` and
  `compute_scan_grid_rays_and_intensities` take the detector coordinates
  from the last element, `model[-1]` (src/jaxgym/stemoverfocus.py:136 and
  154). `project_frame_forward` converts metres to pixels with `model[3]`
  (line 104). These are different elements when the model has more than
  four. The model keeps both reads.

## Model

| member | source | states |
|---|---|---|
| Rays.PropagateMoves | src/jaxgym/ray.py:38-48 | propagation keeps the slopes, `one` and the carried fields, moves x and y by slope times distance, and advances z and the path length by the distance |
| Rays.PropagateZero | src/jaxgym/ray.py:38-48 | propagating by 0 is the identity on every field |
| Rays.PropagateCompose | src/jaxgym/ray.py:38-48 | propagating by a then b equals propagating by a + b |
| Rays.PropagateBack | src/jaxgym/ray.py:38-48 | propagating by L then by -L restores the ray |
| Rays.DirCosineAdvancesZ | src/jaxgym/ray.py:16-35 | direction-cosine propagation keeps the slopes and `one`, sets z to z*one + distance, and so advances z by the distance when one == 1 |
| Rays.DirCosineOnAxis | src/jaxgym/ray.py:16-35 | on the axis (zero slopes, one == 1), N is 1 and direction-cosine propagation coincides with paraxial propagation |
| Components.StepIsAffine | src/jaxgym/components.py:23-156 | for every valid element and every ray with one == 1, the new ray vector [x, y, dx, dy, one] is the element's transfer matrix times the old one (the identity for the aperture and the passive elements) |
| Components.LensIsAffine | src/jaxgym/components.py:23-37 | the thin-lens step is the matrix with -1/f in the slope rows |
| Components.DescannerIsAffine | src/jaxgym/components.py:74-97 | the descanner step is the matrix of its eight error terms plus the offset column |
| Components.DeflectorIsAffine | src/jaxgym/components.py:106-118 | the deflector step is the identity plus the kick column |
| Components.RotatorIsAffine | src/jaxgym/components.py:125-142 | the rotator step is the block rotation by (cos, sin) of position and slopes |
| Components.DoubleDeflectorIsAffine | src/jaxgym/components.py:150-156 | the double deflector step (first kick, drift over z2 - z1, second kick) is its matrix: the position gains (z2 - z1) times the kicked slope, and the slopes gain both kicks |
| Components.DoubleDeflectorIsProduct | src/jaxgym/components.py:150-156 | the double deflector's matrix is the product: second kick, times the drift over z2 - z1, times the first kick |
| Components.LensOnAxis | src/jaxgym/components.py:23-37 | a lens keeps x, y, z and blocked; on the axis it also keeps the slopes and the path length |
| Components.LensFocusesParallelRays | src/jaxgym/components.py:23-37 | a ray parallel to the axis, after the lens, crosses the axis one focal length later |
| Components.LensImagesAxialPoint | src/jaxgym/components.py:23-37 | when 1/u + 1/v == 1/f, every ray leaving an axial point at distance u meets the axis again at distance v behind the lens |
| Components.ThickLensAsLens | src/jaxgym/components.py:46-65 | the thick lens gives the thin lens's ray with z shifted by -(z_po - z_pi), and sits at z_po |
| Components.DescannerWithoutError | src/jaxgym/components.py:74-97 | with all error terms zero, the descanner translates the position by the offsets, keeps the slopes and subtracts offset_x*x + offset_y*y from the path length |
| Components.DeflectorKicks | src/jaxgym/components.py:106-118 | a deflector keeps the position and z, adds (def_x, def_y) to the slopes, and adds dx*x + dy*y of the incoming ray to the path length |
| Components.DoubleDeflectorSamePlane | src/jaxgym/components.py:150-156 | two deflectors at the same plane keep the position and add both kicks to the slopes |
| Components.ApertureBlocks | src/jaxgym/components.py:270-286 | the aperture keeps the ray vector, z and path length; it sets blocked to 1 outside the radius and keeps it otherwise |
| Components.BlockedNeverClears | src/jaxgym/components.py:23-286 | no element step turns a blocked flag into anything but itself or 1 |
| Components.PassiveElements | src/jaxgym/components.py:160-357 | input plane, point source and scan grid (lines 160-189) and the detector (lines 356-357) return the ray unchanged |
| Components.ApertureIsSqrtTest | src/jaxgym/components.py:273-280 | for every radius, the squared-distance test is the same as the test sqrt(distance^2) > radius |
| Components.RotatorKeepsRadii | src/jaxgym/components.py:125-142 | a proper rotation keeps the squared radius of position and of slopes, and the path length |
| Components.RasterOrder | src/jaxgym/components.py:191-216 | the coordinate list has rows*width entries, and entry k is the image of pixel (k div width, k mod width) |
| Components.CoordsOfPixel | src/jaxgym/components.py:360-385 | pixel (y, x) of a grid is entry y*width + x of its coordinate list |
| Rasters.HitSumMissed | src/microscope_calibration/stemoverfocus.py:283-290 | a pixel no kept entry aims at receives nothing |
| Rasters.HitSumAppend | src/jaxgym/stemoverfocus.py:182-186 | scatter-adding P ++ Q adds the sum of what P and Q add separately |
| Rasters.HitSumCommutes | src/jaxgym/stemoverfocus.py:182-186 | the result does not depend on the order of two contribution lists |
| Rasters.LastWriteUntouched | src/jaxgym/stemoverfocus.py:145 | a pixel no write aims at keeps its value |
| Rasters.LastWriteWins | src/jaxgym/stemoverfocus.py:145 | a pixel holds the value of the last write aimed at it |
| Calibration.FindInputSlopes | src/microscope_calibration/stemoverfocus.py:38-63 | one slope pair per detector coordinate, each depending only on its own coordinate |
| Calibration.FindInputSlopesLand | src/microscope_calibration/stemoverfocus.py:16-65 | feeding each returned slope pair through rows 0 and 1 of the matrix gives back its detector coordinate |
| Calibration.SlopeForUnique | src/microscope_calibration/stemoverfocus.py:40-61 | a slope pair lands on a detector coordinate if and only if it is the pair the solver returns |
| Calibration.SolveSlopesIsCramer | src/microscope_calibration/stemoverfocus.py:40-61 | the source's expanded numerators are Cramer's rule on out - A*pos - delta |
| Calibration.SolveSlopesLands | src/microscope_calibration/stemoverfocus.py:40-61 | over the named matrix entries, the source's slope formulas satisfy both landing equations A*pos + B*theta + delta == out |
| Calibration.SlopeForLands | src/microscope_calibration/stemoverfocus.py:40-61 | A*pos + B*theta + delta equals the detector coordinate for the solved theta |
| Calibration.ArgMaxFindsFirstTrue | src/microscope_calibration/stemoverfocus.py:148 | argmax of a boolean sequence is its first true position, or 0 when it has none |
| Calibration.SelectLastRay | src/microscope_calibration/stemoverfocus.py:146-157 | the output has the input's length, and entry i is true exactly when i is the last true entry of the input |
| Calibration.SelectLastRayKeepsAtMostOne | src/microscope_calibration/stemoverfocus.py:146-157 | the output is pointwise at most the input, has at most one true entry, and is all false when the input is |
| Calibration.MaskRays | src/microscope_calibration/stemoverfocus.py:189-199 | when semi_conv > min_alpha, entry i is r_i^2 <= max(semi_conv^2, min_alpha^2); otherwise it is true only for the last entry passing that test |
| Calibration.WideBeamMask | src/microscope_calibration/stemoverfocus.py:189-199 | with 0 <= min_alpha < semi_conv, exactly the slopes inside the beam cone are kept |
| Calibration.NarrowBeamKeepsOne | src/microscope_calibration/stemoverfocus.py:173-177 | when semi_conv <= min_alpha, at most one ray is kept |
| Calibration.DetectorRayOnPixel | src/microscope_calibration/stemoverfocus.py:115-121 | the detector-plane ray built from the solved slopes sits exactly on its detector pixel |
| Calibration.RayCoordsAtPlane | src/microscope_calibration/stemoverfocus.py:68-135 | one plane point per detector pixel, the target matrix applied to that pixel's detector-plane ray; the mask is the acceptance mask of the solved slopes with camera length (T[0,2] + T[1,3]) / 2 |
| Calibration.InplaceSum | src/microscope_calibration/stemoverfocus.py:282-290 | every cell gains the sum of the frame values of the kept entries aimed at it; masked-out and out-of-range entries are dropped |
| Calibration.DiskDiameters | src/microscope_calibration/stemoverfocus.py:293-315 | the two diameters differ by camera_length*2*semi_conv and do not depend on the scan step or pixel size, since the warnings are never raised |
| StemOverfocus.SolveModelFourdstemWrapper | src/jaxgym/stemoverfocus.py:18-66 | the matrices come from the reference ray at the source plane and the rebuilt model; the total matrix accumulates indices 0 to 3 and the detector-to-scan matrix inverts the accumulation of 1 to 3 |
| StemOverfocus.ScanModelDescans | src/jaxgym/stemoverfocus.py:38-47 | the rebuilt model keeps source, scan grid and detector and puts a descanner at the scan grid's z with the original error and the scan position as offsets; without error it shifts rays by the scan position |
| StemOverfocus.WrapperIgnoresOldDescanner | src/jaxgym/stemoverfocus.py:21-47 | the matrices depend on the given descanner only through its descan error, and elements after the fourth are never read |
| StemOverfocus.SelectedIndices | src/jaxgym/stemoverfocus.py:88-90 | the positions a mask selects are in range, kept by the mask and strictly increasing |
| StemOverfocus.SelectedIndicesExact | src/jaxgym/stemoverfocus.py:88-90 | a position is selected if and only if the mask keeps it, and then exactly once |
| StemOverfocus.SelectedIndexOf | src/jaxgym/stemoverfocus.py:88-90 | every position the mask keeps occurs among the selected positions |
| StemOverfocus.Select | src/jaxgym/stemoverfocus.py:88-90 | boolean indexing returns the entries at the selected positions, in order |
| StemOverfocus.ProjectFrameBackward | src/jaxgym/stemoverfocus.py:69-95 | the three returned lists have equal lengths |
| StemOverfocus.BackwardKeepsAcceptedPixels | src/jaxgym/stemoverfocus.py:88-95 | entry k of the backward projection is the k-th accepted detector pixel: its intensity, and the scan-grid pixel of its scan-plane point |
| StemOverfocus.ProjectFrameForward | src/jaxgym/stemoverfocus.py:98-129 | the three returned lists have equal lengths |
| StemOverfocus.ForwardSamplesAcceptedPixels | src/jaxgym/stemoverfocus.py:117-129 | entry k of the forward projection is the k-th accepted detector pixel: the sample value at its scan-plane point, sampled as (y, x), and its own detector pixel |
| StemOverfocus.WriteSlice | src/jaxgym/stemoverfocus.py:145 | slice s holds the last value written to each pixel; every other slice is unchanged |
| StemOverfocus.ScanPositionsInRasterOrder | src/jaxgym/stemoverfocus.py:136-142 | scan position s, read from the scan grid's coordinate list, is the image of scan pixel (s div width, s mod width) |
| StemOverfocus.ComputeFourdstemDataset | src/jaxgym/stemoverfocus.py:132-147 | frame s is for scan pixel (s div width, s mod width) of the scan grid; at each pixel it holds the last sample value that the forward projection aims there, using the last element's detector coordinates, or its initial value |
| StemOverfocus.ComputeScanGridRaysAndIntensities | src/jaxgym/stemoverfocus.py:150-171 | three lists with one entry per frame; entry i is the backward projection of frame i at the scan grid's position i, using the last element's detector coordinates |
| StemOverfocus.CollectBackProjections | src/jaxgym/stemoverfocus.py:158-169 | for given coordinate lists, the loop appends frame i's backward projection as entry i of each list |
| StemOverfocus.ShiftedSum | src/jaxgym/stemoverfocus.py:174-187 | every in-bounds cell gains the sum of the intensities aimed at it, out-of-bounds entries are dropped, and the same array is returned |
| StemOverfocus.FlattenedSumIsScanTotal | src/jaxgym/stemoverfocus.py:174-187 | shifted-summing the flattened per-scan lists adds, to each pixel, the sum of every scan position's own contribution |

## Left out

- `src/jaxgym/field.py` is not modelled. Its symbolic differentiation, ODE
  integration and splines are floating-point numerics in foreign libraries.
- The Biprism element is not modelled. Its step needs a vector norm and
  `nan_to_num`.
- `Rotator` stores the cosine and sine of its angle as two reals. The
  conversion from degrees and the trigonometry are not modelled.
- The aperture's `sqrt` is not computed. The model compares squared
  distances instead, and treats a negative radius as exceeded by every
  distance. `Components.ApertureIsSqrtTest` proves this is the same test
  over the reals.
- `Calibration.MaskRays` takes `min_alpha` as a parameter. `RayCoordsAtPlane`
  takes the minimum radius as a parameter. The `hypot` of the half pixel
  pitch and the `1e-12` margin are not modelled.
- `ray_matrix` is not defined in `src/jaxgym/ray.py`. The steps use a
  record update instead, so `one`, amplitude and wavelength pass through
  unchanged.
- `StemOverfocus.ReferenceRay` gives amplitude, wavelength and blocked
  neutral values (1, 0, 0). The source's ray has no such fields.
- `solve_model`, `accumulate_transfer_matrices`, `jnp.linalg.inv`,
  `transfer_rays` and the `ray_coords_at_plane` of the `propagate` module
  are not modelled. The model only applies them as function parameters.
- `Calibration.RayCoordsAtPlane` computes the detector-plane ray directly
  from the transfer matrix. It does not go through `transfer_rays`.
- The `try`/`except` around the inverse in `solve_model_fourdstem_wrapper`
  is dead code. `jnp.linalg.inv` does not raise, and the inverse is
  already computed one line earlier. The identity fallback is therefore
  not modelled.
- `metres_to_pixels` and the pixel-to-metre transform are not modelled.
  Their rounding to int32 is float-to-integer conversion. The two
  `pixels_to_metres` methods also disagree about which direction they
  apply. No round trip is claimed.
- `sample_interpolant` is modelled as a pointwise function of one (y, x)
  point.
- `StemOverfocus.ComputeScanGridRaysAndIntensities` takes each frame
  already flattened in row-major order.
- `StemOverfocus.ComputeFourdstemDataset` takes the dataset as an `array3`
  indexed by (flat scan index, detector row, detector column). On that
  shape, the write at src/jaxgym/stemoverfocus.py:145 sets one detector
  pixel per value, and the loop visits every scan position through
  `scan_coords[idx]`. Other array shapes are not modelled.
- `StemOverfocus.ComputeFourdstemDataset` requires every written pixel
  index to lie inside its frame. numpy's wrap-around of negative indices
  and its `IndexError` are not modelled.
- Division by zero is excluded by preconditions rather than modelled:
  - a focal length of 0;
  - a zero slope-solver determinant;
  - a zero camera length.
- `_select_last_ray` requires a non-empty mask. `argmax` of an empty array
  raises, and `lax.cond` evaluates both branches, so `mask_rays` requires
  it too.
- `lax.cond` is modelled as a plain conditional.
- `jax.jit`, `numba.njit`, `tqdm` progress bars and the `profile`
  decorator are not modelled. Neither is floating-point rounding.
- The Descanner in `src/microscope_calibration/stemoverfocus.py:222-227`
  uses a components module that is not part of this model. Its
  `solve_model_fourdstem_wrapper` is modelled in its
  `src/jaxgym/stemoverfocus.py` form only.
- `project_coordinates_backward` is not modelled. Its inputs come from the
  unmodelled `Model` class.
- The `Descanner` type annotation lists four error terms, but its step
  unpacks eight. The model follows the step.
