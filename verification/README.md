# Observation synthesis core of osimo, modelled in Dafny

This project models the core of `pmodes/sobs.py`, the synthetic-observation
module of osimo. It has five parts:

- **Channel scheduler** (`scheduler.dfy`, module `ChannelScheduler`). It
  splits the `linenlam` velocity channels into one contiguous block per
  worker process (`divide_threads`). It picks the largest worker count that
  divides the channels evenly (`find_proper_nthread`). It records the first
  and last sample value of each block (`calc_thread_seps`).
- **Camera geometry** (`camera.dfy`, module `CameraGeometry`). This is the
  channel count `linenlam` and `set_camera_info`. The latter derives the
  pixel counts and the `zoomau` field-of-view boxes. It rejects non-square
  pixels. Class `ObsSimulator` holds the fields these update.
- **Partition merge** (`merge.dfy`, module `ImageMerger`). This is the loop
  in `observe` that folds the per-worker radmc3dPy images into the first
  one, in partition order. Class `RadmcImage` is the image object that loop
  mutates.
- **Cube axes** (`cube.dfy`, module `ObservationCube`). This is
  `FitsAnalyzer.__init__`. It builds centred position axes from the header,
  and it picks the velocity formula by the `CRVAL3 > 1e8` test. Then it
  flips every axis whose spacing is negative, flipping the data cube along
  the matching dimension too. Class `FitsAnalyzer` holds that state.
- **Shared pieces** (`common.dfy`, module `Common`). These are the Python
  exceptions as an `Error` datatype, `Result`/`Outcome`, Python 2 `round`,
  `sum` and `np.flip`.

Exceptions are modelled as values. `Result.Err` or `Outcome.Fail` carries
the exception the Python code would raise: ZeroDivisionError, IndexError,
the ValueError of `max([])` or of `np.append`, and "dx is not equal to dy".
Floating-point numbers are modelled as exact `real`s.

Three behaviours of the code are worth stating up front:
- `divide_threads` hands the leftover channels to the two **ends** of the
  worker range, alternating front and back and moving inward; for example
  `divide_threads(4, 21) == [6, 5, 5, 5]`.
- `FitsAnalyzer.__init__` checks nothing after normalising the axes, so no
  error reports an axis that is still not increasing. `LoadedAxesIncreasing`
  shows when the axes are in fact strictly increasing: every spacing is
  non-zero.
- The merge loop has no explicit check of spatial dimensions. The only
  failure is the ValueError that `np.append` raises when the arrays differ
  off the channel axis. `AppendChannels` models that ValueError.

## Model

| member | source | states |
|---|---|---|
| `Common.PyRound` | pmodes/sobs.py:69 | int(round(x)) under Python 2 returns an integer within 1/2 of its argument, and a tie goes away from zero |
| `Common.Sum` | pmodes/sobs.py:126-129 | the running `sum_points` total: the sum of a list folded from the left |
| `Common.Reverse` | pmodes/sobs.py:328 | np.flip of a 1-D array (or along its first axis): element i is element len-1-i of the input |
| `ChannelScheduler.DivideThreads` | pmodes/sobs.py:114-121 | t == 0 raises ZeroDivisionError and t < 0 gives []; for t >= 1, the loop that bumps `ans[ii]` returns exactly the block sizes `Shares(t, n)` |
| `ChannelScheduler.ExtraIndex` | pmodes/sobs.py:119 | the block that leftover point i goes to: i//2 for even i, t-1-i//2 for odd i |
| `ChannelScheduler.Shares` | pmodes/sobs.py:115-120 | the closed form of divide_threads' result: n//t per block, plus one on the first ceil(r/2) and last floor(r/2) blocks, r = n%t |
| `ChannelScheduler.BumpStep` | pmodes/sobs.py:118-120 | step i adds exactly the block ExtraIndex(t, i) to the bumped set, and that block was not bumped before (no block is bumped twice) |
| `ChannelScheduler.BumpedIffSomeStep` | pmodes/sobs.py:118-120 | the closed form (first ceil(r/2) and last floor(r/2) blocks) is exactly the set of blocks some step i < r targets |
| `ChannelScheduler.ExtraIndexInjective` | pmodes/sobs.py:119 | distinct steps i, j < t target distinct blocks |
| `ChannelScheduler.SharesProperties` | pmodes/sobs.py:115-120 | t >= 1 blocks, summing to n, each n//t or n//t+1, with exactly n%t of them the larger |
| `ChannelScheduler.SharesPositive` | pmodes/sobs.py:144 | with 1 <= t <= n no block is empty |
| `ChannelScheduler.DivideThreadsExample` | pmodes/sobs.py:114-121 | divide_threads(4, 21) == [6, 5, 5, 5] |
| `ChannelScheduler.Divisors` | pmodes/sobs.py:110-111 | the list comprehension `[i for i in range(t, 0, -1) if n % i == 0]`, in the same descending order |
| `ChannelScheduler.DivisorsMembers` | pmodes/sobs.py:110-111 | x is in the comprehension iff 1 <= x <= t and n % x == 0 |
| `ChannelScheduler.Max` | pmodes/sobs.py:110 | max() raises ValueError exactly on an empty list; otherwise it returns a member that bounds every member |
| `ChannelScheduler.FindProperNThread` | pmodes/sobs.py:109-111 | find_proper_nthread as max() of that comprehension, with max()'s ValueError |
| `ChannelScheduler.FindProperNThreadIsLargest` | pmodes/sobs.py:109-111 | raises exactly when t < 1; otherwise it returns the largest i in 1..t with n % i == 0 |
| `ChannelScheduler.FindProperNThreadExample` | pmodes/sobs.py:109-111 | find_proper_nthread(5, 21) == 3 |
| `ChannelScheduler.PyIndex` | pmodes/sobs.py:128 | Python indexing `s[i]`: a negative i counts from the end; past either end it raises IndexError |
| `ChannelScheduler.Offset` | pmodes/sobs.py:126-129 | the value of `sum_points` before block k: the sum of the first k block sizes |
| `ChannelScheduler.SepAt` | pmodes/sobs.py:128 | the pair `[points[s], points[s+npoints-1]]` that block k appends, or the IndexError of either read |
| `ChannelScheduler.CalcThreadSeps` | pmodes/sobs.py:124-130 | succeeds iff every block's two Python indices (negative ones wrap) are in range; pair k is then [points[s_k], points[s_k + divs[k] - 1]], with s_k the running offset; otherwise it raises IndexError |
| `ChannelScheduler.OffsetStep` | pmodes/sobs.py:129 | the running offset grows by each block's size |
| `ChannelScheduler.SepsInRange` | pmodes/sobs.py:124-130 | when every block is non-empty and sum(divs) <= len(points), no index wraps, every pair is the literal first and last sample of its block, and block k+1 starts right after block k ends |
| `ChannelScheduler.BlocksCover` | pmodes/sobs.py:126-129 | every sample index below sum(divs) lies in some block |
| `ChannelScheduler.BlocksDisjoint` | pmodes/sobs.py:126-129 | no sample index lies in two blocks |
| `ChannelScheduler.SepsAreMinMax` | pmodes/sobs.py:124-130 | on sorted samples the pair of a block bounds every sample of that block (its true min and max) |
| `ChannelScheduler.ScheduleWellFormed` | pmodes/sobs.py:144-145 | calc_thread_seps over divide_threads(t, n) with 1 <= t <= n = len(points) reads every block without wrap-around |
| `ChannelScheduler.UnitOffset` | pmodes/sobs.py:126-129 | blocks of one point each start at their own index |
| `ChannelScheduler.SmallShares` | pmodes/sobs.py:115-120 | with fewer points than workers every block gets 0 or 1 point, 1 exactly for the bumped blocks |
| `ChannelScheduler.OversubscribedSchedule` | pmodes/sobs.py:143-145 | with n_thread > linenlam >= 1 (observe allows it) block (n+1)/2 is empty; it raises IndexError when linenlam == 1 and otherwise reads the reversed pair (points[k], points[k-1]) |
| `CameraGeometry.LineNLam` | pmodes/sobs.py:69 | `2*int(round(vwidth_kms/dv_kms)) + 1`, or ZeroDivisionError when dv_kms == 0 |
| `CameraGeometry.LineNLamOdd` | pmodes/sobs.py:69 | linenlam fails only for dv == 0; otherwise it is odd, >= 1 iff vwidth/dv > -1/2, and its half-count is within 1/2 of vwidth/dv |
| `CameraGeometry.LineNLamTie` | pmodes/sobs.py:69 | a half-channel width rounds away from zero: linenlam(2.5, 1) == 7 and linenlam(-2.5, 1) == -5 |
| `CameraGeometry.Zoom` | pmodes/sobs.py:80-99 | the zoomau_x and zoomau_y boxes each branch of set_camera_info assigns |
| `CameraGeometry.PixelCounts` | pmodes/sobs.py:86-101 | the npixx and npixy each branch assigns, by Python 2 round |
| `CameraGeometry.CameraGrid` | pmodes/sobs.py:79-106 | set_camera_info's outcome: ZeroDivisionError for a zero pixel size or count, the "dx is not equal to dy" exception, else the grid |
| `CameraGeometry.CameraGridSquarePixels` | pmodes/sobs.py:79-106 | on success zoomau_x == [-sizex/2, sizex/2], both pixel counts are non-zero and the pixel width equals the pixel height |
| `CameraGeometry.SquareCamera` | pmodes/sobs.py:97-101 | in the square branch npixy == npixx and zoomau_y == zoomau_x; it fails only by a zero pixel count, never by a mismatch |
| `CameraGeometry.StripCamera` | pmodes/sobs.py:86-90 | in the zero-height strip branch npixy == 1 and zoomau_y == [-pixsize/2, pixsize/2]; it raises the mismatch exactly when sizex/npixx != pixsize |
| `CameraGeometry.RectangleOfWholePixels` | pmodes/sobs.py:91-95 | a rectangle whose sides are whole multiples m, k of the pixel size succeeds, with npixx == m and npixy == k |
| `CameraGeometry.WholePixelWidth` | pmodes/sobs.py:103-104 | a centred box m whole pixels wide has pixel width exactly pixsize |
| `CameraGeometry.StripOfWholePixels` | pmodes/sobs.py:86-90 | a strip whose width is m whole pixels succeeds with npixx == m and npixy == 1 |
| `CameraGeometry.ObsSimulator.constructor` | pmodes/sobs.py:56-67 | the setattr loop stores every argument as an attribute: dn_radmc, dn_fits, filename, dpc, iline, sizex_au, sizey_au, pixsize_au, vwidth_kms, dv_kms, incl, phi, posang, rect_camera, omp, n_thread and kwargs |
| `CameraGeometry.ObsSimulator.SetLineNLam` | pmodes/sobs.py:69 | assigns linenlam (odd) or raises ZeroDivisionError and leaves it unchanged |
| `CameraGeometry.ObsSimulator.SetCameraInfo` | pmodes/sobs.py:79-106 | assigns the boxes in every case and the pixel counts unless pixsize == 0; succeeds exactly when the camera grid is valid, else raises the grid's error |
| `CameraGeometry.NewObsSimulator` | pmodes/sobs.py:56-76 | all of __init__: it succeeds iff linenlam, set_camera_info and the unused-kwargs check all pass; the first exception in that order is returned; on success the object holds linenlam, the camera grid and the arguments |
| `ImageMerger.MergeSingle` | pmodes/sobs.py:170-171 | merging a single result returns it unchanged |
| `ImageMerger.AppendChannels` | pmodes/sobs.py:172-173 | np.append(a, b, axis=2): each pixel's spectrum of b after a's, or ValueError when the spatial shapes differ |
| `ImageMerger.AppendChannelsAt` | pmodes/sobs.py:172-173 | where np.append succeeds, the pixel (x, y) of the result is a[x][y] + b[x][y] |
| `ImageMerger.AppendPartition` | pmodes/sobs.py:172-177 | one loop pass on values: both image arrays appended, freq and wav concatenated, nfreq and nwav added |
| `ImageMerger.AppendPartitionArray` | pmodes/sobs.py:172-173 | in one successful pass, image and imageJyppix are each np.append of the old array and the result's array |
| `ImageMerger.Merged` | pmodes/sobs.py:170-177 | the loop as a left fold: rets[0] with every later result appended in list order; an empty list raises IndexError at rets[0] |
| `ImageMerger.MergeOkIff` | pmodes/sobs.py:170-177 | the merge succeeds iff the list is non-empty and every result has rets[0]'s spatial shape for both image arrays; the merged image keeps that shape |
| `ImageMerger.MergeErrPersists` | pmodes/sobs.py:171-177 | the first failing append decides the error of the whole merge |
| `ImageMerger.MergedChannels` | pmodes/sobs.py:174-177 | merged freq and wav are the results' arrays concatenated in partition order; nfreq and nwav are the sums |
| `ImageMerger.MergedImage` | pmodes/sobs.py:172-173 | for both image and imageJyppix, at every pixel the merged spectrum is the results' spectra concatenated in partition order |
| `ImageMerger.RadmcImage.constructor` | pmodes/sobs.py:170 | an image object holding the given image, imageJyppix, freq, wav, nfreq and nwav |
| `ImageMerger.RadmcImage.Append` | pmodes/sobs.py:172-177 | one loop pass: appends image and imageJyppix along the channel axis, concatenates freq and wav, adds the counts; a failing append leaves the fields assigned before it |
| `ImageMerger.MergeResults` | pmodes/sobs.py:170-178 | rets[0] ends up holding the merge of all results in list order, or the first error is returned |
| `ObservationCube.DegToAuSign` | pmodes/sobs.py:304-305 | the degree-to-au conversion keeps the sign (and zeroness) of CDELT |
| `ObservationCube.DegToAu` | pmodes/sobs.py:304-305 | CDELT in degrees times pi/180 * dpc * pc / au |
| `ObservationCube.CentredAxis` | pmodes/sobs.py:306-309 | `-0.5*N*d + (arange(N) + 0.5)*d`, the pixel centres of xau and yau |
| `ObservationCube.ChannelAxis` | pmodes/sobs.py:315-316 | `d*(-0.5*(N-1) + arange(N))`, the vkms formula of both branches |
| `ObservationCube.CentredAxisShape` | pmodes/sobs.py:306-309 | xau has N entries, xau[N-1-i] == -xau[i], and neighbours differ by dx |
| `ObservationCube.CentredAxisIncreasing` | pmodes/sobs.py:308-309 | a centred axis with a positive spacing is strictly increasing |
| `ObservationCube.ReverseCentredAxis` | pmodes/sobs.py:325-328 | flipping a centred axis of spacing d gives the centred axis of spacing -d |
| `ObservationCube.ChannelAxisCentred` | pmodes/sobs.py:315-320 | the channel formula d*(-0.5*(N-1) + arange(N)) is the same centred axis |
| `ObservationCube.VelocityAxis` | pmodes/sobs.py:311-320 | the two branches on CRVAL3 > 1e8: vkms and dv, or ZeroDivisionError for a zero nu0 and IndexError for vkms[1] with fewer than two channels |
| `ObservationCube.VelocityAxisCentred` | pmodes/sobs.py:311-320 | the frequency branch (CRVAL3 > 1e8) fails only on a zero band centre or NAXIS3 < 2; in both branches vkms is the centred axis of the returned dv, which is CDELT3/1e3 in the velocity branch |
| `ObservationCube.FlipX` | pmodes/sobs.py:329 | np.flip(Ippv, axis=2): every row reversed |
| `ObservationCube.FlipY` | pmodes/sobs.py:334 | np.flip(Ippv, axis=1): every channel map's rows reversed |
| `ObservationCube.FlipV` | pmodes/sobs.py:339 | np.flip(Ippv, axis=0): the channels reversed |
| `ObservationCube.Normalized` | pmodes/sobs.py:325-339 | the three flips in source order (x, y, v), each taken when its spacing is negative |
| `ObservationCube.NormalizedAxes` | pmodes/sobs.py:325-339 | after the flips dx, dy, dv are their absolute values; an axis is reversed exactly when its spacing was negative; an already non-negative state is unchanged |
| `ObservationCube.NormalizeIdempotent` | pmodes/sobs.py:325-339 | normalising a second time changes nothing |
| `ObservationCube.FlipXAt` | pmodes/sobs.py:329 | np.flip(axis=2) keeps the shape and mirrors the x index |
| `ObservationCube.FlipYAt` | pmodes/sobs.py:334 | np.flip(axis=1) keeps the shape and mirrors the y index |
| `ObservationCube.FlipVAt` | pmodes/sobs.py:339 | np.flip(axis=0) keeps the shape and mirrors the channel index |
| `ObservationCube.NormalizedVoxel` | pmodes/sobs.py:325-339 | the normalised cube at (v, y, x) is the original at each index mirrored exactly when that axis's spacing was negative; others are untouched |
| `ObservationCube.FlippedCentredAxis` | pmodes/sobs.py:325-338 | a centred axis, reversed when its spacing is negative, is the centred axis of the absolute spacing, strictly increasing when that spacing is non-zero |
| `ObservationCube.NormalizedCentred` | pmodes/sobs.py:325-338 | normalising centred axes yields centred axes of non-negative spacings, strictly increasing where the spacing is non-zero |
| `ObservationCube.Loaded` | pmodes/sobs.py:301-320 | the state before the flips: dx, dy, the centred xau and yau, the velocity axis and the data, or the velocity axis's error |
| `ObservationCube.LoadedAxesIncreasing` | pmodes/sobs.py:301-339 | after __init__, dx, dy, dv >= 0, every axis is the centred axis of its spacing, and each axis with a non-zero spacing is strictly increasing |
| `ObservationCube.FitsAnalyzer.constructor` | pmodes/sobs.py:301-339 | stores NAXIS1-3 and the normalised axes and data built from the header |
| `ObservationCube.FitsAnalyzer.NormalizeAxes` | pmodes/sobs.py:325-339 | the in-place flips take the state to Normalized(old state); the pixel counts do not change |
| `ObservationCube.Open` | pmodes/sobs.py:297-339 | the constructor's exceptions (zero band centre, fewer than two frequency channels) are returned as errors; otherwise a fresh analyzer holds the normalised state, NAXIS1-3 as its pixel counts and the distance 137 pc |

## Left out

- Solver orchestration in `observe` and `subcalc` is not modelled: the command strings, `os.makedirs`, copying input files, `os.chdir`, `subprocess.call`, and the sequential branch. It is process and file-system I/O with nothing to state.
- `Pool(...).map` is not modelled. The merge takes an already ordered list of results, as `Pool.map` returns them in submission order.
- File reads and writes are outside the model: `iofits.open`, `rmci.readImage`, `writeFits`, `save_instance` and `read_instance`. The header keywords and the data cube are inputs (`Header`, `Cube3`).
- Convolution, the PV interpolation, peak finding, plotting (`chmap`, `mom0map`, `pvdiagram`) and `_perpix_to_perbeamkms` are outside the model. They are calls into astropy, scipy, skimage and matplotlib, or a single float rescale.
- `np.linspace` sample generation and the `v_center`/`v_width` midpoints are left out. The samples are an arbitrary input sequence of `CalcThreadSeps`.
- `omp_subcalc` and `unwrap_self_subcalc` are left out because they cannot run: they refer to an undefined `p` and a nonexistent class. The unused `nlist` is also left out.
- Floating point is modelled as exact reals. Rounding error in `zoomau`, in `dx != dy` and in the axis formulas is not modelled.
- `DegToAu` uses fixed decimal values for pi, the parsec and the au. The constants module `cst` is not part of this model. Only the sign of the factor matters to the proofs.
- `CameraGeometry.NewObsSimulator` follows Python 2, the interpreter the module targets (its `__future__` imports, the note at line 242). `PyRound` is therefore Python 2's `round`, where a tie goes away from zero. The message at line 67 is assumed not to raise, as under Python 2. Under Python 3 the `"{:20}".format(v)` there raises TypeError for the `kwargs` dict and for any `None` argument, so every construction would fail; the model does not capture that.
- `ObsSimulator.__init__` is modelled by `NewObsSimulator`, which runs the constructor, `SetLineNLam` and `SetCameraInfo` in order. The messages it prints are not modelled.
- `CameraGeometry.ObsSimulator.constructor`: the Python default values of the arguments (`dn_fits=None`, `filename="obs"`, `rect_camera=True`, `omp=True`, `n_thread=1`, `None` elsewhere) are not modelled, and every argument must be passed. Argument types are fixed (`dn_fits` is a string, `kwargs` maps names to values rendered as strings), because only the observe, command-string and save code reads them and that code is not modelled.
- `ChannelScheduler.ScheduleWellFormed`: it describes the composed schedule only for 1 <= n_thread <= linenlam. `observe` also allows n_thread > linenlam. For that case `OversubscribedSchedule` states only the empty block, with its IndexError or reversed pair; the whole schedule is not characterised.
- The frequency-to-velocity conversion after the merge (lines 188-193) is float physics and is not modelled. Line 189 reads `self.data.freq[1]`, so it raises IndexError on a one-channel image, for example in the sequential branch with linenlam == 1 (vwidth_kms < dv_kms/2).
- MergeResults: after a failing append, the model does not state the contents of the partly merged `rets[0]`. The exception discards that object.
- MergeResults: requires that `rets[0]` is not repeated later in the list. `Pool.map` returns distinct unpickled objects, so the aliasing case is not modelled.
- `AppendChannels` compares shapes for each x row, so it also accepts ragged nested sequences, which a numpy array cannot be. For rectangular arrays it is numpy's rule.
