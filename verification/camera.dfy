/** The camera set-up of ObsSimulator: the channel count of the line image and
    the pixel grid and field-of-view box handed to the solver. */
module CameraGeometry {
  import opened Common

  /** A field-of-view edge pair [low, high], in au. */
  type Box = (real, real)

  /** The derived camera: pixel counts and the zoomau boxes along x and y. */
  datatype Grid = Grid(npixx: int, npixy: int, zoomauX: Box, zoomauY: Box)

  // ---------------------------------------------------------------------
  // linenlam
  // ---------------------------------------------------------------------

  /** linenlam = 2*int(round(vwidth_kms/dv_kms)) + 1; a zero channel width
      raises ZeroDivisionError. */
  function LineNLam(vwidthKms: real, dvKms: real): Result<int>
  {
    if dvKms == 0.0 then Err(ZeroDivision)
    else Ok(2 * PyRound(vwidthKms / dvKms) + 1)
  }

  /** The channel count is odd (one channel at the line centre, the same
      number on either side), it is positive exactly when the width ratio
      is above -1/2, and the channels span the requested half-width to
      within half a channel on either side. */
  lemma LineNLamOdd(vwidthKms: real, dvKms: real)
    ensures LineNLam(vwidthKms, dvKms).Err? <==> dvKms == 0.0
    ensures LineNLam(vwidthKms, dvKms).Ok? ==>
              var n := LineNLam(vwidthKms, dvKms).value;
              n % 2 == 1 &&
              (n >= 1 <==> vwidthKms / dvKms > -0.5) &&
              ((n - 1) / 2) as real - 0.5 <= vwidthKms / dvKms <= ((n - 1) / 2) as real + 0.5
  {
    if dvKms != 0.0 {
      var q := vwidthKms / dvKms;
      var m := PyRound(q);
      assert (2 * m + 1 - 1) / 2 == m;
      if q == -0.5 {
        assert m == -1;
      }
    }
  }

  /** A width that is an exact half-channel multiple rounds away from zero:
      vwidth 2.5 channels gives 7 channels, not 5. */
  lemma LineNLamTie()
    ensures LineNLam(2.5, 1.0) == Ok(7)
    ensures LineNLam(-2.5, 1.0) == Ok(-5)
  {
  }

  // ---------------------------------------------------------------------
  // set_camera_info
  // ---------------------------------------------------------------------

  /** True when set_camera_info takes its rectangle branch. */
  predicate Rectangular(sizex: real, sizey: real, rect: bool)
  {
    rect && sizex != sizey
  }

  /** The boxes set_camera_info assigns (before any division). */
  function Zoom(sizex: real, sizey: real, pixsize: real, rect: bool): (Box, Box)
  {
    var zx := (-sizex / 2.0, sizex / 2.0);
    if Rectangular(sizex, sizey, rect) then
      if sizey == 0.0 then (zx, (-pixsize / 2.0, pixsize / 2.0))
      else (zx, (-sizey / 2.0, sizey / 2.0))
    else (zx, zx)
  }

  /** The pixel counts set_camera_info assigns once pixsize is non-zero. */
  function PixelCounts(sizex: real, sizey: real, pixsize: real, rect: bool): (int, int)
    requires pixsize != 0.0
  {
    var nx := PyRound(sizex / pixsize);
    if Rectangular(sizex, sizey, rect) then
      if sizey == 0.0 then (nx, 1)
      else (nx, PyRound(sizey / pixsize))
    else (nx, nx)
  }

  /** Pixel width along one axis: (box[1] - box[0]) / npix. */
  function PixelWidth(box: Box, npix: int): real
    requires npix != 0
  {
    (box.1 - box.0) / npix as real
  }

  /** The outcome of ObsSimulator.set_camera_info: the grid, or the error it
      raises (a zero pixel size or pixel count divides by zero, and a
      non-square pixel raises "dx is not equal to dy"). */
  function CameraGrid(sizex: real, sizey: real, pixsize: real, rect: bool): Result<Grid>
  {
    if pixsize == 0.0 then Err(ZeroDivision)
    else
      var (zx, zy) := Zoom(sizex, sizey, pixsize, rect);
      var (nx, ny) := PixelCounts(sizex, sizey, pixsize, rect);
      if nx == 0 || ny == 0 then Err(ZeroDivision)
      else if PixelWidth(zx, nx) != PixelWidth(zy, ny) then Err(PixelMismatch)
      else Ok(Grid(nx, ny, zx, zy))
  }

  /** zoomau_x is always centred on zero with the requested width, and the
      grid handed on always has square pixels. */
  lemma CameraGridSquarePixels(sizex: real, sizey: real, pixsize: real, rect: bool)
    ensures CameraGrid(sizex, sizey, pixsize, rect).Ok? ==>
              var g := CameraGrid(sizex, sizey, pixsize, rect).value;
              g.zoomauX == (-sizex / 2.0, sizex / 2.0) &&
              g.npixx != 0 && g.npixy != 0 &&
              g.zoomauX.1 - g.zoomauX.0 == sizex &&
              PixelWidth(g.zoomauX, g.npixx) == PixelWidth(g.zoomauY, g.npixy)
  {
  }

  /** The square branch (no rectangle camera, or equal sides): y copies x,
      and it can fail only by dividing by zero, never by a pixel mismatch. */
  lemma SquareCamera(sizex: real, sizey: real, pixsize: real, rect: bool)
    requires !rect || sizex == sizey
    requires pixsize != 0.0
    ensures PyRound(sizex / pixsize) == 0 <==> CameraGrid(sizex, sizey, pixsize, rect).Err?
    ensures CameraGrid(sizex, sizey, pixsize, rect).Ok? ==>
              var g := CameraGrid(sizex, sizey, pixsize, rect).value;
              g.npixy == g.npixx == PyRound(sizex / pixsize) && g.zoomauY == g.zoomauX
  {
  }

  /** The strip branch (rectangle camera, zero height): one pixel row whose y
      box is one pixel wide; it fails with a mismatch exactly when sizex/npixx
      differs from the pixel size. */
  lemma StripCamera(sizex: real, pixsize: real)
    requires sizex != 0.0 && pixsize != 0.0
    requires PyRound(sizex / pixsize) != 0
    ensures (CameraGrid(sizex, 0.0, pixsize, true) == Err(PixelMismatch)) <==>
            (sizex / PyRound(sizex / pixsize) as real != pixsize)
    ensures CameraGrid(sizex, 0.0, pixsize, true).Ok? ==>
              var g := CameraGrid(sizex, 0.0, pixsize, true).value;
              g.npixy == 1 && g.zoomauY == (-pixsize / 2.0, pixsize / 2.0)
  {
  }

  /** A box of m whole pixels, centred on zero, has pixel width pixsize. */
  lemma WholePixelWidth(m: int, pixsize: real)
    requires m >= 1
    ensures PixelWidth((-(m as real * pixsize) / 2.0, m as real * pixsize / 2.0), m) == pixsize
  {
    var sx := m as real * pixsize;
    assert sx / 2.0 - (-sx / 2.0) == sx;
    assert sx / m as real == pixsize;
  }

  /** A rectangle whose sides are whole multiples of the pixel size always
      succeeds, with those multiples as the pixel counts. */
  lemma RectangleOfWholePixels(m: int, k: int, pixsize: real)
    requires m >= 1 && k >= 1 && m != k && pixsize > 0.0
    ensures CameraGrid(m as real * pixsize, k as real * pixsize, pixsize, true)
              == Ok(Grid(m, k, (-(m as real * pixsize) / 2.0, m as real * pixsize / 2.0),
                               (-(k as real * pixsize) / 2.0, k as real * pixsize / 2.0)))
  {
    var sx, sy := m as real * pixsize, k as real * pixsize;
    assert sx != sy;
    assert sx / pixsize == m as real;
    assert sy / pixsize == k as real;
    PyRoundOfInt(m);
    PyRoundOfInt(k);
    WholePixelWidth(m, pixsize);
    WholePixelWidth(k, pixsize);
  }

  /** A zero-height strip whose width is a whole number of pixels succeeds. */
  lemma StripOfWholePixels(m: int, pixsize: real)
    requires m >= 1 && pixsize > 0.0
    ensures CameraGrid(m as real * pixsize, 0.0, pixsize, true)
              == Ok(Grid(m, 1, (-(m as real * pixsize) / 2.0, m as real * pixsize / 2.0),
                               (-pixsize / 2.0, pixsize / 2.0)))
  {
    var sx := m as real * pixsize;
    assert sx / pixsize == m as real;
    PyRoundOfInt(m);
    WholePixelWidth(m, pixsize);
    WholePixelWidth(1, pixsize);
  }

  /** The part of ObsSimulator that __init__ fills in: every argument it
      stores as an attribute and the camera fields derived from them. */
  class ObsSimulator {
    const dnRadmc: string
    const dnFits: string
    const filename: string
    const dpc: real
    const iline: int
    const sizexAu: real
    const sizeyAu: real
    const pixsizeAu: real
    const vwidthKms: real
    const dvKms: real
    const incl: real
    const phi: real
    const posang: real
    const rectCamera: bool
    const omp: bool
    const nThread: int
    /** The extra keyword arguments, by name. */
    const kwargs: map<string, string>

    var linenlam: int
    var npixx: int
    var npixy: int
    var zoomauX: Box
    var zoomauY: Box

    /** The setattr loop over __init__'s arguments (kwargs included); the
        derived fields are still unset (zero here). */
    constructor (dnRadmc: string, dnFits: string, filename: string, dpc: real, iline: int,
                 sizexAu: real, sizeyAu: real, pixsizeAu: real,
                 vwidthKms: real, dvKms: real,
                 incl: real, phi: real, posang: real,
                 rectCamera: bool, omp: bool, nThread: int,
                 kwargs: map<string, string>)
      ensures this.dnRadmc == dnRadmc && this.dnFits == dnFits && this.filename == filename
      ensures this.dpc == dpc && this.iline == iline
      ensures this.sizexAu == sizexAu && this.sizeyAu == sizeyAu && this.pixsizeAu == pixsizeAu
      ensures this.vwidthKms == vwidthKms && this.dvKms == dvKms
      ensures this.incl == incl && this.phi == phi && this.posang == posang
      ensures this.rectCamera == rectCamera && this.omp == omp && this.nThread == nThread
      ensures this.kwargs == kwargs
      ensures linenlam == 0 && npixx == 0 && npixy == 0
      ensures zoomauX == (0.0, 0.0) && zoomauY == (0.0, 0.0)
    {
      this.dnRadmc, this.dnFits, this.filename, this.dpc, this.iline := dnRadmc, dnFits, filename, dpc, iline;
      this.sizexAu, this.sizeyAu, this.pixsizeAu := sizexAu, sizeyAu, pixsizeAu;
      this.vwidthKms, this.dvKms := vwidthKms, dvKms;
      this.incl, this.phi, this.posang := incl, phi, posang;
      this.rectCamera, this.omp, this.nThread := rectCamera, omp, nThread;
      this.kwargs := kwargs;
      linenlam, npixx, npixy := 0, 0, 0;
      zoomauX, zoomauY := (0.0, 0.0), (0.0, 0.0);
    }

    /** Assigns LineNLam(vwidthKms, dvKms), or fails with ZeroDivision and
        leaves linenlam as it was. */
    method SetLineNLam() returns (r: Outcome)
      modifies this`linenlam
      ensures r.Fail? <==> LineNLam(vwidthKms, dvKms).Err?
      ensures r.Fail? ==> r.error == ZeroDivision && linenlam == old(linenlam)
      ensures r.Pass? ==> linenlam == LineNLam(vwidthKms, dvKms).value && linenlam % 2 == 1
    {
      if dvKms == 0.0 {
        return Fail(ZeroDivision);
      }
      linenlam := 2 * PyRound(vwidthKms / dvKms) + 1;
      LineNLamOdd(vwidthKms, dvKms);
      return Pass;
    }

    /** ObsSimulator.set_camera_info: assigns the boxes, then the pixel
        counts, then checks that the pixels are square. A zero pixel size
        raises before any count is assigned. */
    method SetCameraInfo() returns (r: Outcome)
      modifies this`npixx, this`npixy, this`zoomauX, this`zoomauY
      ensures (zoomauX, zoomauY) == Zoom(sizexAu, sizeyAu, pixsizeAu, rectCamera)
      ensures pixsizeAu == 0.0 ==> npixx == old(npixx) && npixy == old(npixy)
      ensures pixsizeAu != 0.0 ==> (npixx, npixy) == PixelCounts(sizexAu, sizeyAu, pixsizeAu, rectCamera)
      ensures r.Pass? <==> CameraGrid(sizexAu, sizeyAu, pixsizeAu, rectCamera).Ok?
      ensures r.Pass? ==> Grid(npixx, npixy, zoomauX, zoomauY)
                            == CameraGrid(sizexAu, sizeyAu, pixsizeAu, rectCamera).value
      ensures r.Fail? ==> r.error == CameraGrid(sizexAu, sizeyAu, pixsizeAu, rectCamera).error
    {
      if rectCamera && sizexAu != sizeyAu {
        if sizeyAu == 0.0 {
          zoomauX := (-sizexAu / 2.0, sizexAu / 2.0);
          zoomauY := (-pixsizeAu / 2.0, pixsizeAu / 2.0);
          if pixsizeAu == 0.0 {
            return Fail(ZeroDivision);
          }
          npixx := PyRound(sizexAu / pixsizeAu);
          npixy := 1;
        } else {
          zoomauX := (-sizexAu / 2.0, sizexAu / 2.0);
          zoomauY := (-sizeyAu / 2.0, sizeyAu / 2.0);
          if pixsizeAu == 0.0 {
            return Fail(ZeroDivision);
          }
          npixx := PyRound(sizexAu / pixsizeAu);
          npixy := PyRound(sizeyAu / pixsizeAu);
        }
      } else {
        zoomauX := (-sizexAu / 2.0, sizexAu / 2.0);
        zoomauY := (-sizexAu / 2.0, sizexAu / 2.0);
        if pixsizeAu == 0.0 {
          return Fail(ZeroDivision);
        }
        npixx := PyRound(sizexAu / pixsizeAu);
        npixy := npixx;
      }
      if npixx == 0 {
        return Fail(ZeroDivision);
      }
      var dx := (zoomauX.1 - zoomauX.0) / npixx as real;
      if npixy == 0 {
        return Fail(ZeroDivision);
      }
      var dy := (zoomauY.1 - zoomauY.0) / npixy as real;
      if dx != dy {
        return Fail(PixelMismatch);
      }
      return Pass;
    }
  }

  /** The whole of ObsSimulator.__init__: the attributes are stored, then
      linenlam, then set_camera_info, and last the rejection of unused
      keyword arguments; the first exception raised is returned. */
  method NewObsSimulator(dnRadmc: string, dnFits: string, filename: string, dpc: real, iline: int,
                         sizexAu: real, sizeyAu: real, pixsizeAu: real,
                         vwidthKms: real, dvKms: real,
                         incl: real, phi: real, posang: real,
                         rectCamera: bool, omp: bool, nThread: int,
                         kwargs: map<string, string>)
    returns (r: Result<ObsSimulator>)
    ensures r.Ok? <==> LineNLam(vwidthKms, dvKms).Ok? &&
                       CameraGrid(sizexAu, sizeyAu, pixsizeAu, rectCamera).Ok? &&
                       kwargs == map[]
    ensures LineNLam(vwidthKms, dvKms).Err? ==> r == Err(ZeroDivision)
    ensures LineNLam(vwidthKms, dvKms).Ok? && CameraGrid(sizexAu, sizeyAu, pixsizeAu, rectCamera).Err? ==>
              r == Err(CameraGrid(sizexAu, sizeyAu, pixsizeAu, rectCamera).error)
    ensures (LineNLam(vwidthKms, dvKms).Ok? && CameraGrid(sizexAu, sizeyAu, pixsizeAu, rectCamera).Ok? &&
             kwargs != map[]) ==> r == Err(UnusedArgs)
    ensures r.Ok? ==>
              fresh(r.value) &&
              r.value.linenlam == LineNLam(vwidthKms, dvKms).value &&
              Grid(r.value.npixx, r.value.npixy, r.value.zoomauX, r.value.zoomauY)
                == CameraGrid(sizexAu, sizeyAu, pixsizeAu, rectCamera).value &&
              r.value.sizexAu == sizexAu && r.value.sizeyAu == sizeyAu && r.value.pixsizeAu == pixsizeAu &&
              r.value.vwidthKms == vwidthKms && r.value.dvKms == dvKms && r.value.rectCamera == rectCamera &&
              r.value.nThread == nThread && r.value.omp == omp &&
              r.value.dnRadmc == dnRadmc && r.value.dnFits == dnFits && r.value.filename == filename &&
              r.value.dpc == dpc && r.value.iline == iline &&
              r.value.incl == incl && r.value.phi == phi && r.value.posang == posang &&
              r.value.kwargs == kwargs
  {
    var o := new ObsSimulator(dnRadmc, dnFits, filename, dpc, iline, sizexAu, sizeyAu, pixsizeAu,
                              vwidthKms, dvKms, incl, phi, posang, rectCamera, omp, nThread, kwargs);
    var lin := o.SetLineNLam();
    if lin.Fail? {
      return Err(lin.error);
    }
    var cam := o.SetCameraInfo();
    if cam.Fail? {
      return Err(cam.error);
    }
    if kwargs != map[] {
      return Err(UnusedArgs);
    }
    return Ok(o);
  }
}
