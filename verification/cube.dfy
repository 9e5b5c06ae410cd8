/** The cube side of the pipeline, FitsAnalyzer.__init__: physical axes built
    from the header of a stored position-position-velocity cube, then every
    axis with a negative spacing turned around together with the data. */
module ObservationCube {
  import opened Common

  /** The header keywords the constructor reads. */
  datatype Header = Header(naxis1: nat, naxis2: nat, naxis3: nat,
                           cdelt1: real, cdelt2: real, cdelt3: real,
                           crval3: real)

  /** Fixed source distance (pc) that FitsAnalyzer assumes. */
  const DPC: real := 137.0
  /** np.pi, and cst.pc and cst.au in cm (IAU values). */
  const PI: real := 3.141592653589793
  const PC_CM: real := 3.085677581e18
  const AU_CM: real := 1.495978707e13
  /** cst.c in cm/s. */
  const C_CGS: real := 2.99792458e10

  /** CDELT (degrees per pixel) to au per pixel at distance DPC. */
  function DegToAu(deg: real): real
  {
    deg * PI / 180.0 * DPC * PC_CM / AU_CM
  }

  /** The conversion keeps the sign of the header spacing. */
  lemma DegToAuSign(deg: real)
    ensures DegToAu(deg) < 0.0 <==> deg < 0.0
    ensures DegToAu(deg) == 0.0 <==> deg == 0.0
  {
    var f := PI / 180.0 * DPC * PC_CM / AU_CM;
    assert f > 0.0;
    assert DegToAu(deg) == deg * f;
  }

  // ---------------------------------------------------------------------
  // Axis formulas
  // ---------------------------------------------------------------------

  /** The pixel centres of an axis of n pixels of width d, centred on zero
      (lines 306-309). */
  function CentredAxis(n: nat, d: real): seq<real>
  {
    seq(n, i => -0.5 * (n as real * d) + (i as real + 0.5) * d)
  }

  /** n channels spaced d apart, the middle one at zero: the channel axis of
      line 320 and, with d the converted frequency step, of lines 315-316. */
  function ChannelAxis(n: nat, d: real): seq<real>
  {
    seq(n, i => d * (-0.5 * ((n - 1) as real) + i as real))
  }

  function Abs(d: real): real
  {
    if d < 0.0 then -d else d
  }

  predicate StrictlyIncreasing(s: seq<real>)
  {
    forall i, j :: 0 <= i < j < |s| ==> s[i] < s[j]
  }

  /** A centred axis is symmetric about zero and evenly spaced by d. */
  lemma CentredAxisShape(n: nat, d: real)
    ensures |CentredAxis(n, d)| == n
    ensures forall i :: 0 <= i < n ==> CentredAxis(n, d)[n - 1 - i] == -CentredAxis(n, d)[i]
    ensures forall i :: 0 <= i < n - 1 ==> CentredAxis(n, d)[i + 1] - CentredAxis(n, d)[i] == d
  {
    var a := CentredAxis(n, d);
    forall i | 0 <= i < n
      ensures a[n - 1 - i] == -a[i]
    {
      calc {
        a[n - 1 - i];
        -0.5 * (n as real * d) + ((n - 1 - i) as real + 0.5) * d;
        { assert ((n - 1 - i) as real + 0.5) * d == n as real * d - (i as real + 0.5) * d; }
        0.5 * (n as real * d) - (i as real + 0.5) * d;
      }
    }
    forall i | 0 <= i < n - 1
      ensures a[i + 1] - a[i] == d
    {
      assert ((i + 1) as real + 0.5) * d == (i as real + 0.5) * d + d;
    }
  }

  /** With a positive spacing a centred axis is strictly increasing. */
  lemma {:induction false} CentredAxisIncreasing(n: nat, d: real)
    requires d > 0.0
    ensures StrictlyIncreasing(CentredAxis(n, d))
  {
    var a := CentredAxis(n, d);
    forall i, j | 0 <= i < j < n
      ensures a[i] < a[j]
    {
      assert a[j] - a[i] == (j - i) as real * d;
      assert (j - i) as real * d > 0.0;
    }
  }

  /** Reversing a centred axis gives the centred axis of the opposite spacing:
      after the flip the axis is exactly the one built from |d|. */
  lemma ReverseCentredAxis(n: nat, d: real)
    ensures Reverse(CentredAxis(n, d)) == CentredAxis(n, -d)
  {
    CentredAxisShape(n, d);
    var a, b := Reverse(CentredAxis(n, d)), CentredAxis(n, -d);
    forall i | 0 <= i < n
      ensures a[i] == b[i]
    {
      assert a[i] == CentredAxis(n, d)[n - 1 - i];
      assert b[i] == -CentredAxis(n, d)[i];
    }
  }

  /** The channel formula of lines 315-316 and 320 is the same centred axis. */
  lemma ChannelAxisCentred(n: nat, d: real)
    ensures ChannelAxis(n, d) == CentredAxis(n, d)
  {
    forall i | 0 <= i < n
      ensures ChannelAxis(n, d)[i] == CentredAxis(n, d)[i]
    {
      assert d * (-0.5 * ((n - 1) as real) + i as real) == -0.5 * (n as real * d) + (i as real + 0.5) * d;
    }
  }

  /** Lines 311-320: the velocity axis (km/s) and its spacing. A CRVAL3 above
      1e8 is a frequency in Hz, converted about the band centre nu0 (a zero
      nu0 divides by zero, fewer than two channels leave no vkms[1]);
      otherwise CDELT3 is a velocity step in m/s. */
  function VelocityAxis(h: Header): Result<(seq<real>, real)>
  {
    if h.crval3 > 1e8 then
      var nuMax := h.crval3;
      var dnu := h.cdelt3;
      var nu0 := nuMax + 0.5 * dnu * ((h.naxis3 - 1) as real);
      if nu0 == 0.0 then Err(ZeroDivision)
      else
        var vkms := ChannelAxis(h.naxis3, C_CGS / 1e5 * dnu / nu0);
        if h.naxis3 < 2 then Err(IndexOutOfRange)
        else Ok((vkms, vkms[1] - vkms[0]))
    else
      var dv := h.cdelt3 / 1e3;
      Ok((ChannelAxis(h.naxis3, dv), dv))
  }

  /** Whichever branch is taken, the velocity axis is centred on zero with the
      returned spacing dv, one channel per NAXIS3; the frequency branch fails
      only on a zero band centre or fewer than two channels. */
  lemma VelocityAxisCentred(h: Header)
    ensures VelocityAxis(h).Err? <==>
              h.crval3 > 1e8 &&
              (h.crval3 + 0.5 * h.cdelt3 * ((h.naxis3 - 1) as real) == 0.0 || h.naxis3 < 2)
    ensures VelocityAxis(h).Ok? ==>
              VelocityAxis(h).value.0 == CentredAxis(h.naxis3, VelocityAxis(h).value.1)
    ensures VelocityAxis(h).Ok? && h.crval3 <= 1e8 ==> VelocityAxis(h).value.1 == h.cdelt3 / 1e3
  {
    if VelocityAxis(h).Ok? {
      var (vkms, dv) := VelocityAxis(h).value;
      if h.crval3 > 1e8 {
        var nu0 := h.crval3 + 0.5 * h.cdelt3 * ((h.naxis3 - 1) as real);
        var step := C_CGS / 1e5 * h.cdelt3 / nu0;
        ChannelAxisCentred(h.naxis3, step);
        CentredAxisShape(h.naxis3, step);
        assert dv == step;
      } else {
        ChannelAxisCentred(h.naxis3, dv);
      }
    }
  }

  // ---------------------------------------------------------------------
  // Axis normalisation
  // ---------------------------------------------------------------------

  /** np.flip(Ippv, axis=2): each row reversed along x. */
  function FlipX(c: Cube3): Cube3
  {
    seq(|c|, v requires 0 <= v < |c| =>
      seq(|c[v]|, y requires 0 <= y < |c[v]| => Reverse(c[v][y])))
  }

  /** np.flip(Ippv, axis=1): each channel map reversed along y. */
  function FlipY(c: Cube3): Cube3
  {
    seq(|c|, v requires 0 <= v < |c| => Reverse(c[v]))
  }

  /** np.flip(Ippv, axis=0): the channels in reverse order. */
  function FlipV(c: Cube3): Cube3
  {
    Reverse(c)
  }

  /** The spacings, axes and data a FitsAnalyzer holds. */
  datatype Axes = Axes(dx: real, dy: real, dv: real,
                       xau: seq<real>, yau: seq<real>, vkms: seq<real>,
                       ippv: Cube3)

  /** Lines 325-339: x, then y, then v; each axis whose spacing is negative
      has its spacing negated, its axis reversed and the data reversed along
      the matching dimension. */
  function Normalized(s: Axes): Axes
  {
    var s1 := if s.dx < 0.0 then s.(dx := s.dx * -1.0, xau := Reverse(s.xau), ippv := FlipX(s.ippv)) else s;
    var s2 := if s1.dy < 0.0 then s1.(dy := s1.dy * -1.0, yau := Reverse(s1.yau), ippv := FlipY(s1.ippv)) else s1;
    if s2.dv < 0.0 then s2.(dv := s2.dv * -1.0, vkms := Reverse(s2.vkms), ippv := FlipV(s2.ippv)) else s2
  }

  /** After normalisation no spacing is negative; each spacing becomes its
      absolute value, each axis is reversed exactly when its spacing was
      negative, and an axis whose spacing was not negative is left alone. */
  lemma NormalizedAxes(s: Axes)
    ensures Normalized(s).dx >= 0.0 && Normalized(s).dy >= 0.0 && Normalized(s).dv >= 0.0
    ensures Normalized(s).dx == (if s.dx < 0.0 then -s.dx else s.dx)
    ensures Normalized(s).dy == (if s.dy < 0.0 then -s.dy else s.dy)
    ensures Normalized(s).dv == (if s.dv < 0.0 then -s.dv else s.dv)
    ensures Normalized(s).xau == (if s.dx < 0.0 then Reverse(s.xau) else s.xau)
    ensures Normalized(s).yau == (if s.dy < 0.0 then Reverse(s.yau) else s.yau)
    ensures Normalized(s).vkms == (if s.dv < 0.0 then Reverse(s.vkms) else s.vkms)
    ensures s.dx >= 0.0 && s.dy >= 0.0 && s.dv >= 0.0 ==> Normalized(s) == s
  {
  }

  /** Normalising twice changes nothing more than normalising once. */
  lemma NormalizeIdempotent(s: Axes)
    ensures Normalized(Normalized(s)) == Normalized(s)
  {
    NormalizedAxes(s);
    NormalizedAxes(Normalized(s));
  }

  /** The data is a box of nz channels, ny rows and nx columns. */
  predicate IsBox(c: Cube3, nz: nat, ny: nat, nx: nat)
  {
    |c| == nz && forall v :: 0 <= v < nz ==> |c[v]| == ny && forall y :: 0 <= y < ny ==> |c[v][y]| == nx
  }

  /** Index along an axis of length n after an optional flip. */
  function Mirror(flip: bool, n: nat, i: nat): nat
    requires i < n
  {
    if flip then n - 1 - i else i
  }

  lemma FlipXAt(c: Cube3, nz: nat, ny: nat, nx: nat)
    requires IsBox(c, nz, ny, nx)
    ensures IsBox(FlipX(c), nz, ny, nx)
    ensures forall v, y, x :: 0 <= v < nz && 0 <= y < ny && 0 <= x < nx ==>
              FlipX(c)[v][y][x] == c[v][y][nx - 1 - x]
  {
  }

  lemma FlipYAt(c: Cube3, nz: nat, ny: nat, nx: nat)
    requires IsBox(c, nz, ny, nx)
    ensures IsBox(FlipY(c), nz, ny, nx)
    ensures forall v, y, x :: 0 <= v < nz && 0 <= y < ny && 0 <= x < nx ==>
              FlipY(c)[v][y][x] == c[v][ny - 1 - y][x]
  {
  }

  lemma FlipVAt(c: Cube3, nz: nat, ny: nat, nx: nat)
    requires IsBox(c, nz, ny, nx)
    ensures IsBox(FlipV(c), nz, ny, nx)
    ensures forall v, y, x :: 0 <= v < nz && 0 <= y < ny && 0 <= x < nx ==>
              FlipV(c)[v][y][x] == c[nz - 1 - v][y][x]
  {
  }

  /** The normalised data is the original read through mirrored indices: the
      x index mirrored when dx < 0 (axis 2), y when dy < 0 (axis 1), v when
      dv < 0 (axis 0); every other index is taken as is. */
  lemma NormalizedVoxel(s: Axes, nz: nat, ny: nat, nx: nat, v: nat, y: nat, x: nat)
    requires IsBox(s.ippv, nz, ny, nx)
    requires v < nz && y < ny && x < nx
    ensures IsBox(Normalized(s).ippv, nz, ny, nx)
    ensures Normalized(s).ippv[v][y][x] ==
              s.ippv[Mirror(s.dv < 0.0, nz, v)][Mirror(s.dy < 0.0, ny, y)][Mirror(s.dx < 0.0, nx, x)]
  {
    var c0 := s.ippv;
    var c1 := if s.dx < 0.0 then FlipX(c0) else c0;
    var c2 := if s.dy < 0.0 then FlipY(c1) else c1;
    var c3 := if s.dv < 0.0 then FlipV(c2) else c2;
    FlipXAt(c0, nz, ny, nx);
    FlipYAt(c1, nz, ny, nx);
    FlipVAt(c2, nz, ny, nx);
    assert Normalized(s).ippv == c3;
    var vv, yy, xx := Mirror(s.dv < 0.0, nz, v), Mirror(s.dy < 0.0, ny, y), Mirror(s.dx < 0.0, nx, x);
    assert c3[v][y][x] == c2[vv][y][x];
    assert c2[vv][y][x] == c1[vv][yy][x];
    assert c1[vv][yy][x] == c0[vv][yy][xx];
  }

  // ---------------------------------------------------------------------
  // Loading
  // ---------------------------------------------------------------------

  /** Lines 301-320: the state before normalisation, or the error the
      velocity axis raises. */
  function Loaded(h: Header, data: Cube3): Result<Axes>
  {
    var dx := DegToAu(h.cdelt1);
    var dy := DegToAu(h.cdelt2);
    match VelocityAxis(h)
    case Err(e) => Err(e)
    case Ok((vkms, dv)) =>
      Ok(Axes(dx, dy, dv, CentredAxis(h.naxis1, dx), CentredAxis(h.naxis2, dy), vkms, data))
  }

  /** One axis through the flip: a centred axis of spacing d, reversed when d
      is negative, is the centred axis of |d|, strictly increasing if d != 0. */
  lemma FlippedCentredAxis(n: nat, d: real)
    ensures (if d < 0.0 then Reverse(CentredAxis(n, d)) else CentredAxis(n, d))
              == CentredAxis(n, Abs(d))
    ensures d != 0.0 ==> StrictlyIncreasing(CentredAxis(n, Abs(d)))
  {
    ReverseCentredAxis(n, d);
    if d != 0.0 {
      CentredAxisIncreasing(n, Abs(d));
    }
  }

  /** Normalising a state whose axes are centred axes of their spacings
      leaves every axis the centred axis of its (now non-negative) spacing. */
  lemma NormalizedCentred(s: Axes, nx: nat, ny: nat, nz: nat)
    requires s.xau == CentredAxis(nx, s.dx)
    requires s.yau == CentredAxis(ny, s.dy)
    requires s.vkms == CentredAxis(nz, s.dv)
    ensures var t := Normalized(s);
            t.dx >= 0.0 && t.dy >= 0.0 && t.dv >= 0.0 &&
            t.xau == CentredAxis(nx, t.dx) &&
            t.yau == CentredAxis(ny, t.dy) &&
            t.vkms == CentredAxis(nz, t.dv) &&
            (s.dx != 0.0 ==> StrictlyIncreasing(t.xau)) &&
            (s.dy != 0.0 ==> StrictlyIncreasing(t.yau)) &&
            (s.dv != 0.0 ==> StrictlyIncreasing(t.vkms))
  {
    var t := Normalized(s);
    NormalizedAxes(s);
    var ax, ay, av := Abs(s.dx), Abs(s.dy), Abs(s.dv);
    assert t.dx == ax && t.dy == ay && t.dv == av;
    assert t.xau == CentredAxis(nx, ax) by { FlippedCentredAxis(nx, s.dx); }
    assert t.yau == CentredAxis(ny, ay) by { FlippedCentredAxis(ny, s.dy); }
    assert t.vkms == CentredAxis(nz, av) by { FlippedCentredAxis(nz, s.dv); }
    if s.dx != 0.0 { FlippedCentredAxis(nx, s.dx); }
    if s.dy != 0.0 { FlippedCentredAxis(ny, s.dy); }
    if s.dv != 0.0 { FlippedCentredAxis(nz, s.dv); }
  }

  /** After loading, every axis is the centred axis of its absolute spacing;
      so every axis whose spacing is non-zero is strictly increasing. */
  lemma LoadedAxesIncreasing(h: Header, data: Cube3)
    requires Loaded(h, data).Ok?
    ensures var s := Normalized(Loaded(h, data).value);
            s.dx >= 0.0 && s.dy >= 0.0 && s.dv >= 0.0 &&
            s.xau == CentredAxis(h.naxis1, s.dx) &&
            s.yau == CentredAxis(h.naxis2, s.dy) &&
            s.vkms == CentredAxis(h.naxis3, s.dv) &&
            (h.cdelt1 != 0.0 ==> StrictlyIncreasing(s.xau)) &&
            (h.cdelt2 != 0.0 ==> StrictlyIncreasing(s.yau)) &&
            (s.dv != 0.0 ==> StrictlyIncreasing(s.vkms))
  {
    var raw := Loaded(h, data).value;
    VelocityAxisCentred(h);
    DegToAuSign(h.cdelt1);
    DegToAuSign(h.cdelt2);
    NormalizedCentred(raw, h.naxis1, h.naxis2, h.naxis3);
    NormalizedAxes(raw);
  }

  /** FitsAnalyzer: the cube and its physical axes (the figure directory and
      the plotting methods are not part of this model). */
  class FitsAnalyzer {
    const dpc: real
    var nx: nat
    var ny: nat
    var nz: nat
    var dx: real
    var dy: real
    var dv: real
    var xau: seq<real>
    var yau: seq<real>
    var vkms: seq<real>
    var ippv: Cube3

    function State(): Axes
      reads this
    {
      Axes(dx, dy, dv, xau, yau, vkms, ippv)
    }

    /** FitsAnalyzer.__init__ once the header and data have been read. */
    constructor (h: Header, data: Cube3)
      requires Loaded(h, data).Ok?
      ensures dpc == DPC
      ensures nx == h.naxis1 && ny == h.naxis2 && nz == h.naxis3
      ensures State() == Normalized(Loaded(h, data).value)
    {
      dpc := DPC;
      ippv := data;
      nx, ny, nz := h.naxis1, h.naxis2, h.naxis3;
      var dx0, dy0 := DegToAu(h.cdelt1), DegToAu(h.cdelt2);
      dx, dy := dx0, dy0;
      xau := CentredAxis(h.naxis1, dx0);
      yau := CentredAxis(h.naxis2, dy0);
      var vel := VelocityAxis(h).value;
      vkms, dv := vel.0, vel.1;
      new;
      NormalizeAxes();
    }

    /** Lines 325-339, applied to the fields in place. */
    method NormalizeAxes()
      modifies this
      ensures State() == Normalized(old(State()))
      ensures nx == old(nx) && ny == old(ny) && nz == old(nz)
    {
      if dx < 0.0 {
        dx := dx * -1.0;
        xau := Reverse(xau);
        ippv := FlipX(ippv);
      }
      if dy < 0.0 {
        dy := dy * -1.0;
        yau := Reverse(yau);
        ippv := FlipY(ippv);
      }
      if dv < 0.0 {
        dv := dv * -1.0;
        vkms := Reverse(vkms);
        ippv := FlipV(ippv);
      }
    }
  }

  /** Opening a cube: the constructor's exceptions are returned as errors. */
  method Open(h: Header, data: Cube3) returns (r: Result<FitsAnalyzer>)
    ensures r.Err? <==> Loaded(h, data).Err?
    ensures r.Err? ==> r.error == Loaded(h, data).error
    ensures r.Ok? ==>
              fresh(r.value) && r.value.State() == Normalized(Loaded(h, data).value) &&
              r.value.nx == h.naxis1 && r.value.ny == h.naxis2 && r.value.nz == h.naxis3 &&
              r.value.dpc == DPC
  {
    var raw := Loaded(h, data);
    if raw.Err? {
      return Err(raw.error);
    }
    var fa := new FitsAnalyzer(h, data);
    return Ok(fa);
  }
}
