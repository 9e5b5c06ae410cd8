/** The merge step of ObsSimulator.observe: the per-worker images, in
    partition order, are folded into the first one along the channel axis. */
module ImageMerger {
  import opened Common

  /** The fields of a radmc3dPy image that the merge touches. The image
      arrays are indexed [x][y][channel]. */
  datatype Partition = Partition(image: Cube3, imageJyppix: Cube3,
                                 freq: seq<real>, wav: seq<real>,
                                 nfreq: int, nwav: int)

  /** Two arrays agree on every dimension except the channel axis (axis 2). */
  predicate SameSpatial(a: Cube3, b: Cube3)
  {
    |a| == |b| && forall x :: 0 <= x < |a| ==> |a[x]| == |b[x]|
  }

  /** np.append(a, b, axis=2): each (x, y) spectrum of b is appended to that
      of a; numpy raises ValueError when the other dimensions differ. */
  function AppendChannels(a: Cube3, b: Cube3): Result<Cube3>
  {
    if SameSpatial(a, b) then
      Ok(seq(|a|, x requires 0 <= x < |a| =>
               seq(|a[x]|, y requires 0 <= y < |a[x]| => a[x][y] + b[x][y])))
    else Err(ShapeMismatch)
  }

  /** One pass of the merge loop body: image and imageJyppix appended along
      the channel axis, freq and wav concatenated, the counts summed. */
  function AppendPartition(acc: Partition, p: Partition): Result<Partition>
  {
    match AppendChannels(acc.image, p.image)
    case Err(e) => Err(e)
    case Ok(image) =>
      match AppendChannels(acc.imageJyppix, p.imageJyppix)
      case Err(e) => Err(e)
      case Ok(jy) =>
        Ok(Partition(image, jy, acc.freq + p.freq, acc.wav + p.wav,
                     acc.nfreq + p.nfreq, acc.nwav + p.nwav))
  }

  /** The merged image: rets[0] with every later result folded in, in list
      order; an empty list fails on rets[0]. */
  function Merged(ps: seq<Partition>): Result<Partition>
  {
    if ps == [] then Err(IndexOutOfRange)
    else if |ps| == 1 then Ok(ps[0])
    else
      match Merged(ps[..|ps| - 1])
      case Err(e) => Err(e)
      case Ok(acc) => AppendPartition(acc, ps[|ps| - 1])
  }

  /** Concatenation of a list of lists, in order. */
  function Flatten(ss: seq<seq<real>>): seq<real>
  {
    if ss == [] then [] else Flatten(ss[..|ss| - 1]) + ss[|ss| - 1]
  }

  /** Once a prefix of the results fails to merge, the whole list fails with
      the same error: the loop stops at the first failing append. */
  lemma {:induction false} MergeErrPersists(ps: seq<Partition>, k: nat)
    requires 1 <= k <= |ps|
    requires Merged(ps[..k]).Err?
    ensures Merged(ps) == Merged(ps[..k])
    decreases |ps| - k
  {
    if k < |ps| {
      assert ps[..k + 1][..k] == ps[..k];
      MergeErrPersists(ps, k + 1);
    } else {
      assert ps[..k] == ps;
    }
  }

  /** The per-result columns the merge reads. */
  function Freqs(ps: seq<Partition>): seq<seq<real>> { seq(|ps|, k requires 0 <= k < |ps| => ps[k].freq) }
  function Wavs(ps: seq<Partition>): seq<seq<real>> { seq(|ps|, k requires 0 <= k < |ps| => ps[k].wav) }
  function NFreqs(ps: seq<Partition>): seq<int> { seq(|ps|, k requires 0 <= k < |ps| => ps[k].nfreq) }
  function NWavs(ps: seq<Partition>): seq<int> { seq(|ps|, k requires 0 <= k < |ps| => ps[k].nwav) }

  /** Merging one result returns it unchanged. */
  lemma MergeSingle(p: Partition)
    ensures Merged([p]) == Ok(p)
  {
  }

  /** The merge succeeds exactly when the list is non-empty and every result
      has rets[0]'s spatial shape, for both image arrays. */
  lemma {:induction false} MergeOkIff(ps: seq<Partition>)
    ensures Merged(ps).Ok? <==>
              ps != [] &&
              forall k :: 0 <= k < |ps| ==>
                SameSpatial(ps[0].image, ps[k].image) && SameSpatial(ps[0].imageJyppix, ps[k].imageJyppix)
    ensures Merged(ps).Ok? ==>
              SameSpatial(Merged(ps).value.image, ps[0].image) &&
              SameSpatial(Merged(ps).value.imageJyppix, ps[0].imageJyppix)
  {
    if |ps| > 1 {
      var init := ps[..|ps| - 1];
      MergeOkIff(init);
      assert forall k :: 0 <= k < |init| ==> init[k] == ps[k];
    }
  }

  lemma FlattenSnoc(ss: seq<seq<real>>, s: seq<real>)
    ensures Flatten(ss + [s]) == Flatten(ss) + s
  {
    assert (ss + [s])[..|ss|] == ss;
  }

  /** The merged freq and wav are the results' arrays concatenated in
      partition order, and nfreq and nwav are the sums of the counts. */
  lemma {:induction false} MergedChannels(ps: seq<Partition>)
    requires Merged(ps).Ok?
    ensures Merged(ps).value.freq == Flatten(Freqs(ps))
    ensures Merged(ps).value.wav == Flatten(Wavs(ps))
    ensures Merged(ps).value.nfreq == Sum(NFreqs(ps))
    ensures Merged(ps).value.nwav == Sum(NWavs(ps))
  {
    var n := |ps|;
    if n == 1 {
      assert Freqs(ps) == [] + [ps[0].freq];
      assert Wavs(ps) == [] + [ps[0].wav];
      assert NFreqs(ps) == [] + [ps[0].nfreq];
      assert NWavs(ps) == [] + [ps[0].nwav];
      FlattenSnoc([], ps[0].freq);
      FlattenSnoc([], ps[0].wav);
      SumSnoc([], ps[0].nfreq);
      SumSnoc([], ps[0].nwav);
    } else {
      var init := ps[..n - 1];
      MergedChannels(init);
      assert Freqs(ps) == Freqs(init) + [ps[n - 1].freq];
      assert Wavs(ps) == Wavs(init) + [ps[n - 1].wav];
      assert NFreqs(ps) == NFreqs(init) + [ps[n - 1].nfreq];
      assert NWavs(ps) == NWavs(init) + [ps[n - 1].nwav];
      FlattenSnoc(Freqs(init), ps[n - 1].freq);
      FlattenSnoc(Wavs(init), ps[n - 1].wav);
      SumSnoc(NFreqs(init), ps[n - 1].nfreq);
      SumSnoc(NWavs(init), ps[n - 1].nwav);
    }
  }

  /** The two image arrays the loop appends along the channel axis. */
  datatype ImageArray = Image | ImageJyppix

  function ArrayOf(p: Partition, a: ImageArray): Cube3
  {
    match a
    case Image => p.image
    case ImageJyppix => p.imageJyppix
  }

  /** The spectrum at pixel (x, y) of one image array of every result, in
      partition order. */
  function Spectra(ps: seq<Partition>, a: ImageArray, x: nat, y: nat): seq<seq<real>>
    requires forall k :: 0 <= k < |ps| ==> x < |ArrayOf(ps[k], a)| && y < |ArrayOf(ps[k], a)[x]|
  {
    seq(|ps|, k requires 0 <= k < |ps| => ArrayOf(ps[k], a)[x][y])
  }

  /** np.append(a, b, axis=2) at one pixel: b's spectrum after a's. */
  lemma AppendChannelsAt(a: Cube3, b: Cube3, x: nat, y: nat)
    requires AppendChannels(a, b).Ok?
    requires x < |a| && y < |a[x]|
    ensures x < |b| && y < |b[x]|
    ensures x < |AppendChannels(a, b).value| && y < |AppendChannels(a, b).value[x]|
    ensures AppendChannels(a, b).value[x][y] == a[x][y] + b[x][y]
  {
  }

  /** One pass of the loop appends each image array separately. */
  lemma AppendPartitionArray(acc: Partition, p: Partition, a: ImageArray)
    requires AppendPartition(acc, p).Ok?
    ensures AppendChannels(ArrayOf(acc, a), ArrayOf(p, a)).Ok?
    ensures ArrayOf(AppendPartition(acc, p).value, a) == AppendChannels(ArrayOf(acc, a), ArrayOf(p, a)).value
  {
  }

  /** Both merged image arrays (image and imageJyppix) hold, at each pixel,
      the results' spectra appended along the channel axis in partition
      order. */
  lemma {:induction false} MergedImage(ps: seq<Partition>, a: ImageArray, x: nat, y: nat)
    requires Merged(ps).Ok?
    requires x < |ArrayOf(ps[0], a)| && y < |ArrayOf(ps[0], a)[x]|
    ensures forall k :: 0 <= k < |ps| ==> x < |ArrayOf(ps[k], a)| && y < |ArrayOf(ps[k], a)[x]|
    ensures x < |ArrayOf(Merged(ps).value, a)| && y < |ArrayOf(Merged(ps).value, a)[x]|
    ensures ArrayOf(Merged(ps).value, a)[x][y] == Flatten(Spectra(ps, a, x, y))
  {
    MergeOkIff(ps);
    var n := |ps|;
    if n == 1 {
      assert Spectra(ps, a, x, y) == [] + [ArrayOf(ps[0], a)[x][y]];
      FlattenSnoc([], ArrayOf(ps[0], a)[x][y]);
    } else {
      var init := ps[..n - 1];
      assert init[0] == ps[0];
      MergeOkIff(init);
      MergedImage(init, a, x, y);
      var acc := Merged(init).value;
      assert Merged(ps) == AppendPartition(acc, ps[n - 1]);
      AppendPartitionArray(acc, ps[n - 1], a);
      AppendChannelsAt(ArrayOf(acc, a), ArrayOf(ps[n - 1], a), x, y);
      assert Spectra(ps, a, x, y) == Spectra(init, a, x, y) + [ArrayOf(ps[n - 1], a)[x][y]];
      FlattenSnoc(Spectra(init, a, x, y), ArrayOf(ps[n - 1], a)[x][y]);
    }
  }

  /** A radmc3dPy image object as the merge loop sees it. */
  class RadmcImage {
    var image: Cube3
    var imageJyppix: Cube3
    var freq: seq<real>
    var wav: seq<real>
    var nfreq: int
    var nwav: int

    function Snapshot(): Partition
      reads this
    {
      Partition(image, imageJyppix, freq, wav, nfreq, nwav)
    }

    constructor (p: Partition)
      ensures Snapshot() == p
    {
      image, imageJyppix, freq, wav, nfreq, nwav :=
        p.image, p.imageJyppix, p.freq, p.wav, p.nfreq, p.nwav;
    }

    /** One pass of the loop body: both image arrays appended along the
        channel axis, image first, then freq and wav concatenated and the
        counts added. An append that raises leaves the fields assigned
        before it in place. */
    method Append(ret: RadmcImage) returns (r: Outcome)
      requires ret != this
      modifies this
      ensures r.Pass? <==> AppendPartition(old(Snapshot()), ret.Snapshot()).Ok?
      ensures r.Pass? ==> Snapshot() == AppendPartition(old(Snapshot()), ret.Snapshot()).value
      ensures AppendChannels(old(image), ret.image).Err? ==>
                r == Fail(ShapeMismatch) && Snapshot() == old(Snapshot())
      ensures AppendChannels(old(image), ret.image).Ok? && AppendChannels(old(imageJyppix), ret.imageJyppix).Err? ==>
                r == Fail(ShapeMismatch) &&
                Snapshot() == old(Snapshot()).(image := AppendChannels(old(image), ret.image).value)
    {
      var im := AppendChannels(image, ret.image);
      if im.Err? {
        return Fail(im.error);
      }
      image := im.value;
      var jy := AppendChannels(imageJyppix, ret.imageJyppix);
      if jy.Err? {
        return Fail(jy.error);
      }
      imageJyppix := jy.value;
      freq := freq + ret.freq;
      wav := wav + ret.wav;
      nfreq := nfreq + ret.nfreq;
      nwav := nwav + ret.nwav;
      return Pass;
    }
  }

  /** The snapshots of a list of image objects. */
  function Snapshots(rets: seq<RadmcImage>): seq<Partition>
    reads set k | 0 <= k < |rets| :: rets[k]
  {
    seq(|rets|, k requires 0 <= k < |rets| reads set j | 0 <= j < |rets| :: rets[j] => rets[k].Snapshot())
  }

  /** The merge loop of observe: data = rets[0], then every later result is
      appended to it in list order. Only rets[0] changes; the worker results
      are distinct objects. */
  method MergeResults(rets: seq<RadmcImage>) returns (r: Result<RadmcImage>)
    requires forall k :: 1 <= k < |rets| ==> rets[k] != rets[0]
    modifies if rets == [] then {} else {rets[0]}
    ensures r.Ok? <==> Merged(old(Snapshots(rets))).Ok?
    ensures r.Err? ==> r.error == Merged(old(Snapshots(rets))).error
    ensures r.Ok? ==> r.value == rets[0] && rets[0].Snapshot() == Merged(old(Snapshots(rets))).value
  {
    if rets == [] {
      return Err(IndexOutOfRange);
    }
    ghost var ps := Snapshots(rets);
    var data := rets[0];
    var k := 1;
    while k < |rets|
      invariant 1 <= k <= |rets|
      invariant forall j :: 1 <= j < |rets| ==> rets[j].Snapshot() == ps[j]
      invariant Merged(ps[..k]) == Ok(data.Snapshot())
    {
      var out := data.Append(rets[k]);
      assert ps[..k + 1][..k] == ps[..k];
      if out.Fail? {
        MergeErrPersists(ps, k + 1);
        return Err(out.error);
      }
      k := k + 1;
    }
    assert ps[..k] == ps;
    return Ok(data);
  }
}
