/** backend/operations/spectrum_functions.py: the spectrum of a whole signal.
    A data cube is collapsed over both spatial axes. */
module SpectrumFunctions {
  import opened Wrappers
  import opened Signals

  function Zeros(n: nat): (r: seq<real>)
    ensures |r| == n && forall k :: 0 <= k < n ==> r[k] == 0.0
  {
    seq(n, k => 0.0)
  }

  /** Element-wise addition of two spectra of one length. */
  function AddSpectra(a: seq<real>, b: seq<real>): (r: seq<real>)
    requires |a| == |b|
    ensures |r| == |a| && forall k :: 0 <= k < |a| ==> r[k] == a[k] + b[k]
  {
    seq(|a|, k requires 0 <= k < |a| => a[k] + b[k])
  }

  /** The element-wise total of spectra of length `n`. */
  function SumSpectra(ss: seq<seq<real>>, n: nat): (r: seq<real>)
    requires forall i :: 0 <= i < |ss| ==> |ss[i]| == n
    ensures |r| == n
  {
    if ss == [] then Zeros(n) else AddSpectra(ss[0], SumSpectra(ss[1..], n))
  }

  /** The total over the pixels of a row, then over the rows:
      `np.sum(cube, axis=(0, 1))`. */
  function SumPixels(c: seq<seq<seq<real>>>, n: nat): (r: seq<real>)
    requires forall i, j :: 0 <= i < |c| && 0 <= j < |c[i]| ==> |c[i][j]| == n
    ensures |r| == n
  {
    SumSpectra(seq(|c|, i requires 0 <= i < |c| => SumSpectra(c[i], n)), n)
  }

  /** Channel `k` of a sum of spectra is the sum of their channels `k`. */
  lemma {:induction false} SumSpectraChannel(ss: seq<seq<real>>, n: nat, k: nat)
    requires forall i :: 0 <= i < |ss| ==> |ss[i]| == n
    requires k < n
    ensures SumSpectra(ss, n)[k] == Sum(seq(|ss|, i requires 0 <= i < |ss| => ss[i][k]))
  {
    var col := seq(|ss|, i requires 0 <= i < |ss| => ss[i][k]);
    if ss != [] {
      SumSpectraChannel(ss[1..], n, k);
      assert col[1..] == seq(|ss[1..]|, i requires 0 <= i < |ss[1..]| => ss[1..][i][k]);
    }
  }

  /** Channel `k` of the collapsed cube is the double sum of that channel
      over every pixel. */
  lemma SumPixelsChannel(c: seq<seq<seq<real>>>, n: nat, k: nat)
    requires forall i, j :: 0 <= i < |c| && 0 <= j < |c[i]| ==> |c[i][j]| == n
    requires k < n
    ensures SumPixels(c, n)[k]
         == Sum(seq(|c|, i requires 0 <= i < |c| =>
                  Sum(seq(|c[i]|, j requires 0 <= j < |c[i]| => c[i][j][k]))))
  {
    var rows := seq(|c|, i requires 0 <= i < |c| => SumSpectra(c[i], n));
    SumSpectraChannel(rows, n, k);
    forall i | 0 <= i < |c|
      ensures rows[i][k] == Sum(seq(|c[i]|, j requires 0 <= j < |c[i]| => c[i][j][k]))
    {
      SumSpectraChannel(c[i], n, k);
    }
    assert seq(|rows|, i requires 0 <= i < |rows| => rows[i][k])
        == seq(|c|, i requires 0 <= i < |c| =>
             Sum(seq(|c[i]|, j requires 0 <= j < |c[i]| => c[i][j][k])));
  }

  /** `extract_spectrum_data`: ValueError without data; 1D data is the
      spectrum; a cube gives the total spectrum over all pixels; 2D data and
      every other rank raise ValueError. */
  function ExtractSpectrumData(sig: Signal): (r: Result<seq<real>>)
    ensures sig.data.None? ==> r == Err(ValueError)
    ensures sig.data.Some? && Rank(sig.data.value) == 1 ==> r == Ok(sig.data.value.values.v)
    ensures sig.data.Some? && Rank(sig.data.value) == 3 ==>
      r.Ok? && |r.value| == sig.data.value.shape[2]
    ensures sig.data.Some? && Rank(sig.data.value) !in {1, 3} ==> r == Err(ValueError)
  {
    match sig.data
    case None => Err(ValueError)
    case Some(a) =>
      match a.values
      case Line(v) => Ok(v)
      case Cube(c) => Ok(SumPixels(c, a.shape[2]))
      case Grid(_) => Err(ValueError)
      case Unviewed => Err(ValueError)
  }

  /** The whole-signal spectrum exists exactly for the signals flagged as
      spectra by `get_signal_capabilities`. */
  lemma ExtractSpectrumDataMatchesCapability(sig: Signal)
    ensures ExtractSpectrumData(sig).Ok? <==> GetSignalCapabilities(sig).hasSpectrum
  {
  }

  /** For a cube, channel `k` of the result is the total of channel `k` over
      every pixel. */
  lemma ExtractSpectrumDataSumsPixels(sig: Signal, k: nat)
    requires sig.data.Some? && sig.data.value.values.Cube?
    requires k < sig.data.value.shape[2]
    ensures var c := sig.data.value.values.c;
      ExtractSpectrumData(sig).value[k]
      == Sum(seq(|c|, i requires 0 <= i < |c| =>
               Sum(seq(|c[i]|, j requires 0 <= j < |c[i]| => c[i][j][k]))))
  {
    var a := sig.data.value;
    SumPixelsChannel(a.values.c, a.shape[2], k);
  }

  /** A cube of a single pixel yields that pixel's spectrum. */
  lemma {:induction false} SinglePixelCube(sig: Signal)
    requires sig.data.Some? && sig.data.value.values.Cube?
    requires sig.data.value.shape[0] == 1 && sig.data.value.shape[1] == 1
    ensures ExtractSpectrumData(sig) == Ok(sig.data.value.values.c[0][0])
  {
    var a := sig.data.value;
    var c, n := a.values.c, a.shape[2];
    var px := c[0][0];
    var r := ExtractSpectrumData(sig).value;
    forall k | 0 <= k < n ensures r[k] == px[k] {
      ExtractSpectrumDataSumsPixels(sig, k);
      assert seq(|c[0]|, j requires 0 <= j < |c[0]| => c[0][j][k]) == [px[k]];
      assert Sum([px[k]]) == px[k] + Sum([]);
      assert Sum([Sum([px[k]])]) == Sum([px[k]]) + Sum([]);
      assert seq(|c|, i requires 0 <= i < |c| =>
               Sum(seq(|c[i]|, j requires 0 <= j < |c[i]| => c[i][j][k]))) == [Sum([px[k]])];
    }
    assert |px| == n;
    assert r == px;
  }
}
