/** backend/operations/conversion_functions.py: `SpectrumConverter`, which
    keeps an energy axis and converts between channel indices and energies.
    Its fields are set once, by the constructor. */
module Conversion {
  import opened Wrappers
  import DataFunctions

  datatype ConverterMetadata = ConverterMetadata(offset: real, scale: real, units: string, zeroIndex: real)

  datatype SpectrumConverter = SpectrumConverter(offset: real, scale: real, units: string, zeroIndex: real)
  {
    /** Every converter the constructor builds: the scale is not zero and
        the zero index was computed from the axis. */
    predicate Valid() {
      scale != 0.0 && zeroIndex == -offset / scale
    }

    /** `to_true_index`: the energy of a channel. */
    function ToTrueIndex(originalIndex: real): real {
      offset + scale * originalIndex
    }

    /** `to_original_index`: the channel of an energy; the inverse of
        `ToTrueIndex`. */
    function ToOriginalIndex(trueIndex: real): (r: real)
      requires Valid()
      ensures ToTrueIndex(r) == trueIndex
    {
      (trueIndex - offset) / scale
    }

    /** `convert_array_to_true`: the energies of the channels 0, 1, ... of an
        array of that length; the values in the array play no part. */
    function ConvertArrayToTrue(originalArray: seq<real>): (r: seq<real>)
      ensures |r| == |originalArray|
      ensures forall i :: 0 <= i < |r| ==> r[i] == ToTrueIndex(i as real)
    {
      seq(|originalArray|, i requires 0 <= i < |originalArray| => ToTrueIndex(i as real))
    }

    /** `convert_array_to_original`: each energy converted to its channel. */
    function ConvertArrayToOriginal(trueArray: seq<real>): (r: seq<real>)
      requires Valid()
      ensures |r| == |trueArray|
      ensures forall i :: 0 <= i < |r| ==> ToTrueIndex(r[i]) == trueArray[i]
    {
      seq(|trueArray|, i requires 0 <= i < |trueArray| => ToOriginalIndex(trueArray[i]))
    }

    /** `get_metadata`: the stored parameters, unchanged. */
    function GetMetadata(): (m: ConverterMetadata)
      ensures m.offset == offset && m.scale == scale && m.units == units && m.zeroIndex == zeroIndex
    {
      ConverterMetadata(offset, scale, units, zeroIndex)
    }
  }

  /** `SpectrumConverter(axes_data)`: copies the axis and computes the zero
      index once; a zero scale makes that division raise ZeroDivisionError. */
  function MakeConverter(axes: DataFunctions.AxesData): (r: Result<SpectrumConverter>)
    ensures r.Err? <==> axes.scale == 0.0
    ensures r.Err? ==> r == Err(ZeroDivisionError)
    ensures r.Ok? ==>
      && r.value.Valid()
      && r.value.offset == axes.offset && r.value.scale == axes.scale && r.value.units == axes.units
      && r.value.ToTrueIndex(r.value.zeroIndex) == 0.0
  {
    if axes.scale == 0.0 then Err(ZeroDivisionError)
    else Ok(SpectrumConverter(axes.offset, axes.scale, axes.units, -axes.offset / axes.scale))
  }

  /** The converter and the free functions of data_functions.py compute the
      same energies, channels and zero index. */
  lemma ConverterAgreesWithDataFunctions(axes: DataFunctions.AxesData, x: real)
    requires axes.scale != 0.0
    ensures var c := MakeConverter(axes).value;
      && c.ToTrueIndex(x) == DataFunctions.CalculateTrueIndex(axes, x)
      && Ok(c.ToOriginalIndex(x)) == DataFunctions.CalculateOriginalIndex(axes, x)
      && Ok(c.GetMetadata().zeroIndex) == DataFunctions.CalculateZeroIndex(axes)
  {
  }

  /** Channel to energy and back gives the channel. */
  lemma ToOriginalOfToTrue(c: SpectrumConverter, i: real)
    requires c.Valid()
    ensures c.ToOriginalIndex(c.ToTrueIndex(i)) == i
  {
    calc {
      c.ToOriginalIndex(c.ToTrueIndex(i));
      (c.scale * i) / c.scale;
      i;
    }
  }

  /** Converting the energies of an array's channels back gives the channel
      numbers 0, 1, ..., whatever the array held. */
  lemma ArrayRoundTrip(c: SpectrumConverter, a: seq<real>)
    requires c.Valid()
    ensures c.ConvertArrayToOriginal(c.ConvertArrayToTrue(a))
         == seq(|a|, i requires 0 <= i < |a| => i as real)
  {
    var t := c.ConvertArrayToTrue(a);
    forall i | 0 <= i < |a|
      ensures c.ConvertArrayToOriginal(t)[i] == i as real
    {
      ToOriginalOfToTrue(c, i as real);
    }
  }

  /* ---------- calculate_fwhm ---------- */

  /** `int(x)`: truncation toward zero. */
  function Trunc(x: real): (n: int)
    ensures x >= 0.0 ==> n as real <= x < n as real + 1.0
    ensures x < 0.0 ==> n as real - 1.0 < x <= n as real
  {
    if x >= 0.0 then x.Floor else -((-x).Floor)
  }

  /** `calculate_fwhm` as written: it indexes the spectrum with the stored
      zero index, which is always a float (true division), so the lookup
      raises TypeError before the scan starts; the argument is never read. */
  function CalculateFwhm(c: SpectrumConverter, spectrumData: seq<real>, zeroIndexArg: int)
    : (r: Result<int>)
    ensures r == Err(TypeError)
  {
    Err(TypeError)
  }

  /** `calculate_fwhm` as evidently intended: the scan of data_functions.py
      from the stored zero index converted to a channel with `int()`; the
      argument is ignored as in the original. */
  method CalculateFwhmIntended(c: SpectrumConverter, spectrumData: seq<real>, zeroIndexArg: int)
    returns (r: Result<int>)
    ensures r == DataFunctions.Fwhm(spectrumData, Trunc(c.zeroIndex))
    ensures r.Ok? ==> Trunc(c.zeroIndex) <= r.value < |spectrumData|
  {
    r := DataFunctions.CalculateFwhm(Trunc(c.zeroIndex), spectrumData);
  }

  /** The discrepancy: on a spectrum where the intended scan finds the half
      maximum, the method as written raises. An axis with offset -2 and
      scale 1 puts the zero peak at channel 2. */
  lemma CalculateFwhmAlwaysRaises()
    ensures var c := MakeConverter(DataFunctions.AxesData(-2.0, 1.0, "eV")).value;
      var s := [0.0, 0.0, 10.0, 5.0];
      && CalculateFwhm(c, s, 2).Err?
      && DataFunctions.Fwhm(s, Trunc(c.zeroIndex)) == Ok(3)
  {
    var c := MakeConverter(DataFunctions.AxesData(-2.0, 1.0, "eV")).value;
    var s := [0.0, 0.0, 10.0, 5.0];
    assert c.zeroIndex == 2.0;
    assert Trunc(2.0) == 2;
    assert DataFunctions.StopsAfter(s, 2, 3);
    DataFunctions.FwhmAtStop(s, 2, 3);
  }
}
