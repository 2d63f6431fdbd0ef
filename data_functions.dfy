/** backend/operations/data_functions.py: the affine map between channel
    indices and energies, the search for the half-maximum channel after the
    zero peak, and a metadata converter. Numbers are exact reals. */
module DataFunctions {
  import opened Wrappers
  import opened PyText
  import opened Metadata

  /** The energy axis: `offset`, `scale` and `units` of a signal axis. */
  datatype AxesData = AxesData(offset: real, scale: real, units: string)

  /** `calculate_true_index`: the energy of channel `index`. */
  function CalculateTrueIndex(axes: AxesData, index: real): real {
    axes.offset + axes.scale * index
  }

  /** `calculate_original_index`: the channel of energy `index`; a zero
      scale raises ZeroDivisionError. */
  function CalculateOriginalIndex(axes: AxesData, index: real): (r: Result<real>)
    ensures r.Err? <==> axes.scale == 0.0
    ensures r.Err? ==> r == Err(ZeroDivisionError)
    ensures r.Ok? ==> CalculateTrueIndex(axes, r.value) == index
  {
    if axes.scale == 0.0 then Err(ZeroDivisionError)
    else Ok((index - axes.offset) / axes.scale)
  }

  /** `calculate_zero_index`: the channel whose energy is zero. */
  function CalculateZeroIndex(axes: AxesData): (r: Result<real>)
    ensures r.Err? <==> axes.scale == 0.0
    ensures r.Err? ==> r == Err(ZeroDivisionError)
    ensures r.Ok? ==> CalculateTrueIndex(axes, r.value) == 0.0
  {
    if axes.scale == 0.0 then Err(ZeroDivisionError)
    else Ok(-axes.offset / axes.scale)
  }

  /** Channel to energy and back gives the channel again. */
  lemma OriginalOfTrue(axes: AxesData, index: real)
    requires axes.scale != 0.0
    ensures CalculateOriginalIndex(axes, CalculateTrueIndex(axes, index)) == Ok(index)
  {
    var e := CalculateTrueIndex(axes, index);
    calc {
      (e - axes.offset) / axes.scale;
      (axes.scale * index) / axes.scale;
      index;
    }
  }

  /** The zero index is the original index of energy zero. */
  lemma ZeroIndexIsOriginalOfZero(axes: AxesData)
    ensures CalculateZeroIndex(axes) == CalculateOriginalIndex(axes, 0.0)
  {
  }

  /* ---------- calculate_fwhm ---------- */

  function Abs(x: real): real {
    if x < 0.0 then -x else x
  }

  /** `data[i]` for a position Python accepts. */
  function At(data: seq<real>, i: int): real
    requires -|data| <= i < |data|
  {
    data[PyPos(|data|, i)]
  }

  /** Sample `i` ends the scan: it lies within the tolerance of the half
      maximum, or below it. */
  predicate Stops(data: seq<real>, i: int, half: real, tol: real)
    requires -|data| <= i < |data|
  {
    Abs(At(data, i) - half) <= tol || At(data, i) < half
  }

  /** Sample `j` ends the scan that starts after the peak at `z`. */
  predicate StopsAfter(data: seq<real>, z: int, j: int)
    requires -|data| <= z < |data| && -|data| <= j < |data|
  {
    var height := At(data, z);
    Stops(data, j, height / 2.0, height * 0.05)
  }

  /** The first position from `i` on where the scan stops, or `|data|`. */
  function FirstStop(data: seq<real>, i: int, half: real, tol: real): (k: int)
    requires -|data| < i <= |data|
    ensures i <= k <= |data|
    ensures forall j :: i <= j < k ==> !Stops(data, j, half, tol)
    ensures k < |data| ==> Stops(data, k, half, tol)
    decreases |data| - i
  {
    if i == |data| then i
    else if Stops(data, i, half, tol) then i
    else FirstStop(data, i + 1, half, tol)
  }

  /** The index reported for a scan that stopped at `k`: `k` when it is
      within tolerance or is the first sample after the peak; otherwise the
      closer of `k` and `k - 1` to the half maximum, `k - 1` on a tie. */
  function Choose(data: seq<real>, z: int, k: int, half: real, tol: real): (r: int)
    requires -|data| <= z && z + 1 <= k < |data|
    ensures r == k || (r == k - 1 && k > z + 1)
    ensures Abs(At(data, k) - half) <= tol ==> r == k
    ensures k == z + 1 ==> r == k
    ensures k > z + 1 && Abs(At(data, k) - half) > tol ==>
      (r == k <==> Abs(At(data, k) - half) < Abs(At(data, k - 1) - half))
  {
    if Abs(At(data, k) - half) <= tol then k
    else if k > z + 1 then
      if Abs(At(data, k) - half) < Abs(At(data, k - 1) - half) then k else k - 1
    else k
  }

  /** The result of `calculate_fwhm(z, data)`: IndexError unless `data[z]`
      exists; otherwise the scan starts after `z` with half the height at
      `z` as target and 5% of that height as tolerance, and the result is `z`
      when it never stops. */
  function Fwhm(data: seq<real>, z: int): (r: Result<int>)
    ensures r.Err? <==> !(-|data| <= z < |data|)
    ensures r.Err? ==> r == Err(IndexError)
    ensures r.Ok? ==> z <= r.value < |data|
    ensures r.Ok? && (forall j :: z < j < |data| ==> !StopsAfter(data, z, j)) ==> r.value == z
  {
    if !(-|data| <= z < |data|) then Err(IndexError)
    else
      var height := At(data, z);
      var half, tol := height / 2.0, height * 0.05;
      var k := FirstStop(data, z + 1, half, tol);
      if k == |data| then Ok(z)
      else
        assert StopsAfter(data, z, k);
        Ok(Choose(data, z, k, half, tol))
  }

  /** When the scan stops, the result is the first stopping sample or the
      one before it, with the rules of `Choose`; every sample between the
      peak and the stop is above the half maximum and outside the
      tolerance. */
  lemma {:induction false} FwhmAtStop(data: seq<real>, z: int, k: int)
    requires -|data| <= z < k < |data|
    requires StopsAfter(data, z, k)
    requires forall j :: z < j < k ==> !StopsAfter(data, z, j)
    ensures var height := At(data, z);
      Fwhm(data, z) == Ok(Choose(data, z, k, height / 2.0, height * 0.05))
  {
    var height := At(data, z);
    var half, tol := height / 2.0, height * 0.05;
    var s := FirstStop(data, z + 1, half, tol);
    if s < k {
      assert StopsAfter(data, z, s);
    }
  }

  /** `calculate_fwhm`. */
  method CalculateFwhm(z: int, data: seq<real>) returns (r: Result<int>)
    ensures r == Fwhm(data, z)
  {
    if !(-|data| <= z < |data|) {
      return Err(IndexError);
    }
    var height := data[PyPos(|data|, z)];
    var half := height / 2.0;
    var halfMaxIndex := z;
    var tol := height * 0.05;
    var i := z + 1;
    while i < |data|
      invariant z + 1 <= i <= |data|
      invariant forall j :: z + 1 <= j < i ==> !Stops(data, j, half, tol)
      invariant FirstStop(data, z + 1, half, tol) == FirstStop(data, i, half, tol)
      decreases |data| - i
    {
      var sample := data[PyPos(|data|, i)];
      if Abs(sample - half) <= tol {
        return Ok(i);
      } else if sample < half {
        if i > z + 1 {
          var prevDiff := Abs(data[PyPos(|data|, i - 1)] - half);
          var currDiff := Abs(sample - half);
          halfMaxIndex := if currDiff < prevDiff then i else i - 1;
        } else {
          halfMaxIndex := i;
        }
        return Ok(halfMaxIndex);
      }
      i := i + 1;
    }
    return Ok(halfMaxIndex);
  }

  /* ---------- _convert_metadata_to_serializable ---------- */

  /** The conversion of one value in this copy of the converter: a nested
      dictionary reaches the recursive call through `self`, which is not
      defined in a module-level function; the NameError is caught and the
      value is stored as its `str()`. Every other value is converted as the
      service's converter does. */
  function ConvertValueFlat(v: Value): (r: Value)
    ensures v.Dict? ==> r == Repr(v)
    ensures !v.Dict? ==> r == ConvertValue(v)
  {
    match v
    case Dict(_) => Repr(v)
    case Numpy(t) => t
    case Str(_) => v
    case Int(_) => v
    case Float(_) => v
    case Bool(_) => v
    case List(_) => v
    case Repr(_) => v
    case Opaque(_) => Repr(v)
  }

  /** The first `n` entries of `entries` as this converter leaves them. */
  function FlatPrefix(entries: seq<(string, Value)>, n: nat): (r: seq<(string, Value)>)
    requires n <= |entries|
    ensures |r| <= n
  {
    if n == 0 then []
    else
      var last := entries[n - 1];
      FlatPrefix(entries, n - 1)
      + (if Private(last.0) then [] else [(last.0, ConvertValueFlat(last.1))])
  }

  /** `_convert_metadata_to_serializable` of data_functions.py, as written. */
  method ConvertMetadataToSerializable(d: Value) returns (result: seq<(string, Value)>)
    requires d.Dict?
    ensures result == FlatPrefix(d.entries, |d.entries|)
  {
    result := [];
    var i := 0;
    while i < |d.entries|
      invariant 0 <= i <= |d.entries|
      invariant result == FlatPrefix(d.entries, i)
    {
      var (key, value) := d.entries[i];
      if !StartsWith(key, "_") {
        var converted: Value;
        if value.Dict? {
          converted := Repr(value);
        } else if value.Numpy? {
          converted := value.tolist;
        } else if value.Opaque? {
          converted := Repr(value);
        } else {
          converted := value;
        }
        result := result + [(key, converted)];
      }
      i := i + 1;
    }
  }

  /** This copy keeps the same keys as the service's converter and the same
      values, except that a nested dictionary becomes its `str()` instead of
      being converted. */
  lemma {:induction false} FlatAgreesExceptNested(d: Value, n: nat)
    requires d.Dict? && n <= |d.entries|
    ensures |FlatPrefix(d.entries, n)| == |SerializablePrefix(d, n)|
    ensures forall i :: 0 <= i < |FlatPrefix(d.entries, n)| ==>
      && FlatPrefix(d.entries, n)[i].0 == SerializablePrefix(d, n)[i].0
      && (FlatPrefix(d.entries, n)[i].1 == SerializablePrefix(d, n)[i].1
          || (FlatPrefix(d.entries, n)[i].1.Repr? && SerializablePrefix(d, n)[i].1.Dict?))
  {
    if n > 0 {
      FlatAgreesExceptNested(d, n - 1);
    }
  }

  /** The discrepancy on a one-level example: {"a": {"b": 1}} keeps its
      nested dictionary in the service's converter but becomes a string here. */
  lemma NestedDictionaryStringified()
    ensures var inner := Dict([("b", Int(1))]);
      var d := Dict([("a", inner)]);
      && FlatPrefix(d.entries, 1) == [("a", Repr(inner))]
      && Serializable(d) == [("a", Dict([("b", Int(1))]))]
  {
    var inner := Dict([("b", Int(1))]);
    var d := Dict([("a", inner)]);
    assert "a"[..1][0] != "_"[0] && "b"[..1][0] != "_"[0];
    assert SerializablePrefix(inner, 1) == [("b", Int(1))];
    assert ConvertValue(inner) == Dict([("b", Int(1))]);
    assert SerializablePrefix(d, 1) == [] + [("a", ConvertValue(inner))];
  }
}
