/** backend/operations/spectrum_viewer_functions.py: the spectrum at one
    pixel of a signal, chosen by its rank, with numpy's indexing (a negative
    coordinate counts from the end of its axis). */
module SpectrumViewerFunctions {
  import opened Wrappers
  import opened Signals

  /** The spectrum at pixel (x, y): 1D data is the spectrum; 2D data gives
      row x; 3D data gives the spectrum at (x, y). Only the upper bounds are
      checked explicitly (ValueError); a coordinate below minus the axis
      length makes numpy raise IndexError. Other ranks raise ValueError. */
  function SpectrumAt(a: Array, x: int, y: int): (r: Result<seq<real>>)
    ensures Rank(a) == 1 ==> r == Ok(a.values.v)
    ensures Rank(a) == 2 ==>
      && (x >= a.shape[0] ==> r == Err(ValueError))
      && (x < -(a.shape[0] as int) ==> r == Err(IndexError))
      && (-(a.shape[0] as int) <= x < a.shape[0] ==>
            r == Ok(a.values.m[PyPos(a.shape[0], x)]))
    ensures Rank(a) == 3 ==>
      && (x >= a.shape[0] || y >= a.shape[1] ==> r == Err(ValueError))
      && ((x < a.shape[0] && y < a.shape[1] && (x < -(a.shape[0] as int) || y < -(a.shape[1] as int)))
            ==> r == Err(IndexError))
      && (-(a.shape[0] as int) <= x < a.shape[0] && -(a.shape[1] as int) <= y < a.shape[1] ==>
            r == Ok(a.values.c[PyPos(a.shape[0], x)][PyPos(a.shape[1], y)]))
    ensures Rank(a) !in {1, 2, 3} ==> r == Err(ValueError)
    ensures r.Ok? ==> |r.value| == a.shape[Rank(a) - 1]
  {
    match a.values
    case Line(v) => Ok(v)
    case Grid(m) =>
      if x >= a.shape[0] then Err(ValueError)
      else PyAt(m, x)
    case Cube(c) =>
      if x >= a.shape[0] || y >= a.shape[1] then Err(ValueError)
      else
        var plane :- PyAt(c, x);
        PyAt(plane, y)
    case Unviewed => Err(ValueError)
  }

  /** `extract_spectrum_data_from_signal(signal, x, y)`: `signal.data.shape`
      is read before the explicit check, so a signal without data raises
      AttributeError rather than the ValueError the check would give. */
  function ExtractSpectrumDataFromSignal(sig: Signal, x: int, y: int): (r: Result<seq<real>>)
    ensures sig.data.None? ==> r == Err(AttributeError)
    ensures sig.data.Some? ==> r == SpectrumAt(sig.data.value, x, y)
  {
    match sig.data
    case None => Err(AttributeError)
    case Some(a) => SpectrumAt(a, x, y)
  }

  /** Every pixel inside the array has a spectrum. */
  lemma SpectrumAtInsideSucceeds(a: Array, x: nat, y: nat)
    requires Rank(a) in {1, 2, 3}
    requires Rank(a) >= 2 ==> x < a.shape[0]
    requires Rank(a) == 3 ==> y < a.shape[1]
    ensures SpectrumAt(a, x, y).Ok?
  {
  }

  /** A negative coordinate names the same pixel as its positive
      counterpart, as in numpy. */
  lemma SpectrumAtNegativeX(a: Array, x: nat, y: int)
    requires Rank(a) in {2, 3}
    requires x < a.shape[0]
    ensures SpectrumAt(a, x - a.shape[0], y) == SpectrumAt(a, x, y)
  {
  }
}
