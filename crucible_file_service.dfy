/** React-Hyperspy-Crucible/backend/file_service.py: the older backend, with
    its own file filter, reader order and one-axis spectrum extraction, and
    no cache. */
module CrucibleFileService {
  import opened Wrappers
  import opened PyText
  import opened PyList
  import opened Signals
  import opened Loaders
  import SpectrumViewerFunctions

  /** `f.endswith('.emd')`, case-sensitive. */
  predicate IsEmd(name: string) {
    EndsWith(name, ".emd")
  }

  /** `list_files`: `listing` is what `os.listdir` returns, or None when it
      raises. */
  function ListFiles(listing: Option<seq<string>>): (r: seq<string>)
    ensures listing.None? ==> r == []
    ensures listing.Some? ==>
      && (forall f :: f in r <==> f in listing.value && IsEmd(f))
      && IsSubsequence(r, listing.value)
  {
    match listing
    case None => []
    case Some(names) => Filter(names, IsEmd)
  }

  /** Unlike the newer backend, an upper-case extension is not listed. */
  lemma UpperCaseExtensionNotListed()
    ensures ListFiles(Some(["A.EMD"])) == []
  {
    assert !IsEmd("A.EMD") by {
      assert "A.EMD"[1..] != ".emd";
    }
  }

  /** The readers `try_load_signal` tries, in order; automatic detection
      comes last. */
  const SignalTypes: seq<Reader> := [Emd, EdsTem, EdsSem, Eels, Auto]

  /** `try_load_signal`: the first reader that loads the file gives the
      result, as `hs.load` returns it (a list is not unwrapped); ValueError
      when every reader fails. */
  method TryLoadSignal(path: string, load: Loader) returns (r: Result<Loaded>)
    ensures r.Err? <==> forall j :: 0 <= j < |SignalTypes| ==> load(path, SignalTypes[j]).None?
    ensures r.Err? ==> r == Err(ValueError)
    ensures r.Ok? ==> Some(r.value) == FirstSuccess(path, SignalTypes, load)
  {
    var i := 0;
    while i < |SignalTypes|
      invariant 0 <= i <= |SignalTypes|
      invariant forall j :: 0 <= j < i ==> load(path, SignalTypes[j]).None?
    {
      var attempt := load(path, SignalTypes[i]);
      if attempt.Some? {
        FirstSuccessSkipsFailures(path, SignalTypes, i, load);
        return Ok(attempt.value);
      }
      i := i + 1;
    }
    return Err(ValueError);
  }

  /** The spectrum `extract_spectrum` takes from a loaded file: the first
      signal of a list (IndexError for an empty list); 1D data as it is;
      row x of 2D data, with only the upper bound checked; ValueError for any
      other rank; AttributeError without data. */
  function SpectrumOfLoaded(loaded: Loaded, x: int): (r: Result<seq<real>>)
    ensures loaded.Several? && loaded.signals == [] ==> r == Err(IndexError)
    ensures r.Ok? ==>
      var sig := AsList(loaded)[0];
      sig.data.Some? && Rank(sig.data.value) in {1, 2}
    ensures AsList(loaded) != [] && AsList(loaded)[0].data.None? ==> r == Err(AttributeError)
    ensures AsList(loaded) != [] && AsList(loaded)[0].data.Some? ==>
      var a := AsList(loaded)[0].data.value;
      Rank(a) !in {1, 2} ==> r == Err(ValueError)
  {
    var sig :- match loaded
      case Single(s) => Ok(s)
      case Several(ss) => PyAt(ss, 0);
    match sig.data
    case None => Err(AttributeError)
    case Some(a) =>
      match a.values
      case Line(v) => Ok(v)
      case Grid(m) => if x >= a.shape[0] then Err(ValueError) else PyAt(m, x)
      case Cube(_) => Err(ValueError)
      case Unviewed => Err(ValueError)
  }

  /** On 1D and 2D data the older extraction agrees with
      `extract_spectrum_data_from_signal` at (x, 0); it refuses cubes, which
      the newer one reads. */
  lemma SpectrumAgreesWithViewer(loaded: Loaded, x: int)
    requires AsList(loaded) != [] && AsList(loaded)[0].data.Some?
    ensures var a := AsList(loaded)[0].data.value;
      && (Rank(a) in {1, 2} ==>
            SpectrumOfLoaded(loaded, x) == SpectrumViewerFunctions.SpectrumAt(a, x, 0))
      && (Rank(a) == 3 ==> SpectrumOfLoaded(loaded, x) == Err(ValueError))
  {
  }

  /** `extract_spectrum`: loads the file and takes the spectrum of its
      first signal. */
  method ExtractSpectrum(dataDir: string, filename: string, x: int, load: Loader)
    returns (r: Result<seq<real>>)
    ensures var path := JoinPath(dataDir, filename);
      match FirstSuccess(path, SignalTypes, load)
      case None => r == Err(ValueError)
      case Some(l) => r == SpectrumOfLoaded(l, x)
  {
    var path := JoinPath(dataDir, filename);
    FirstSuccessCharacterised(path, SignalTypes, load);
    var signal := TryLoadSignal(path, load);
    if signal.Err? {
      return Err(signal.error);
    }
    r := SpectrumOfLoaded(signal.value, x);
  }
}
