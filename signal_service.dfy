/** backend/service_handlers/signal_service.py: `SignalService`, which
    answers the frontend's requests for the signals of a file, the spectrum
    at a pixel, an image and the metadata of one signal. It keeps no state
    of its own; every request goes through `load_file` and its cache. */
module SignalService {
  import opened Wrappers
  import opened PyText
  import opened Signals
  import opened Metadata
  import opened Loaders
  import opened FileFunctions
  import opened SignalFunctions
  import opened SpectrumViewerFunctions
  import LegacyFileService

  /* ---------- get_signal_list ---------- */

  /** `get_signal_list` as written. A non-empty cached list is returned
      without loading (an empty one counts as a miss). Otherwise the file is
      loaded, which fills the cache, and the signal list is built; the next
      step calls `signal_functions.cache_signals`, which that module does not
      define, so every miss ends in AttributeError. */
  method GetSignalList(cache: CurrentFile, dataDir: string, filename: string, load: Loader)
    returns (r: Result<seq<SignalInfo>>)
    modifies cache
    ensures var path := JoinPath(dataDir, filename);
      var cached := old(GetCachedSignals(cache, path));
      && (cached.Some? && cached.value != [] ==> r == Ok(cached.value) && unchanged(cache))
      && (!(cached.Some? && cached.value != []) ==>
            var loaded := CurrentFile.LoadOutcome(old(cache.GetCachedFile(path)), path, load);
            && r.Err?
            && (loaded.Err? ==> r == Err(loaded.error) && unchanged(cache))
            && (loaded.Ok? ==> r == Err(AttributeError) && cache.GetCachedFile(path) == Some(loaded.value)))
  {
    var path := JoinPath(dataDir, filename);
    var cached := GetCachedSignals(cache, path);
    if cached.Some? && cached.value != [] {
      return Ok(cached.value);
    }
    var fileData := cache.LoadFile(path, load);
    if fileData.Err? {
      return Err(fileData.error);
    }
    var signalList := ExtractSignalList(Some(fileData.value));
    return Err(AttributeError);
  }

  /** `get_signal_list` as evidently intended: on a miss the freshly built
      list is returned. */
  method GetSignalListIntended(cache: CurrentFile, dataDir: string, filename: string, load: Loader)
    returns (r: Result<seq<SignalInfo>>)
    modifies cache
    ensures var path := JoinPath(dataDir, filename);
      var cached := old(GetCachedSignals(cache, path));
      && (cached.Some? && cached.value != [] ==> r == Ok(cached.value) && unchanged(cache))
      && (!(cached.Some? && cached.value != []) ==>
            var loaded := CurrentFile.LoadOutcome(old(cache.GetCachedFile(path)), path, load);
            && (loaded.Err? ==> r == Err(loaded.error) && unchanged(cache))
            && (loaded.Ok? ==>
                  r == Ok(SignalInfos(loaded.value)) && cache.GetCachedFile(path) == Some(loaded.value)))
    ensures r.Ok? ==> r == Ok(SignalInfos(cache.GetCachedFile(JoinPath(dataDir, filename)).value))
  {
    var path := JoinPath(dataDir, filename);
    var cached := GetCachedSignals(cache, path);
    if cached.Some? && cached.value != [] {
      return Ok(cached.value);
    }
    var fileData := cache.LoadFile(path, load);
    if fileData.Err? {
      return Err(fileData.error);
    }
    r := ExtractSignalList(Some(fileData.value));
  }

  /** The discrepancy: a first request that loads a file with signals
      fails, and the same request made again is answered from the cache
      with the list the intended version returns at once. */
  method GetSignalListTwice(cache: CurrentFile, dataDir: string, filename: string, load: Loader)
    returns (first: Result<seq<SignalInfo>>, second: Result<seq<SignalInfo>>)
    requires GetCachedSignals(cache, JoinPath(dataDir, filename)).None?
    modifies cache
    ensures var loaded := CurrentFile.LoadOutcome(None, JoinPath(dataDir, filename), load);
      loaded.Ok? && loaded.value != [] ==>
        first == Err(AttributeError) && second == Ok(SignalInfos(loaded.value))
  {
    first := GetSignalList(cache, dataDir, filename, load);
    second := GetSignalList(cache, dataDir, filename, load);
  }

  /* ---------- get_spectrum_data ---------- */

  /** What `get_spectrum_data` returns once the file has been loaded (or has
      failed to load): only the upper bound of the signal index is checked,
      so a negative index counts from the end. */
  function SpectrumFromFile(loaded: Result<seq<Signal>>, idx: int, x: int, y: int)
    : (r: Result<seq<real>>)
    ensures loaded.Err? ==> r == Err(loaded.error)
    ensures loaded.Ok? && idx >= |loaded.value| ==> r == Err(ValueError)
    ensures loaded.Ok? && idx < -|loaded.value| ==> r == Err(IndexError)
    ensures loaded.Ok? && -|loaded.value| <= idx < |loaded.value| ==>
      var sig := loaded.value[PyPos(|loaded.value|, idx)];
      && (sig.data.None? ==> r == Err(ValueError))
      && (sig.data.Some? ==> r == SpectrumAt(sig.data.value, x, y))
  {
    var signals :- loaded;
    if idx >= |signals| then Err(ValueError)
    else
      var sig :- PyAt(signals, idx);
      match sig.data
      case None => Err(ValueError)
      case Some(a) => SpectrumAt(a, x, y)
  }

  /** The service and `extract_spectrum_data_from_signal` agree on every
      signal that has data; without data the service's own check raises
      ValueError where the viewer function fails earlier. */
  lemma SpectrumServiceMatchesViewer(signals: seq<Signal>, idx: nat, x: int, y: int)
    requires idx < |signals|
    ensures signals[idx].data.Some? ==>
      SpectrumFromFile(Ok(signals), idx, x, y) == ExtractSpectrumDataFromSignal(signals[idx], x, y)
    ensures signals[idx].data.None? ==>
      SpectrumFromFile(Ok(signals), idx, x, y) == Err(ValueError)
      && ExtractSpectrumDataFromSignal(signals[idx], x, y) == Err(AttributeError)
  {
  }

  /** `get_spectrum_data`. */
  method GetSpectrumData(cache: CurrentFile, dataDir: string, filename: string,
                         idx: int, x: int, y: int, load: Loader)
    returns (r: Result<seq<real>>)
    modifies cache
    ensures var path := JoinPath(dataDir, filename);
      var loaded := CurrentFile.LoadOutcome(old(cache.GetCachedFile(path)), path, load);
      && r == SpectrumFromFile(loaded, idx, x, y)
      && (loaded.Err? ==> unchanged(cache))
      && (loaded.Ok? ==> cache.GetCachedFile(path) == Some(loaded.value))
  {
    var path := JoinPath(dataDir, filename);
    var signal := cache.LoadFile(path, load);
    if signal.Err? {
      return Err(signal.error);
    }
    var signals := signal.value;
    if idx >= |signals| {
      return Err(ValueError);
    }
    var picked := PyAt(signals, idx);
    if picked.Err? {
      return Err(picked.error);
    }
    var sig := picked.value;
    if sig.data.None? {
      return Err(ValueError);
    }
    r := SpectrumAt(sig.data.value, x, y);
  }

  /* ---------- get_image_data ---------- */

  /** The result of `get_image_data` before normalisation: the image and the
      shape of the signal's data (not of the image). */
  datatype ImageResult = ImageResult(signalIdx: int, dataShape: seq<nat>, imageData: seq<seq<real>>)

  /** What `get_image_data` returns once the file has been loaded (or has
      failed to): None for every error, including an index out of range, a
      signal without data, an empty array (whose `min()` raises) and a rank
      other than 2 or 3. */
  function ImageFromFile(loaded: Result<seq<Signal>>, idx: int): (r: Option<ImageResult>)
    ensures r.Some? <==>
      && loaded.Ok? && -|loaded.value| <= idx < |loaded.value|
      && var sig := loaded.value[PyPos(|loaded.value|, idx)];
         sig.data.Some? && Size(sig.data.value.shape) > 0 && Rank(sig.data.value) in {2, 3}
    ensures r.Some? ==>
      var sig := loaded.value[PyPos(|loaded.value|, idx)];
      && r.value.signalIdx == idx
      && r.value.dataShape == sig.data.value.shape
      && r.value.imageData == LegacyFileService.ExtractImageDataFromSignal(sig).value.pixels
  {
    if loaded.Err? || idx >= |loaded.value| then None
    else
      match PyAt(loaded.value, idx)
      case Err(_) => None
      case Ok(sig) =>
        match sig.data
        case None => None
        case Some(a) =>
          if Size(a.shape) == 0 then None
          else
            match a.values
            case Grid(m) => Some(ImageResult(idx, a.shape, m))
            case Cube(c) => Some(ImageResult(idx, a.shape, SumLastAxis(c)))
            case Line(_) => None
            case Unviewed => None
  }

  /** A non-empty signal is shown as an image exactly when its capabilities
      say it can be. */
  lemma ImageMatchesCapability(signals: seq<Signal>, idx: nat)
    requires idx < |signals|
    requires signals[idx].data.Some? && Size(signals[idx].data.value.shape) > 0
    ensures ImageFromFile(Ok(signals), idx).Some? <==> GetSignalCapabilities(signals[idx]).hasImage
  {
  }

  /** `get_image_data`, without the normalisation to 0..255. */
  method GetImageData(cache: CurrentFile, dataDir: string, filename: string, idx: int, load: Loader)
    returns (r: Option<ImageResult>)
    modifies cache
    ensures var path := JoinPath(dataDir, filename);
      var loaded := CurrentFile.LoadOutcome(old(cache.GetCachedFile(path)), path, load);
      && r == ImageFromFile(loaded, idx)
      && (loaded.Err? ==> unchanged(cache))
      && (loaded.Ok? ==> cache.GetCachedFile(path) == Some(loaded.value))
  {
    var path := JoinPath(dataDir, filename);
    var signal := cache.LoadFile(path, load);
    if signal.Err? || idx >= |signal.value| {
      return None;
    }
    var picked := PyAt(signal.value, idx);
    if picked.Err? || picked.value.data.None? {
      return None;
    }
    var a := picked.value.data.value;
    if Size(a.shape) == 0 {
      return None;
    }
    if a.values.Grid? {
      r := Some(ImageResult(idx, a.shape, a.values.m));
    } else if a.values.Cube? {
      r := Some(ImageResult(idx, a.shape, SumLastAxis(a.values.c)));
    } else {
      r := None;
    }
  }

  /* ---------- get_metadata ---------- */

  /** The metadata of one signal: its data shape (empty without data), its
      type and its converted `original_metadata` (empty when the signal has
      none or it is not a dictionary). */
  datatype SignalMetadata = SignalMetadata(
    shape: seq<nat>,
    signalType: string,
    originalMetadata: seq<(string, Value)>)

  /** `_convert_metadata_to_serializable`: the entries are converted in
      order, dictionaries by a recursive call. */
  method ConvertMetadataToSerializable(d: Value) returns (result: seq<(string, Value)>)
    requires d.Dict?
    ensures result == Serializable(d)
    decreases d, 2
  {
    result := [];
    var i := 0;
    while i < |d.entries|
      invariant 0 <= i <= |d.entries|
      invariant result == SerializablePrefix(d, i)
    {
      var (key, value) := d.entries[i];
      if !StartsWith(key, "_") {
        var converted: Value;
        if value.Dict? {
          var nested := ConvertMetadataToSerializable(value);
          converted := Dict(nested);
        } else if value.Numpy? {
          converted := value.tolist;
        } else if value.Opaque? {
          converted := Repr(value);
        } else {
          converted := value;
        }
        result := result + [(key, converted)];
      }
      i := i + 1;
    }
  }

  /** What `get_metadata` returns once the file has been loaded: None for
      any error, otherwise the shape, type and converted metadata. */
  function MetadataFromFile(loaded: Result<seq<Signal>>, idx: int): (r: Option<SignalMetadata>)
    ensures r.Some? <==> loaded.Ok? && -|loaded.value| <= idx < |loaded.value|
    ensures r.Some? ==>
      var sig := loaded.value[PyPos(|loaded.value|, idx)];
      && (sig.data.Some? ==> r.value.shape == sig.data.value.shape)
      && (sig.data.None? ==> r.value.shape == [])
      && r.value.signalType == ClassRepr(sig)
      && (sig.originalMetadata.Some? && sig.originalMetadata.value.Dict? ==>
            r.value.originalMetadata == Serializable(sig.originalMetadata.value))
      && (!(sig.originalMetadata.Some? && sig.originalMetadata.value.Dict?) ==>
            r.value.originalMetadata == [])
  {
    if loaded.Err? || idx >= |loaded.value| then None
    else
      match PyAt(loaded.value, idx)
      case Err(_) => None
      case Ok(sig) =>
        Some(SignalMetadata(
          match sig.data case Some(a) => a.shape case None => [],
          ClassRepr(sig),
          match sig.originalMetadata
          case Some(m) => if m.Dict? then Serializable(m) else []
          case None => []))
  }

  /** The class the metadata reports is the one whose name the signal
      list shows: `signal_type` ends in `.` and the list entry's type. */
  lemma MetadataTypeNamesListType(loaded: Result<seq<Signal>>, idx: int)
    requires MetadataFromFile(loaded, idx).Some?
    ensures var i := PyPos(|loaded.value|, idx);
      EndsWith(MetadataFromFile(loaded, idx).value.signalType,
               "." + SignalFunctions.InfoOf(loaded.value[i], i).typeName + "'>")
  {
    var i := PyPos(|loaded.value|, idx);
    var sig := loaded.value[i];
    var r := ClassRepr(sig);
    var suffix := "." + sig.typeName + "'>";
    assert r == "<class '" + sig.typeModule + suffix;
  }

  /** Private keys never reach the frontend, at any depth, provided numpy
      values hold no dictionaries. */
  lemma MetadataHasNoPrivateKeys(loaded: Result<seq<Signal>>, idx: int)
    requires MetadataFromFile(loaded, idx).Some?
    requires var sig := loaded.value[PyPos(|loaded.value|, idx)];
      sig.originalMetadata.Some? ==> NumpyHoldsNoDict(sig.originalMetadata.value)
    ensures DictKeysClean(Dict(MetadataFromFile(loaded, idx).value.originalMetadata))
  {
    var sig := loaded.value[PyPos(|loaded.value|, idx)];
    if sig.originalMetadata.Some? && sig.originalMetadata.value.Dict? {
      SerializablePrefixClean(sig.originalMetadata.value, |sig.originalMetadata.value.entries|);
    }
  }

  /** `get_metadata`, without the axes. */
  method GetMetadata(cache: CurrentFile, dataDir: string, filename: string, idx: int, load: Loader)
    returns (r: Option<SignalMetadata>)
    modifies cache
    ensures var path := JoinPath(dataDir, filename);
      var loaded := CurrentFile.LoadOutcome(old(cache.GetCachedFile(path)), path, load);
      && r == MetadataFromFile(loaded, idx)
      && (loaded.Err? ==> unchanged(cache))
      && (loaded.Ok? ==> cache.GetCachedFile(path) == Some(loaded.value))
  {
    var path := JoinPath(dataDir, filename);
    var signal := cache.LoadFile(path, load);
    if signal.Err? || idx >= |signal.value| {
      return None;
    }
    var picked := PyAt(signal.value, idx);
    if picked.Err? {
      return None;
    }
    var sig := picked.value;
    var shape: seq<nat> := [];
    if sig.data.Some? {
      shape := sig.data.value.shape;
    }
    var original: seq<(string, Value)> := [];
    if sig.originalMetadata.Some? && sig.originalMetadata.value.Dict? {
      original := ConvertMetadataToSerializable(sig.originalMetadata.value);
    }
    r := Some(SignalMetadata(shape, ClassRepr(sig), original));
  }
}
