/** backend/operations/file_functions.py: the list of supported files and the
    single-entry module-level cache `CURRENT_FILE` that `load_file` fills. */
module FileFunctions {
  import opened Wrappers
  import opened PyText
  import opened PyList
  import opened Signals
  import opened Loaders

  const SupportedExtensions: seq<string> := [".emd", ".tif", ".dm3", ".dm4", ".ser", ".emi"]

  /** `f.lower().endswith(supported_extensions)`. */
  predicate HasSupportedExtension(name: string) {
    EndsWithAny(Lower(name), SupportedExtensions)
  }

  /** The readers `load_file` tries, in order; Auto is `hs.load` without a
      reader argument. */
  const FileReaders: seq<Reader> := [Auto, Emd, EdsTem, EdsSem, Eels]

  /** `list_files`: `listing` is what `os.listdir(DATA_DIR)` returns, or None
      when it raises. */
  function ListFiles(listing: Option<seq<string>>): (r: seq<string>)
    ensures listing.None? ==> r == []
    ensures listing.Some? ==>
      && (forall f :: f in r <==> f in listing.value && HasSupportedExtension(f))
      && IsSubsequence(r, listing.value)
  {
    match listing
    case None => []
    case Some(names) => Filter(names, HasSupportedExtension)
  }

  /** Which signals `load_current_file_signals` reports: `False` when another
      file is current. */
  datatype CurrentSignals = NotCurrent | Current(signals: seq<SignalInfo>)

  /** The dictionary `CURRENT_FILE`. Its "signals" key does not exist until
      `set_current_file` adds it; `signals == None` stands for that. */
  class CurrentFile {
    var filepath: Option<string>
    var data: Option<seq<Signal>>
    var signals: Option<seq<SignalInfo>>

    /** `CURRENT_FILE` as backend/utils/constants.py creates it. */
    constructor ()
      ensures filepath == None && data == None && signals == None
    {
      filepath, data, signals := None, None, None;
    }

    /** `get_cached_file`: the cached data, only for the cached path and only
        when there is data. */
    function GetCachedFile(path: string): (r: Option<seq<Signal>>)
      reads this
      ensures r.Some? <==> filepath == Some(path) && data.Some?
      ensures r.Some? ==> r == data
    {
      if filepath == Some(path) then data else None
    }

    /** What `load_file` returns for `path` when the cache answers `cached`
        for it. */
    static function LoadOutcome(cached: Option<seq<Signal>>, path: string, load: Loader)
      : (r: Result<seq<Signal>>)
      ensures cached.Some? ==> r == Ok(cached.value)
      ensures cached.None? ==> (r.Ok? <==> exists k :: 0 <= k < |FileReaders| && load(path, FileReaders[k]).Some?)
      ensures r.Err? ==> r == Err(ValueError)
    {
      if cached.Some? then Ok(cached.value)
      else
        FirstSuccessCharacterised(path, FileReaders, load);
        match FirstSuccess(path, FileReaders, load)
        case None => Err(ValueError)
        case Some(l) => Ok(AsList(l))
    }

    /** `load_file`: a cache hit is returned as it is; otherwise the readers
        are tried in order, and the first success, as a list, is cached and
        returned; when every reader fails the call raises ValueError and the
        cache is left alone. */
    method LoadFile(path: string, load: Loader) returns (r: Result<seq<Signal>>)
      modifies this
      ensures old(GetCachedFile(path)).Some? ==> r == Ok(old(data).value) && unchanged(this)
      ensures old(GetCachedFile(path)).None? ==>
        match FirstSuccess(path, FileReaders, load)
        case None => r == Err(ValueError) && unchanged(this)
        case Some(l) =>
          && r == Ok(AsList(l))
          && filepath == Some(path) && data == Some(AsList(l))
          && signals == old(signals)
      ensures r.Ok? ==> GetCachedFile(path) == Some(r.value)
      ensures r == LoadOutcome(old(GetCachedFile(path)), path, load)
    {
      var cached := GetCachedFile(path);
      if cached.Some? {
        return Ok(cached.value);
      }
      var i := 0;
      while i < |FileReaders|
        invariant 0 <= i <= |FileReaders|
        invariant forall j :: 0 <= j < i ==> load(path, FileReaders[j]).None?
        invariant unchanged(this)
      {
        var attempt := load(path, FileReaders[i]);
        if attempt.Some? {
          var signal := AsList(attempt.value);
          filepath := Some(path);
          data := Some(signal);
          FirstSuccessSkipsFailures(path, FileReaders, i, load);
          return Ok(signal);
        }
        i := i + 1;
      }
      FirstSuccessCharacterised(path, FileReaders, load);
      return Err(ValueError);
    }

    /** `get_signals_from_file`: `load_file` on the file's path under the data
        directory. */
    method GetSignalsFromFile(dataDir: string, filename: string, load: Loader)
      returns (r: Result<seq<Signal>>)
      modifies this
      ensures var path := JoinPath(dataDir, filename);
        && (old(GetCachedFile(path)).Some? ==> r == Ok(old(data).value) && unchanged(this))
        && (old(GetCachedFile(path)).None? ==>
              match FirstSuccess(path, FileReaders, load)
              case None => r == Err(ValueError) && unchanged(this)
              case Some(l) =>
                && r == Ok(AsList(l))
                && filepath == Some(path) && data == Some(AsList(l))
                && signals == old(signals))
        && (r.Ok? ==> GetCachedFile(path) == Some(r.value))
        && r == LoadOutcome(old(GetCachedFile(path)), path, load)
    {
      r := LoadFile(JoinPath(dataDir, filename), load);
    }

    /** `load_current_file_signals`: False for another file, and KeyError for
        the current one until `set_current_file` has stored its signals. */
    function LoadCurrentFileSignals(path: string): (r: Result<CurrentSignals>)
      reads this
      ensures filepath != Some(path) ==> r == Ok(NotCurrent)
      ensures filepath == Some(path) && signals.None? ==> r == Err(KeyError)
      ensures filepath == Some(path) && signals.Some? ==> r == Ok(Current(signals.value))
    {
      if filepath == Some(path) then
        match signals
        case None => Err(KeyError)
        case Some(s) => Ok(Current(s))
      else Ok(NotCurrent)
    }

    /** `set_current_file`: records the path and its signal list but keeps
        "data", so the cache then answers for `path` with the data of
        whatever file was loaded before. */
    method SetCurrentFile(path: string, infos: seq<SignalInfo>)
      modifies this
      ensures filepath == Some(path) && signals == Some(infos) && data == old(data)
      ensures GetCachedFile(path) == old(data)
      ensures LoadCurrentFileSignals(path) == Ok(Current(infos))
    {
      filepath := Some(path);
      signals := Some(infos);
    }
  }

  /** A file that has just been loaded is served from the cache the next time,
      without consulting the readers, and the "signals" key is still missing
      for it when it was missing before. */
  method LoadTwice(cache: CurrentFile, path: string, load: Loader, other: Loader)
    returns (first: Result<seq<Signal>>, second: Result<seq<Signal>>)
    requires cache.signals.None?
    modifies cache
    ensures first.Ok? ==> second == first
    ensures first.Ok? ==> cache.LoadCurrentFileSignals(path) == Err(KeyError)
  {
    first := cache.LoadFile(path, load);
    second := cache.LoadFile(path, other);
  }
}
