/** backend/service_handlers/file_service.py: the `FileService` object with its
    own single-entry cache `_current_file`, which its methods reassign. */
module FileServiceHandler {
  import opened Wrappers
  import opened PyText
  import opened Signals
  import FileFunctions

  datatype CacheEntry = CacheEntry(filepath: Option<string>, data: Option<seq<Signal>>)

  const EmptyCache := CacheEntry(None, None)

  class FileService {
    const supportedExtensions: seq<string> := FileFunctions.SupportedExtensions
    var currentFile: CacheEntry

    /** `FileService()` starts with no file cached. */
    constructor ()
      ensures currentFile == EmptyCache
    {
      currentFile := EmptyCache;
    }

    /** `validate_file`: a name without a supported extension is refused
        before the filesystem is consulted; otherwise the answer is whether
        the file exists under the data directory. `fileExists` stands for
        `os.path.exists`, which answers False where it cannot tell. */
    function ValidateFile(dataDir: string, filename: string, fileExists: string -> bool): (r: bool)
      ensures r <==> FileFunctions.HasSupportedExtension(filename) && fileExists(JoinPath(dataDir, filename))
    {
      if !EndsWithAny(Lower(filename), supportedExtensions) then false
      else fileExists(JoinPath(dataDir, filename))
    }

    /** `_clear_cache`: back to the initial state, whatever was cached. */
    method ClearCache()
      modifies this
      ensures currentFile == EmptyCache
    {
      currentFile := EmptyCache;
    }

    /** `_update_cache`: the cache holds exactly the given path and data. */
    method UpdateCache(filepath: string, fileData: Option<seq<Signal>>)
      modifies this
      ensures currentFile == CacheEntry(Some(filepath), fileData)
    {
      currentFile := CacheEntry(Some(filepath), fileData);
    }
  }

  /** For a name without a supported extension the answer is False whatever
      the filesystem holds: the filesystem is not consulted. */
  lemma ValidateFileIgnoresFilesystem(svc: FileService, dataDir: string, filename: string,
                                      fileExists1: string -> bool, fileExists2: string -> bool)
    requires !FileFunctions.HasSupportedExtension(filename)
    ensures !svc.ValidateFile(dataDir, filename, fileExists1)
    ensures svc.ValidateFile(dataDir, filename, fileExists1) == svc.ValidateFile(dataDir, filename, fileExists2)
  {
  }

  /** Validation is insensitive to the case of the extension. */
  lemma {:induction false} ValidateFileIgnoresCase(svc: FileService, dataDir: string, filename: string,
                                                  fileExists: string -> bool)
    requires fileExists(JoinPath(dataDir, filename))
    requires EndsWith(filename, ".EMD")
    ensures svc.ValidateFile(dataDir, filename, fileExists)
  {
    var n := |filename|;
    var low := Lower(filename);
    assert low[n - 4..] == ".emd" by {
      forall i | 0 <= i < 4 ensures low[n - 4 + i] == ".emd"[i] {
        assert filename[n - 4 + i] == ".EMD"[i];
      }
    }
    assert EndsWith(low, FileFunctions.SupportedExtensions[0]);
  }
}
