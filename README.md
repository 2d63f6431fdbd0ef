# EDS data explorer backend, modelled in Dafny

This project models the sequential data logic of the EDS data explorer's
Python backend. The backend loads electron-microscopy files with HyperSpy and
serves spectra, images and metadata to a React frontend. The model covers:

- the single-entry file cache `CURRENT_FILE` and the reader fallback of
  `load_file`, and the `FileService` object's own cache fields;
- how a signal's capabilities follow from its rank, the signal list shown to
  the frontend, and the spectrum and image extractors of both backends;
- the energy-axis conversion (channel index to energy and back) and the
  half-maximum (FWHM) scan after the zero peak;
- the metadata converters that drop `_`-prefixed keys, and the HDF5 browser's
  `get_info` and `nest_json`, which fill a nested dictionary in place;
- the ORCID configuration check, authorization URL and token-answer mapping;
- the duplicate-call detector `log_call` of the older FastAPI app.

The repository's own documentation describes the frontend's ORCID callback
page. That page is not part of this model, which follows the Python code.

Python behaviour is written out where the code depends on it:

- negative list indices count from the end (`Wrappers.PyAt`);
- exceptions are `Result` values (`Wrappers.Error`);
- `str.split`, `str.lower`, `str.endswith` and `os.path.join` are in `PyText`;
- comprehensions with a condition are `PyList.Filter`.

`hs.load` is a function parameter (`Loaders.Loader`) that fails or returns
one signal or a list of them. The directory listing, `os.path.exists`, the
environment, the clock and the ORCID token endpoint are parameters too.
Numbers are exact `real`s.

One module per source file: `FileFunctions`, `FileServiceHandler`,
`SignalFunctions`, `SignalService`, `SpectrumViewerFunctions`,
`SpectrumFunctions`, `LegacyFileService` (backend/file_service.py),
`CrucibleFileService` (React-Hyperspy-Crucible/backend/file_service.py),
`Conversion`, `DataFunctions`, `H5Browser`, `Orcid` and `CallLog`
(backend/main.py). They share `Wrappers`, `PyText`/`PyList`, `Metadata`
(metadata values), `Signals` (arrays and signals) and `Loaders`.

## Model

| member | source | states |
|---|---|---|
| FileFunctions.ListFiles | backend/operations/file_functions.py:23-34 | exactly the listed names whose lower-cased form ends in a supported extension, in listing order; [] when the listing raises |
| FileFunctions.CurrentFile.constructor | backend/utils/constants.py:7-10 | the cache starts with no path, no data and no "signals" key |
| FileFunctions.CurrentFile.GetCachedFile | backend/operations/file_functions.py:37-59 | the cached data is returned iff the cached path is the requested one and data is present |
| FileFunctions.CurrentFile.LoadOutcome | backend/operations/file_functions.py:80-146 | a cache hit is returned as is; on a miss the load succeeds iff some reader succeeds, and the only error is ValueError |
| FileFunctions.CurrentFile.LoadFile | backend/operations/file_functions.py:97-146 | a hit returns the cached list and changes nothing; on a miss the readers run in the order auto, EMD, EDS_TEM, EDS_SEM, EELS, and the first success, wrapped as a list, is returned and cached; when all fail, ValueError and the cache is unchanged |
| FileFunctions.CurrentFile.GetSignalsFromFile | backend/operations/file_functions.py:158-173 | `load_file` on the path joined under the data directory: a hit returns the cached list unchanged; on a miss the first successful reader's list is returned and cached, and ValueError leaves the cache unchanged |
| FileFunctions.CurrentFile.LoadCurrentFileSignals | backend/operations/file_functions.py:176-180 | False for another file; KeyError for the current file until its signals are stored; otherwise the stored list |
| FileFunctions.CurrentFile.SetCurrentFile | backend/operations/file_functions.py:183-185 | records the path and the signal list and keeps "data", so the cache then answers for the new path with the old data |
| FileFunctions.LoadTwice | backend/operations/file_functions.py:97-139 | after a successful load, a second load of the same path returns the same list whatever the readers would do, and the "signals" key is still missing |
| FileServiceHandler.FileService.constructor | backend/service_handlers/file_service.py:11-16 | a new service has nothing cached |
| FileServiceHandler.FileService.ValidateFile | backend/service_handlers/file_service.py:35-53 | true iff the lower-cased name has a supported extension and the joined path exists |
| FileServiceHandler.ValidateFileIgnoresFilesystem | backend/service_handlers/file_service.py:46-47 | a name without a supported extension is refused whatever the filesystem holds |
| FileServiceHandler.ValidateFileIgnoresCase | backend/service_handlers/file_service.py:46 | an existing file with an upper-case `.EMD` extension is accepted |
| FileServiceHandler.FileService.ClearCache | backend/service_handlers/file_service.py:55-60 | the cache is back in its initial empty state whatever it held |
| FileServiceHandler.FileService.UpdateCache | backend/service_handlers/file_service.py:62-67 | the cache holds exactly the given path and data |
| Signals.GetSignalCapabilities | backend/operations/signal_functions.py:105-125 | hasSpectrum iff the rank is 1 or 3, hasImage iff it is 2 or 3, both false without data |
| Signals.BothCapabilitiesMeanCube | backend/operations/signal_functions.py:118-121 | a signal is both a spectrum and an image exactly when it is a 3D cube |
| Signals.SumLastAxis | backend/file_service.py:756 | `np.sum(data, axis=2)`: one total per pixel, with the cube's first two dimensions |
| SignalFunctions.InfoOf | backend/operations/signal_functions.py:32-80 | the entry of signal `idx`: its index, its title or "Signal idx", its bare class name, its shape (None without data) and its capabilities |
| SignalFunctions.ExtractSignalList | backend/operations/signal_functions.py:19-92 | ValueError for no data; otherwise one entry per signal, in order, entry `i` describing signal `i` with index `i` |
| SignalFunctions.GetCachedSignals | backend/operations/signal_functions.py:6-17 | the signal list of the cached data, only when the cache holds data for exactly this path |
| SignalFunctions.DefaultTitlesDistinct | backend/operations/signal_functions.py:32 | two untitled signals of one file get different default titles |
| SignalFunctions.NatToStringInjective | backend/operations/signal_functions.py:32 | `str(n)` tells different numbers apart |
| SignalService.GetSignalList | backend/service_handlers/signal_service.py:8-72 | a non-empty cached list is returned without loading; on a miss the file is loaded and cached, and the call then fails with AttributeError; a load error is passed on with the cache unchanged |
| SignalService.GetSignalListIntended | backend/service_handlers/signal_service.py:28-64 | on a miss the list built from the freshly cached file is returned |
| SignalService.GetSignalListTwice | backend/service_handlers/signal_service.py:28-61 | for a file with signals, the first request fails and the repeated request is answered from the cache |
| SignalService.SpectrumFromFile | backend/service_handlers/signal_service.py:84-129 | ValueError for an index at or above the signal count, IndexError below minus the count, ValueError without data; otherwise the spectrum at (x, y) chosen by rank |
| SignalService.SpectrumServiceMatchesViewer | backend/service_handlers/signal_service.py:101-129 | the service and `extract_spectrum_data_from_signal` give the same result for every signal with data |
| SignalService.GetSpectrumData | backend/service_handlers/signal_service.py:74-129 | the result is the spectrum of the loaded file's signal; the cache is filled on a successful load and unchanged on a failed one |
| SignalService.ImageFromFile | backend/service_handlers/signal_service.py:131-201 | an image exactly for a valid index, a non-empty array and rank 2 or 3; it is the data itself or its sum over the last axis, reported with the data's shape; None for every error |
| SignalService.ImageMatchesCapability | backend/service_handlers/signal_service.py:159-168 | a non-empty signal gives an image exactly when it is flagged hasImage |
| SignalService.GetImageData | backend/service_handlers/signal_service.py:131-201 | the result is the image of the loaded file's signal, with the same cache outcomes as loading |
| SignalService.ConvertMetadataToSerializable | backend/service_handlers/signal_service.py:293-329 | the converted dictionary is `Metadata.Serializable` of the input |
| SignalService.MetadataFromFile | backend/service_handlers/signal_service.py:203-291 | None exactly for a failed load or an index out of range; otherwise the data shape (empty without data), the class as `str(type(...))` prints it, and the converted original metadata |
| Signals.ClassRepr | backend/service_handlers/signal_service.py:232 | `str(type(sig))`: `<class '`, the defining module, a dot, the class name, then `'>` |
| SignalService.MetadataTypeNamesListType | backend/service_handlers/signal_service.py:232 | the class the metadata reports ends in the class name that the signal list shows for the same signal |
| SignalService.MetadataHasNoPrivateKeys | backend/service_handlers/signal_service.py:272-278 | the metadata sent to the frontend has no `_`-prefixed key in any dictionary reached through nested dictionaries; dictionaries inside lists are copied as they are |
| SignalService.GetMetadata | backend/service_handlers/signal_service.py:203-291 | the result is the metadata of the loaded file's signal, with the same cache outcomes as loading |
| Metadata.SerializablePrefixKeys | backend/service_handlers/signal_service.py:307-310 | exactly the non-private keys survive, in their original order |
| Metadata.SerializablePrefixClean | backend/service_handlers/signal_service.py:307-315 | private keys are dropped at every level of nesting |
| Metadata.ConvertValueClean | backend/service_handlers/signal_service.py:314-324 | a converted value holds no private key in any dictionary reached through nested dictionaries |
| SpectrumViewerFunctions.SpectrumAt | backend/operations/spectrum_viewer_functions.py:28-51 | 1D data as is; row x of 2D data, ValueError when x is at or above shape[0]; the spectrum at (x, y) of a cube, ValueError when x or y is too large; IndexError below minus an axis length; ValueError for other ranks; a spectrum has the length of the last axis |
| SpectrumViewerFunctions.ExtractSpectrumDataFromSignal | backend/operations/spectrum_viewer_functions.py:19-51 | a signal without data fails when its shape is read; otherwise the spectrum at (x, y) |
| SpectrumViewerFunctions.SpectrumAtInsideSucceeds | backend/operations/spectrum_viewer_functions.py:31-48 | every pixel inside the array has a spectrum |
| SpectrumViewerFunctions.SpectrumAtNegativeX | backend/operations/spectrum_viewer_functions.py:41-48 | a negative x names the same row as x plus the axis length |
| SpectrumFunctions.SumSpectraChannel | backend/operations/spectrum_functions.py:33 | channel k of a sum of spectra is the sum of their channels k |
| SpectrumFunctions.SumPixelsChannel | backend/operations/spectrum_functions.py:33 | channel k of the collapsed cube is the double sum of channel k over all pixels |
| SpectrumFunctions.ExtractSpectrumData | backend/operations/spectrum_functions.py:15-38 | ValueError without data; 1D data as is; a cube gives a spectrum as long as its last axis; 2D and other ranks raise ValueError |
| SpectrumFunctions.ExtractSpectrumDataMatchesCapability | backend/operations/spectrum_functions.py:26-38 | the whole-signal spectrum exists exactly for signals flagged hasSpectrum |
| SpectrumFunctions.ExtractSpectrumDataSumsPixels | backend/operations/spectrum_functions.py:30-35 | for a cube, channel k is the total of channel k over every pixel |
| SpectrumFunctions.SinglePixelCube | backend/operations/spectrum_functions.py:30-35 | a one-pixel cube yields that pixel's spectrum |
| LegacyFileService.ExtractImageDataFromSignal | backend/file_service.py:738-770 | an image exactly for rank 2 or 3, else ValueError; 2D data is the image; a cube gives per-pixel totals with shape (shape[0], shape[1]) |
| LegacyFileService.ImageCapabilityMatchesExtraction | backend/file_service.py:132-152 | the capability table flags an image exactly when one can be extracted |
| LegacyFileService.FirstImageIndex | backend/file_service.py:841-850 | the first signal flagged as an image whose extraction succeeds; no earlier signal qualifies |
| LegacyFileService.FirstImageCharacterised | backend/file_service.py:841-853 | the search fails exactly when no signal is flagged as an image, and otherwise returns the image of the first one that is |
| LegacyFileService.SearchImage | backend/file_service.py:841-853 | the loop returns the first image of the search, or ValueError when there is none |
| LegacyFileService.ExtractImageData | backend/file_service.py:829-860 | every call raises NameError |
| LegacyFileService.ExtractImageDataIntended | backend/file_service.py:834-853 | a load error is passed on; otherwise the first image of the loaded signals |
| LegacyFileService.ExtractImageDataFails | backend/file_service.py:835 | for a file whose only signal is a 2D image, the function raises while the intended search returns the image |
| Loaders.FirstSuccessIndex | backend/operations/file_functions.py:112-143 | the position of the first reader that loads the file; every earlier reader fails |
| Loaders.FirstSuccessCharacterised | backend/operations/file_functions.py:112-146 | the search fails iff every reader fails, and otherwise returns what the first successful reader returns |
| Loaders.FirstSuccessSkipsFailures | backend/operations/file_functions.py:141-143 | skipping readers that failed does not change the outcome |
| CrucibleFileService.ListFiles | React-Hyperspy-Crucible/backend/file_service.py:9-14 | exactly the names ending in `.emd`, case-sensitively, in listing order; [] on error |
| CrucibleFileService.UpperCaseExtensionNotListed | React-Hyperspy-Crucible/backend/file_service.py:11 | `A.EMD` is not listed |
| CrucibleFileService.TryLoadSignal | React-Hyperspy-Crucible/backend/file_service.py:34-50 | readers in the order EMD, EDS_TEM, EDS_SEM, EELS, auto; the first success is returned unwrapped; ValueError iff all fail |
| CrucibleFileService.SpectrumOfLoaded | React-Hyperspy-Crucible/backend/file_service.py:72-87 | the first signal of a list; 1D data as is; row x of 2D data; ValueError for other ranks; AttributeError without data |
| CrucibleFileService.SpectrumAgreesWithViewer | React-Hyperspy-Crucible/backend/file_service.py:80-87 | on 1D and 2D data the older extraction agrees with the newer one at (x, 0); cubes are refused |
| CrucibleFileService.ExtractSpectrum | React-Hyperspy-Crucible/backend/file_service.py:68-91 | ValueError when no reader loads the file; otherwise the spectrum of the loaded file |
| Conversion.SpectrumConverter.ToOriginalIndex | backend/operations/conversion_functions.py:25-27 | the inverse of `to_true_index` |
| Conversion.SpectrumConverter.ConvertArrayToTrue | backend/operations/conversion_functions.py:68-70 | the energies of channels 0, 1, ..., as many as the array has, whatever it holds |
| Conversion.SpectrumConverter.ConvertArrayToOriginal | backend/operations/conversion_functions.py:72-74 | element-wise the channel whose energy is the given value; length kept |
| Conversion.SpectrumConverter.GetMetadata | backend/operations/conversion_functions.py:76-83 | exactly the stored offset, scale, units and zero index |
| Conversion.MakeConverter | backend/operations/conversion_functions.py:15-31 | ZeroDivisionError iff the scale is 0; otherwise the axis is copied and the zero index has energy 0 |
| Conversion.ConverterAgreesWithDataFunctions | backend/operations/conversion_functions.py:21-31 | the converter and the free functions of data_functions.py compute the same energies, channels and zero index |
| Conversion.ToOriginalOfToTrue | backend/operations/conversion_functions.py:23-27 | channel to energy and back gives the channel |
| Conversion.ArrayRoundTrip | backend/operations/conversion_functions.py:68-74 | converting the energies of an array back gives 0, 1, ... |
| Conversion.Trunc | backend/operations/conversion_functions.py:45 | `int()` truncates toward zero |
| Conversion.CalculateFwhm | backend/operations/conversion_functions.py:33-66 | every call raises TypeError |
| Conversion.CalculateFwhmIntended | backend/operations/conversion_functions.py:33-66 | the scan of data_functions.py from the stored zero index as a channel; the argument is ignored |
| Conversion.CalculateFwhmAlwaysRaises | backend/operations/conversion_functions.py:45 | on a spectrum where the intended scan finds channel 3, the method as written raises |
| DataFunctions.CalculateOriginalIndex | backend/operations/data_functions.py:148-156 | ZeroDivisionError iff the scale is 0; otherwise the channel whose energy is the given value |
| DataFunctions.CalculateZeroIndex | backend/operations/data_functions.py:158-170 | ZeroDivisionError iff the scale is 0; otherwise the channel of energy 0 |
| DataFunctions.OriginalOfTrue | backend/operations/data_functions.py:138-156 | channel to energy and back gives the channel |
| DataFunctions.ZeroIndexIsOriginalOfZero | backend/operations/data_functions.py:156-167 | the zero index is the original index of energy 0 |
| DataFunctions.FirstStop | backend/operations/data_functions.py:192-196 | the first sample from a position on that is within tolerance of the half maximum or below it |
| DataFunctions.Choose | backend/operations/data_functions.py:193-203 | the stopping sample when within tolerance or right after the peak; otherwise the stopping sample exactly when it is strictly closer to the half maximum than the one before, so a tie gives the one before |
| DataFunctions.Fwhm | backend/operations/data_functions.py:173-207 | IndexError unless the peak index is valid; otherwise a result in [zero_index, len), equal to zero_index when the scan never stops |
| DataFunctions.FwhmAtStop | backend/operations/data_functions.py:192-204 | when the scan stops at k, the result is k or k - 1 as `Choose` decides |
| DataFunctions.CalculateFwhm | backend/operations/data_functions.py:173-207 | the loop computes `Fwhm` |
| DataFunctions.ConvertValueFlat | backend/operations/data_functions.py:69-84 | a nested dictionary becomes its `str()`; every other value is converted as the service's converter does |
| DataFunctions.ConvertMetadataToSerializable | backend/operations/data_functions.py:50-86 | the loop keeps the non-private entries in order, converted by `ConvertValueFlat` |
| DataFunctions.FlatAgreesExceptNested | backend/operations/data_functions.py:64-84 | same keys as the service's converter, same values except nested dictionaries, which are strings here |
| DataFunctions.NestedDictionaryStringified | backend/operations/data_functions.py:72 | {"a": {"b": 1}} keeps its nested dictionary in the service's converter and becomes a string here |
| H5Browser.AttrsGroup | app/h5_browser.py:33-34 | the dictionary of exactly the object's attributes |
| H5Browser.Walk | app/h5_browser.py:38-43 | the first loop never removes a key or changes a value; a cursor on an attribute value raises AttributeError |
| H5Browser.WalkFreshSegments | app/h5_browser.py:42-43 | distinct new segments are each added as an empty dictionary at the starting dictionary, the cursor stays there, and nothing else in the tree changes |
| H5Browser.WalkExistingPath | app/h5_browser.py:40-41 | segments that already name nested dictionaries are descended into and the tree is unchanged |
| H5Browser.WriteAttrs | app/h5_browser.py:44-45 | a failed write changes nothing; no attributes change nothing and raise nothing; otherwise the attributes are added to the dictionary under the last segment at the cursor, and the rest of the tree is unchanged |
| H5Browser.H5SciCatDataset.constructor | app/h5_browser.py:23-25 | the dictionary starts empty |
| H5Browser.H5SciCatDataset.GetInfo | app/h5_browser.py:30-34 | entry k becomes a fresh dictionary of exactly v's attributes; other entries are kept |
| H5Browser.H5SciCatDataset.NestJson | app/h5_browser.py:36-45 | the new dictionary and the outcome are those of the walk followed by the write |
| H5Browser.H5SciCatDataset.WalkSegments | app/h5_browser.py:37-43 | the segment loop ends as `Walk` does |
| H5Browser.H5SciCatDataset.WriteAttributes | app/h5_browser.py:44-45 | the attribute loop ends as `WriteAttrs` does |
| H5Browser.FreshPathStaysFlat | app/h5_browser.py:42-43 | "a/b" on an empty dictionary gives two top-level entries |
| H5Browser.ExistingGroupRaisesKeyError | app/h5_browser.py:40-45 | a second object with the same one-segment name raises KeyError and changes nothing |
| H5Browser.NestIntended | app/h5_browser.py:36-45 | intended nesting: the attributes land in the dictionary the whole path names; keys are only added |
| H5Browser.FreshPathNestsIntended | app/h5_browser.py:36-45 | intended nesting puts "b" inside "a" |
| Orcid.MissingNames | backend/external_services/orcid_service.py:94-101 | exactly the unset or empty required variables, in the order client id, client secret, redirect URI; empty iff configured |
| Orcid.OrcidService.constructor | backend/external_services/orcid_service.py:75-107 | credentials and token URL from the environment, token URL defaulting to https://orcid.org/oauth/token; configured iff all three credentials are non-empty |
| Orcid.OrcidService.GetAuthorizationUrl | backend/external_services/orcid_service.py:240-296 | ValueError iff unconfigured; otherwise the URL starts with the authorize endpoint and `?` |
| Orcid.AuthorizationUrlParses | backend/external_services/orcid_service.py:272-283 | without `&` in the credentials, the query splits back into client_id, response_type=code, scope=/authenticate and redirect_uri, in that order |
| Orcid.AmpersandInRedirectAddsParameter | backend/external_services/orcid_service.py:282-283 | an `&` in the redirect URI is not encoded and splits it into a fifth parameter |
| Orcid.OrcidService.TokenRequest | backend/external_services/orcid_service.py:148-154 | the five form fields in order: client id, client secret, `grant_type=authorization_code`, redirect URI and the given code |
| Orcid.OrcidService.ExchangeCodeForToken | backend/external_services/orcid_service.py:143-238 | ValueError when unconfigured; the HTTP error of a failed call; ValueError for a status other than 200; TypeError when a truthy access token is a number, boolean or object, because the log line slices it; a result iff the answer is a 200 JSON object without such a token, whose six fields are looked up, `orcid` as the ORCID iD |
| Orcid.NumericAccessTokenRaises | backend/external_services/orcid_service.py:225 | a 200 answer `{"access_token": 5}` ends in TypeError |
| Orcid.Get | backend/external_services/orcid_service.py:209-214 | `.get`: None iff the key is absent, otherwise the value of the last entry with that key |
| Orcid.UnconfiguredRaisesFirst | backend/external_services/orcid_service.py:144-145 | an unconfigured service raises ValueError from both operations whatever the endpoint would answer |
| CallLog.CallKey | backend/main.py:28 | the endpoint, a colon, then the parameter text |
| CallLog.CallKeySameEndpoint | backend/main.py:28 | for one endpoint, two calls share a key iff their parameter texts agree |
| CallLog.Classify | backend/main.py:30-44 | first request iff the key is new; duplicate iff the last call is under 0.1 s old; a new request otherwise |
| CallLog.CallLog.LogCall | backend/main.py:25-46 | the call is classified against the old map, then only its key is set to now |
| CallLog.CallLog.LogTwice | backend/main.py:30-46 | a repeat of the same call is a duplicate iff it comes under 0.1 s later, and never a first request |
| CallLog.RecordingIsPerKey | backend/main.py:46 | recording one key leaves the classification of every other key as it was |
| PyText.SplitJoin | app/h5_browser.py:38 | joining the pieces of `split` gives the text back |
| PyText.JoinSplit | backend/external_services/orcid_service.py:282 | splitting joined pieces that hold no separator gives them back |
| PyList.FilterAppend | backend/operations/file_functions.py:28 | a comprehension over a concatenation is the concatenation of the comprehensions |

## Left out

- File and library I/O: `hs.load`, `h5py.File`, `os.listdir` and `os.path.exists` are parameters. Axes managers and the HDF5 file's time, size and name are not modelled.
- `SignalService.GetMetadata`: the "axes" list built from the axes manager is not modelled.
- `SignalService.GetImageData` and `LegacyFileService.ExtractImageDataFromSignal`: the normalisation to 0..255 `uint8` is not modelled. It is float division by max − min, which is undefined for a constant image.
- Floating point: conversions and the FWHM scan use exact reals, so no claim about IEEE rounding is made.
- `Conversion.SpectrumConverter.ToOriginalIndex` requires a non-zero scale. The constructor raises ZeroDivisionError for a zero scale, so no converter object without one exists.
- `Conversion.CalculateFwhm`: with a numpy array instead of a list the float index raises IndexError, not TypeError. The model uses the list case.
- `H5Browser.WriteAttrs`: item assignment into a non-dictionary attribute value is modelled as TypeError. numpy arrays raise other errors for some keys.
- `H5Browser.NestIntended`: its contract does not state that existing entries are kept, because an attribute may overwrite an entry of the same name.
- Exception messages, logging and every `print` are not modelled, except the access-token slice of the success log line (backend/external_services/orcid_service.py:225), which can raise. `CallLog.CallLog.LogCall` returns the kind of line it would print.
- The ORCID `.env` discovery, the httpx client and the module-level singleton are not modelled. The environment is a map, and the token endpoint is a function from request to response.
- `Orcid.OrcidService.GetAuthorizationUrl`: the parameters are not percent-encoded. Section 4.1.1 of RFC 6749 asks for form encoding, so an `&` in a value leaks into the query (`Orcid.AmpersandInRedirectAddsParameter`).
- `Orcid.OrcidService.ExchangeCodeForToken`: a JSON body that is not an object makes `.get` raise AttributeError; a JSON `null` body is treated the same way.
- `PyText.Lower` lower-cases ASCII letters only.
- `Metadata.Serializable` copies lists as they are (backend/service_handlers/signal_service.py:320-321), so a dictionary inside a list keeps its private keys; the cleanliness lemmas speak only of dictionaries reached through dictionaries.
- `Orcid.TokenLogRaises`: a non-empty JSON object as access token is taken to raise TypeError (an unhashable slice key); Python 3.12 and later hash slices and raise KeyError instead.
- `Metadata.Value`: a dictionary's entries are not required to have distinct keys; `Orcid.Get` takes the last of duplicates, as JSON decoding does.
- `metadata.General.title`, the class name and the module that defines the class are given with each signal. Exceptions raised while reading them are not modelled.
- The FastAPI endpoints of both backends, the Dash and Flask UI, app/dataset_cache.py, the xraylib wrappers, backend/operations/image_viewer_functions.py and backend/operations/metadata_functions.py are not part of this model.
- data_functions.py's `load_metadata` and `load_axes_manager` are not part of this model, nor are the commented-out and I/O-only functions of backend/file_service.py.
- backend/operations/spectrum_viewer_functions.py imports `try_load_signal_from_saved_file` at line 1, which file_functions.py does not define, so importing the module fails. `SpectrumViewerFunctions` models the function as if the import succeeded.
- `AxesData`: a missing `offset`, `scale` or `units` key would raise KeyError. The model's axis record always has all three.

## Findings

| source | as written | input that shows it | evidently intended | confidence | as-written member | corrected member |
|---|---|---|---|---|---|---|
| backend/operations/conversion_functions.py:45 | `spectrum_data[self.zero_index]` indexes with a float, since the zero index comes from true division (line 31), so the call raises TypeError | offset -2, scale 1, spectrum [0, 0, 10, 5] | the scan from channel `int(zero_index)`, giving 3 | not executed | Conversion.CalculateFwhm, Conversion.CalculateFwhmAlwaysRaises | Conversion.CalculateFwhmIntended |
| app/h5_browser.py:42-43 | a missing segment is added but the cursor stays, so later segments land at the same level. The defect is latent: the only caller, `visititems` at line 118, visits a group before its members, so every segment but the last already exists (`H5Browser.WalkExistingPath`); it shows only under another call order | empty dictionary, k = "a/b", one attribute x = 1 | {"a": {"b": {"x": 1}}} | not executed | H5Browser.H5SciCatDataset.NestJson, H5Browser.FreshPathStaysFlat | H5Browser.NestIntended, H5Browser.FreshPathNestsIntended |
| backend/operations/data_functions.py:72 | the module-level function calls `self`, so the NameError is caught and a nested dictionary is stored as its `str()` | {"a": {"b": 1}} | {"a": {"b": 1}}, converted recursively | not executed | DataFunctions.ConvertMetadataToSerializable, DataFunctions.NestedDictionaryStringified | Metadata.SerializablePrefixClean |
| backend/file_service.py:835 | `try_load_file` is neither defined nor imported, so every call raises NameError | a file whose only signal is a 2D image | the image of the first image signal | not executed | LegacyFileService.ExtractImageData, LegacyFileService.ExtractImageDataFails | LegacyFileService.ExtractImageDataIntended |
| backend/service_handlers/signal_service.py:57 | `signal_functions.cache_signals` does not exist, so a cache miss ends in AttributeError after the file has been cached | first request for a file with one signal | the freshly built signal list | not executed | SignalService.GetSignalList, SignalService.GetSignalListTwice | SignalService.GetSignalListIntended |
