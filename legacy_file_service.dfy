/** backend/file_service.py: the image of a signal, and the search for the
    first signal of a file that can be shown as an image. Its
    `get_signal_capabilities` is the same table as `Signals.GetSignalCapabilities`. */
module LegacyFileService {
  import opened Wrappers
  import opened Signals
  import opened Loaders

  /** An image before normalisation, with the shape `image_data.shape`. */
  datatype Image = Image(shape: seq<nat>, pixels: seq<seq<real>>)

  /** `extract_image_data_from_signal`: 2D data is the image; a cube is
      summed over its last axis; a signal without data, or of any other rank,
      raises ValueError. The image is reported with its own shape. */
  function ExtractImageDataFromSignal(sig: Signal): (r: Result<Image>)
    ensures sig.data.None? ==> r == Err(ValueError)
    ensures r.Ok? <==> sig.data.Some? && Rank(sig.data.value) in {2, 3}
    ensures r.Err? ==> r == Err(ValueError)
    ensures r.Ok? ==>
      && r.value.shape == sig.data.value.shape[..2]
      && |r.value.pixels| == r.value.shape[0]
      && forall i :: 0 <= i < |r.value.pixels| ==> |r.value.pixels[i]| == r.value.shape[1]
    ensures sig.data.Some? && sig.data.value.values.Grid? ==>
      r == Ok(Image(sig.data.value.shape, sig.data.value.values.m))
    ensures sig.data.Some? && sig.data.value.values.Cube? ==>
      var c := sig.data.value.values.c;
      forall i, j :: 0 <= i < |c| && 0 <= j < |c[i]| ==> r.value.pixels[i][j] == Sum(c[i][j])
  {
    match sig.data
    case None => Err(ValueError)
    case Some(a) =>
      match a.values
      case Grid(m) => Ok(Image(a.shape, m))
      case Cube(c) => Ok(Image([a.shape[0], a.shape[1]], SumLastAxis(c)))
      case Line(_) => Err(ValueError)
      case Unviewed => Err(ValueError)
  }

  /** The capability table of backend/file_service.py agrees with the
      extractor: a signal is flagged as an image exactly when its image can
      be extracted. */
  lemma ImageCapabilityMatchesExtraction(sig: Signal)
    ensures GetSignalCapabilities(sig).hasImage <==> ExtractImageDataFromSignal(sig).Ok?
  {
  }

  /** A signal the search accepts: flagged as an image and extracted without
      raising. */
  predicate Accepted(sig: Signal) {
    GetSignalCapabilities(sig).hasImage && ExtractImageDataFromSignal(sig).Ok?
  }

  /** The position of the first accepted signal, or `|signals|`. */
  function FirstImageIndex(signals: seq<Signal>): (k: nat)
    ensures k <= |signals|
    ensures forall j :: 0 <= j < k ==> !Accepted(signals[j])
    ensures k < |signals| ==> Accepted(signals[k])
  {
    if signals == [] then 0
    else if Accepted(signals[0]) then 0
    else 1 + FirstImageIndex(signals[1..])
  }

  /** The result of the search: the image of the first accepted signal, or
      ValueError when there is none. */
  function FirstImage(signals: seq<Signal>): Result<Image> {
    var k := FirstImageIndex(signals);
    if k < |signals| then ExtractImageDataFromSignal(signals[k]) else Err(ValueError)
  }

  /** The search fails exactly when no signal of the file is an image, and
      otherwise returns the image of the first signal that is one. */
  lemma {:induction false} FirstImageCharacterised(signals: seq<Signal>)
    ensures FirstImage(signals).Err? <==>
      forall j :: 0 <= j < |signals| ==> !GetSignalCapabilities(signals[j]).hasImage
    ensures FirstImage(signals).Ok? ==>
      exists k :: 0 <= k < |signals|
        && GetSignalCapabilities(signals[k]).hasImage
        && FirstImage(signals) == ExtractImageDataFromSignal(signals[k])
        && forall j :: 0 <= j < k ==> !GetSignalCapabilities(signals[j]).hasImage
  {
    var k := FirstImageIndex(signals);
    forall j | 0 <= j < |signals|
      ensures GetSignalCapabilities(signals[j]).hasImage <==> Accepted(signals[j])
    {
      ImageCapabilityMatchesExtraction(signals[j]);
    }
    if k < |signals| {
      assert Accepted(signals[k]);
    }
  }

  /** The loop of `extract_image_data` over the signals of a loaded file:
      signals that are not images are passed over, an extraction that raises
      is skipped, and the first image found is returned. */
  method SearchImage(signals: seq<Signal>) returns (r: Result<Image>)
    ensures r == FirstImage(signals)
  {
    var i := 0;
    while i < |signals|
      invariant 0 <= i <= |signals|
      invariant forall j :: 0 <= j < i ==> !Accepted(signals[j])
    {
      var sig := signals[i];
      if GetSignalCapabilities(sig).hasImage {
        var result := ExtractImageDataFromSignal(sig);
        if result.Ok? {
          FirstImageSkips(signals, i);
          return result;
        }
      }
      i := i + 1;
    }
    FirstImageSkips(signals, |signals|);
    return Err(ValueError);
  }

  lemma {:induction false} FirstImageSkips(signals: seq<Signal>, i: nat)
    requires i <= |signals|
    requires forall j :: 0 <= j < i ==> !Accepted(signals[j])
    ensures FirstImageIndex(signals) == i + FirstImageIndex(signals[i..])
  {
    if i > 0 {
      assert !Accepted(signals[0]);
      assert signals[1..][i - 1..] == signals[i..];
      FirstImageSkips(signals[1..], i - 1);
    }
  }

  /** `extract_image_data` as written: it loads the file with
      `try_load_file`, a name backend/file_service.py neither defines nor
      imports, so every call raises NameError, which is re-raised. */
  function ExtractImageData(dataDir: string, filename: string): (r: Result<Image>)
    ensures r == Err(NameError)
  {
    Err(NameError)
  }

  /** `extract_image_data` as evidently intended: the loaded file (one
      signal or a list; an error when loading raised) is searched for its
      first image. */
  method ExtractImageDataIntended(loaded: Result<Loaded>) returns (r: Result<Image>)
    ensures loaded.Err? ==> r == Err(loaded.error)
    ensures loaded.Ok? ==> r == FirstImage(AsList(loaded.value))
  {
    if loaded.Err? {
      return Err(loaded.error);
    }
    r := SearchImage(AsList(loaded.value));
  }

  /** The discrepancy: for a file whose only signal is a 2D image, the
      function as written raises NameError while the intended search returns
      the image. */
  lemma ExtractImageDataFails(dataDir: string, filename: string, sig: Signal)
    requires sig.data.Some? && sig.data.value.values.Grid?
    ensures ExtractImageData(dataDir, filename).Err?
    ensures FirstImage(AsList(Single(sig))) == Ok(Image(sig.data.value.shape, sig.data.value.values.m))
  {
    assert Accepted(AsList(Single(sig))[0]);
  }
}
