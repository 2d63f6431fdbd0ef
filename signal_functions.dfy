/** backend/operations/signal_functions.py: the signal list shown to the
    frontend, built from the signals of a loaded file. */
module SignalFunctions {
  import opened Wrappers
  import opened PyText
  import opened Signals
  import FileFunctions

  /** "Signal <idx>", the title of a signal whose metadata has none. */
  function DefaultTitle(idx: nat): string {
    "Signal " + NatToString(idx)
  }

  /** The entry `extract_signal_list` builds for the signal at position `idx`. */
  function InfoOf(sig: Signal, idx: nat): (info: SignalInfo)
    ensures info.index == idx
    ensures info.title == if sig.title.Some? then sig.title.value else DefaultTitle(idx)
    ensures info.typeName == sig.typeName
    ensures info.shape.None? <==> sig.data.None?
    ensures sig.data.Some? ==> info.shape == Some(sig.data.value.shape)
    ensures info.capabilities == GetSignalCapabilities(sig)
  {
    SignalInfo(
      idx,
      match sig.title case Some(t) => t case None => DefaultTitle(idx),
      sig.typeName,
      match sig.data case Some(a) => Some(a.shape) case None => None,
      GetSignalCapabilities(sig))
  }

  /** The whole list: one entry per signal, in input order. */
  function SignalInfos(signals: seq<Signal>): (r: seq<SignalInfo>)
    ensures |r| == |signals|
  {
    seq(|signals|, i requires 0 <= i < |signals| => InfoOf(signals[i], i))
  }

  /** `extract_signal_list`: ValueError for no data; otherwise entry `i`
      describes signal `i` and carries index `i`. */
  method ExtractSignalList(signalList: Option<seq<Signal>>) returns (r: Result<seq<SignalInfo>>)
    ensures signalList.None? <==> r == Err(ValueError)
    ensures signalList.Some? ==>
      && r.Ok? && |r.value| == |signalList.value|
      && forall i :: 0 <= i < |r.value| ==>
           r.value[i].index == i && r.value[i] == InfoOf(signalList.value[i], i)
    ensures signalList.Some? ==> r == Ok(SignalInfos(signalList.value))
  {
    if signalList.None? {
      return Err(ValueError);
    }
    var signals := signalList.value;
    var infos: seq<SignalInfo> := [];
    var idx := 0;
    while idx < |signals|
      invariant 0 <= idx <= |signals|
      invariant |infos| == idx
      invariant forall i :: 0 <= i < idx ==> infos[i] == InfoOf(signals[i], i)
    {
      infos := infos + [InfoOf(signals[idx], idx)];
      idx := idx + 1;
    }
    assert infos == SignalInfos(signals);
    return Ok(infos);
  }

  /** `get_cached_signals`: the signal list of the cached file, only when the
      cache holds data for exactly this path. */
  function GetCachedSignals(cache: FileFunctions.CurrentFile, path: string): (r: Option<seq<SignalInfo>>)
    reads cache
    ensures r.Some? <==> cache.filepath == Some(path) && cache.data.Some?
    ensures r.Some? ==> r.value == SignalInfos(cache.data.value)
  {
    match cache.GetCachedFile(path)
    case Some(signals) => Some(SignalInfos(signals))
    case None => None
  }

  lemma {:induction false} NatToStringInjective(m: nat, n: nat)
    requires NatToString(m) == NatToString(n)
    ensures m == n
  {
    var s, t := NatToString(m), NatToString(n);
    if m >= 10 && n >= 10 {
      assert s[..|s| - 1] == NatToString(m / 10);
      assert t[..|t| - 1] == NatToString(n / 10);
      NatToStringInjective(m / 10, n / 10);
      assert DigitChar(m % 10) == DigitChar(n % 10);
    }
  }

  /** Two untitled signals of one file never share a title: the default
      titles tell them apart. */
  lemma DefaultTitlesDistinct(signals: seq<Signal>, i: nat, j: nat)
    requires i < j < |signals|
    requires signals[i].title.None? && signals[j].title.None?
    ensures SignalInfos(signals)[i].title != SignalInfos(signals)[j].title
  {
    if DefaultTitle(i) == DefaultTitle(j) {
      assert NatToString(i) == DefaultTitle(i)[7..];
      assert NatToString(j) == DefaultTitle(j)[7..];
      NatToStringInjective(i, j);
    }
  }
}
