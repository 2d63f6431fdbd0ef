/** `hs.load` seen from the backend: given a path and a reader (or automatic
    detection) it either raises or returns one signal or a list of them.
    The backend tries a fixed list of readers and keeps the first success. */
module Loaders {
  import opened Wrappers
  import opened Signals

  datatype Reader = Auto | Emd | EdsTem | EdsSem | Eels

  datatype Loaded = Single(signal: Signal) | Several(signals: seq<Signal>)

  /** `hs.load(path)` for Auto, `hs.load(path, reader=...)` otherwise;
      None stands for an exception. */
  type Loader = (string, Reader) -> Option<Loaded>

  /** A loaded file as a list: a single signal is wrapped. */
  function AsList(l: Loaded): (r: seq<Signal>)
    ensures l.Single? ==> r == [l.signal]
    ensures l.Several? ==> r == l.signals
  {
    match l
    case Single(s) => [s]
    case Several(ss) => ss
  }

  /** The position of the first reader that loads `path`, or `|readers|`
      when none does. */
  function FirstSuccessIndex(path: string, readers: seq<Reader>, load: Loader): (k: nat)
    ensures k <= |readers|
    ensures forall j :: 0 <= j < k ==> load(path, readers[j]).None?
    ensures k < |readers| ==> load(path, readers[k]).Some?
  {
    if readers == [] then 0
    else if load(path, readers[0]).Some? then 0
    else 1 + FirstSuccessIndex(path, readers[1..], load)
  }

  /** What the first successful reader returns, if any reader succeeds. */
  function FirstSuccess(path: string, readers: seq<Reader>, load: Loader): Option<Loaded> {
    var k := FirstSuccessIndex(path, readers, load);
    if k < |readers| then load(path, readers[k]) else None
  }

  /** The first success is what some reader returns while every reader before
      it fails; and when no reader returns anything the search fails. */
  lemma FirstSuccessCharacterised(path: string, readers: seq<Reader>, load: Loader)
    ensures FirstSuccess(path, readers, load).None?
        <==> forall j :: 0 <= j < |readers| ==> load(path, readers[j]).None?
    ensures FirstSuccess(path, readers, load).Some? ==>
      exists k :: 0 <= k < |readers| && load(path, readers[k]) == FirstSuccess(path, readers, load)
        && forall j :: 0 <= j < k ==> load(path, readers[j]).None?
  {
    var k := FirstSuccessIndex(path, readers, load);
    if k < |readers| {
      assert load(path, readers[k]).Some?;
    }
  }

  /** Dropping readers that are known to fail does not change the outcome:
      this is the step of every loop that tries the readers in turn. */
  lemma {:induction false} FirstSuccessSkipsFailures(path: string, readers: seq<Reader>, i: nat, load: Loader)
    requires i <= |readers|
    requires forall j :: 0 <= j < i ==> load(path, readers[j]).None?
    ensures FirstSuccess(path, readers[i..], load) == FirstSuccess(path, readers, load)
    ensures FirstSuccessIndex(path, readers, load) == i + FirstSuccessIndex(path, readers[i..], load)
  {
    if i > 0 {
      assert load(path, readers[0]).None?;
      assert readers[1..][i - 1..] == readers[i..];
      FirstSuccessSkipsFailures(path, readers[1..], i - 1, load);
    }
  }
}
