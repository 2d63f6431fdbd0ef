/** backend/main.py: `log_call`, which every endpoint calls first to tell a
    repeated request (React StrictMode calls each effect twice) from a new
    one. The clock is a parameter and the printed line is returned as the
    kind of call it announces. */
module CallLog {
  import opened Wrappers
  import opened PyText

  /** The three messages `log_call` can print. */
  datatype CallKind = FirstRequest | Duplicate | NewRequest

  /** Two calls closer than this many seconds count as one repeated call. */
  const DuplicateWindow: real := 0.1

  /** `f"{endpoint}:{str(params)}"`; `params` is the text `str` gives the
      parameter dictionary, None when the endpoint passes none. */
  function CallKey(endpoint: string, params: Option<string>): (key: string)
    ensures |key| == |endpoint| + 1 + |StrOrNone(params)|
    ensures key[..|endpoint|] == endpoint && key[|endpoint|] == ':'
    ensures key[|endpoint| + 1..] == StrOrNone(params)
  {
    endpoint + ":" + StrOrNone(params)
  }

  /** For one endpoint, two calls share a key exactly when their parameter
      texts agree. */
  lemma CallKeySameEndpoint(endpoint: string, p: Option<string>, q: Option<string>)
    ensures CallKey(endpoint, p) == CallKey(endpoint, q) <==> StrOrNone(p) == StrOrNone(q)
  {
    if CallKey(endpoint, p) == CallKey(endpoint, q) {
      assert CallKey(endpoint, p)[|endpoint| + 1..] == CallKey(endpoint, q)[|endpoint| + 1..];
    }
  }

  /** How a call with `key` at time `now` is announced, given the times of
      the last call of each key. */
  function Classify(lastCalls: map<string, real>, key: string, now: real): (k: CallKind)
    ensures key !in lastCalls <==> k == FirstRequest
    ensures k == Duplicate <==> key in lastCalls && now - lastCalls[key] < DuplicateWindow
    ensures k == NewRequest <==> key in lastCalls && now - lastCalls[key] >= DuplicateWindow
  {
    if key !in lastCalls then FirstRequest
    else if now - lastCalls[key] < DuplicateWindow then Duplicate
    else NewRequest
  }

  /** The module-level `last_calls` dictionary. */
  class CallLog {
    var lastCalls: map<string, real>

    constructor ()
      ensures lastCalls == map[]
    {
      lastCalls := map[];
    }

    /** `log_call(endpoint, params)` at time `now`: announces the call as
        first, repeated or new, then records `now` for its key and leaves
        every other key as it was. */
    method LogCall(endpoint: string, params: Option<string>, now: real) returns (kind: CallKind)
      modifies this
      ensures kind == Classify(old(lastCalls), CallKey(endpoint, params), now)
      ensures lastCalls == old(lastCalls)[CallKey(endpoint, params) := now]
    {
      var key := CallKey(endpoint, params);
      if key in lastCalls {
        var timeDiff := now - lastCalls[key];
        if timeDiff < DuplicateWindow {
          kind := Duplicate;
        } else {
          kind := NewRequest;
        }
      } else {
        kind := FirstRequest;
      }
      lastCalls := lastCalls[key := now];
    }

    /** The same request twice, `delay` seconds apart: the second call is
        reported as a duplicate exactly when the delay is under 0.1 s, and
        never as a first request. */
    method LogTwice(endpoint: string, params: Option<string>, now: real, delay: real)
      returns (first: CallKind, second: CallKind)
      modifies this
      ensures first == Classify(old(lastCalls), CallKey(endpoint, params), now)
      ensures second == Duplicate <==> delay < DuplicateWindow
      ensures second == NewRequest <==> delay >= DuplicateWindow
      ensures lastCalls == old(lastCalls)[CallKey(endpoint, params) := now + delay]
    {
      first := LogCall(endpoint, params, now);
      second := LogCall(endpoint, params, now + delay);
    }
  }

  /** Recording one key leaves the announcement of every other key as it
      was. */
  lemma RecordingIsPerKey(lastCalls: map<string, real>, key: string, other: string, t: real, now: real)
    requires other != key
    ensures Classify(lastCalls[key := t], other, now) == Classify(lastCalls, other, now)
  {
  }

  /** After any call with a key, that key is never again a first request. */
  lemma RecordedKeyIsNotFirst(lastCalls: map<string, real>, key: string, t: real, now: real)
    ensures Classify(lastCalls[key := t], key, now) != FirstRequest
  {
  }
}
