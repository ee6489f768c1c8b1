/** NT status codes returned by the driver's entry points, and the Option type
    used wherever the C code stores an address that may be NULL. */
module NtStatus {

  datatype Option<+T> = None | Some(value: T)

  /** The statuses the driver produces or propagates. `Failure(code)` stands for any
      other error a foreign interface may report. */
  datatype Status =
    | Success
    | Pending
    | DeviceNotReady
    | Unsuccessful
    | InvalidParameter
    | InvalidBufferSize
    | NotSupported
    | NoMemory
    | Retry
    | ObjectNameNotFound
    | Failure(code: nat)

  /** NT_SUCCESS: the severity bits are "success" or "informational". Among the
      statuses above only STATUS_SUCCESS and STATUS_PENDING qualify; STATUS_RETRY
      is an error status. */
  predicate NtSuccess(s: Status) {
    s == Success || s == Pending
  }

  /** The next status of a scripted oracle: an exhausted script answers success. */
  function Next(script: seq<Status>): Status {
    if script == [] then Success else script[0]
  }

  function Rest(script: seq<Status>): (r: seq<Status>)
    ensures |r| == if script == [] then 0 else |script| - 1
  {
    if script == [] then [] else script[1..]
  }

  /** `rest` is what remains of `script` once some of its head has been used. */
  predicate Suffix(rest: seq<Status>, script: seq<Status>)
    decreases |script|
  {
    rest == script || (script != [] && Suffix(rest, script[1..]))
  }

  /** The script holds an answer other than STATUS_SUCCESS. */
  predicate Failing(script: seq<Status>)
    decreases |script|
  {
    script != [] && (script[0] != Success || Failing(script[1..]))
  }

  /** Taking one answer keeps the script a suffix, and an answer other than
      STATUS_SUCCESS is one of the script's. */
  lemma {:induction false} SuffixRest(rest: seq<Status>, script: seq<Status>)
    requires Suffix(rest, script)
    ensures Suffix(Rest(rest), script)
    ensures Next(rest) != Success ==> Next(rest) in script && Failing(script)
    decreases |script|
  {
    if rest == script {
      if script != [] {
        assert Suffix(script[1..], script[1..]);
      }
    } else {
      SuffixRest(rest, script[1..]);
    }
  }

  lemma {:induction false} SuffixTrans(a: seq<Status>, b: seq<Status>, c: seq<Status>)
    requires Suffix(a, b) && Suffix(b, c)
    ensures Suffix(a, c)
    decreases |c|
  {
    if b != c {
      SuffixTrans(a, b, c[1..]);
    }
  }

  /** Every answer left in a suffix is one of the script's. */
  lemma {:induction false} SuffixIn(x: Status, rest: seq<Status>, script: seq<Status>)
    requires Suffix(rest, script) && x in rest
    ensures x in script && (x != Success ==> Failing(script))
    decreases |script|
  {
    if rest == script {
      if x != Success {
        InFailing(x, script);
      }
    } else {
      SuffixIn(x, rest, script[1..]);
    }
  }

  /** A suffix is no longer than its script. */
  lemma {:induction false} SuffixLength(rest: seq<Status>, script: seq<Status>)
    requires Suffix(rest, script)
    ensures |rest| <= |script|
    decreases |script|
  {
    if rest != script {
      SuffixLength(rest, script[1..]);
    }
  }

  /** A script holding an answer other than STATUS_SUCCESS is failing. */
  lemma {:induction false} InFailing(x: Status, script: seq<Status>)
    requires x in script && x != Success
    ensures Failing(script)
    decreases |script|
  {
    if script[0] == Success {
      InFailing(x, script[1..]);
    }
  }

  /** A script whose suffix is failing is failing. */
  lemma {:induction false} FailingSuffix(rest: seq<Status>, script: seq<Status>)
    requires Suffix(rest, script) && Failing(rest)
    ensures Failing(script)
    decreases |script|
  {
    if rest != script {
      FailingSuffix(rest, script[1..]);
    }
  }
}
