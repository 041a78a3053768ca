/** Values shared by every component: optional values, results and the
    exceptions of the modelled program, turned into data. */
module Common {

  datatype Option<+T> = None | Some(value: T) {
    function GetOr(default: T): T {
      match this
      case Some(v) => v
      case None => default
    }
  }

  /** The exceptions the modelled code raises or lets escape. */
  datatype Error =
    | ValueError(msg: string)        // a missing or invalid argument
    | KeyError(key: string)          // `d[key]` on a dict without that key
    | TypeError                      // subscripting or iterating the wrong kind of value
    | AttributeError                 // calling `.get` on something that is not a dict
    | FileNotFound(path: string)     // a file that does not exist
    | JsonDecodeError                // a body or file that is not JSON
    | HttpError(status: int)         // `raise_for_status` on a 4xx/5xx response
    | ConnectionError                // the transport could not reach the server
    | SmtpError                      // the SMTP session failed
    | MalformedId                    // an id that is neither an integer nor null (see README)
    | NoSection(section: string)     // configparser: the section is missing
    | NoOption(section: string, option: string)  // configparser: the option is missing

  datatype Result<+T> = Ok(value: T) | Err(error: Error) {
    predicate IsFailure() { Err? }
    function PropagateFailure<U>(): Result<U>
      requires Err?
    {
      Err(error)
    }
    function Extract(): T
      requires Ok?
    {
      value
    }
  }

  /** Python truthiness of an optional string: present and not empty. */
  predicate TruthyStr(s: Option<string>) {
    s.Some? && s.value != ""
  }

  /** Python truthiness of an optional integer: present and not zero. */
  predicate TruthyInt(n: Option<int>) {
    n.Some? && n.value != 0
  }

  /** The keys of a sequence of pairs, in order. */
  function Keys<K, V>(entries: seq<(K, V)>): (ks: seq<K>)
    ensures |ks| == |entries|
    ensures forall i :: 0 <= i < |entries| ==> ks[i] == entries[i].0
  {
    if entries == [] then [] else [entries[0].0] + Keys(entries[1..])
  }

  /** No element occurs twice. */
  predicate NoDuplicates<T(==)>(s: seq<T>) {
    forall i, j :: 0 <= i < j < |s| ==> s[i] != s[j]
  }

  /** Distinct elements drawn from a set are at most as many as the set has. */
  lemma {:induction false} DistinctBound<T>(s: seq<T>, pool: set<T>)
    requires NoDuplicates(s)
    requires forall i :: 0 <= i < |s| ==> s[i] in pool
    ensures |s| <= |pool|
  {
    if s != [] {
      var n := |s| - 1;
      DistinctBound(s[..n], pool - {s[n]});
    }
  }
}
