/** Shared vocabulary of the platform registries: optional values, the error
    conditions the managers report, identifiers and the way a listing of a map
    (whose iteration order Go leaves unspecified) is specified. */
module Common {

  datatype Option<T> = None | Some(value: T)

  /** The error conditions the managers return, one constructor per kind of
      `errors.Errorf` / `errors.Wrapf` they raise. */
  datatype Error =
    | Required(what: string)                  // "... ID is required", "stream name is required"
    | NotFound(kind: string, id: string)      // "input not found", "task not found", "stream not found"
    | InvalidPort(field: string, port: int)   // "invalid port", "invalid portNoStreamId1", ...
    | InvalidValue(field: string, value: string) // "invalid input type", "invalid HLS URL", ...
    | MaxStreamsReached(inputId: string)      // "maximum streams reached for input"
    | StoreWrite                              // "save to redis"
    | StoreDelete                             // "delete from redis"
    | StoreKeys                               // "get stream keys"

  /** The result of an operation that returns only an error. */
  datatype Outcome = Ok | Fail(error: Error)

  /** A freshly generated identifier (`uuid.New().String()`, 36 characters). */
  type Uuid = s: string | |s| == 36 witness "00000000-0000-0000-0000-000000000000"

  /** Seconds in a day; Go's `24 * time.Hour`. */
  const SecondsPerDay: int := 86400

  /** The largest TCP/UDP port number. */
  const MaxPort: int := 65535

  predicate PortInRange(p: int) {
    0 < p <= MaxPort
  }

  /** `strings.HasPrefix(s, p)` */
  predicate HasPrefix(s: string, p: string) {
    |p| <= |s| && s[..|p|] == p
  }

  /** A namespaced store key such as `srt_input:<id>` is determined by its id. */
  lemma {:induction false} KeyInjective(prefix: string, a: string, b: string)
    requires prefix + a == prefix + b
    ensures a == b
  {
    assert a == (prefix + a)[|prefix|..];
    assert b == (prefix + b)[|prefix|..];
  }

  /** The store key of entry `id` of a registry whose keys start with `prefix`. */
  function PrefixedKey(prefix: string, id: string): string {
    prefix + id
  }

  /** The store holds, under its prefixed key, exactly the in-memory record of
      every entry of `m`. */
  ghost predicate Mirrors<V>(prefix: string, data: map<string, V>, m: map<string, V>) {
    forall id {:trigger PrefixedKey(prefix, id)} :: id in m ==>
      PrefixedKey(prefix, id) in data && data[PrefixedKey(prefix, id)] == m[id]
  }

  /** Writing a record under its key and installing it in memory preserves
      the mirror. */
  lemma MirrorsAfterInstall<V>(prefix: string, data: map<string, V>, m: map<string, V>, id: string, v: V)
    requires Mirrors(prefix, data, m)
    ensures Mirrors(prefix, data[PrefixedKey(prefix, id) := v], m[id := v])
  {
    forall other | other in m && other != id
      ensures PrefixedKey(prefix, other) != PrefixedKey(prefix, id)
    {
      if PrefixedKey(prefix, other) == PrefixedKey(prefix, id) {
        KeyInjective(prefix, other, id);
      }
    }
  }

  /** Deleting a key from the store and the entry from memory preserves the
      mirror. */
  lemma MirrorsAfterDelete<V>(prefix: string, data: map<string, V>, m: map<string, V>, gone: string)
    requires Mirrors(prefix, data, m)
    ensures Mirrors(prefix, data - {PrefixedKey(prefix, gone)}, m - {gone})
  {
    forall other | other in m && other != gone
      ensures PrefixedKey(prefix, other) != PrefixedKey(prefix, gone)
    {
      if PrefixedKey(prefix, other) == PrefixedKey(prefix, gone) {
        KeyInjective(prefix, other, gone);
      }
    }
  }

  lemma {:induction false} PrefixedKeyHasPrefix(prefix: string, a: string)
    ensures HasPrefix(prefix + a, prefix) && (prefix + a)[|prefix|..] == a
  {
    assert (prefix + a)[..|prefix|] == prefix;
  }

  ghost predicate Distinct<K>(ks: seq<K>) {
    forall i, j :: 0 <= i < j < |ks| ==> ks[i] != ks[j]
  }

  /** `ks` lists every element of `s` exactly once, in some order. */
  ghost predicate Enumerates<K(!new)>(ks: seq<K>, s: set<K>) {
    Distinct(ks) && (forall k :: k in ks <==> k in s)
  }

  /** `r` holds the values of `m` at the keys `ks`, in that order. */
  ghost predicate ListsValues<K, V>(r: seq<V>, m: map<K, V>, ks: seq<K>) {
    |r| == |ks| && forall i :: 0 <= i < |ks| ==> ks[i] in m && r[i] == m[ks[i]]
  }

  /** An enumeration of a set is as long as the set is large. */
  lemma {:induction false} EnumerationLength<K(!new)>(ks: seq<K>, s: set<K>)
    requires Enumerates(ks, s)
    ensures |ks| == |s|
    decreases |ks|
  {
    if ks != [] {
      var last := ks[|ks| - 1];
      var init := ks[..|ks| - 1];
      assert forall k :: k in init <==> k in s - {last} by {
        forall k ensures k in init <==> k in s - {last} {
          if k in init {
            var i :| 0 <= i < |init| && init[i] == k;
            assert ks[i] == k && ks[|ks| - 1] == last;
          }
          if k in s - {last} {
            assert k in ks;
            var i :| 0 <= i < |ks| && ks[i] == k;
            assert i != |ks| - 1;
            assert init[i] == k;
          }
        }
      }
      EnumerationLength(init, s - {last});
    }
  }

  /** Decimal rendering of an integer, as Go's `%d` verb writes it. */
  function IntToString(n: int): (s: string)
    ensures |s| > 0
    decreases if n < 0 then 1 - n else n
  {
    if n < 0 then "-" + IntToString(-n)
    else if n < 10 then [DigitChar(n)]
    else IntToString(n / 10) + [DigitChar(n % 10)]
  }

  function DigitChar(d: int): char
    requires 0 <= d < 10
  {
    "0123456789"[d]
  }
}
