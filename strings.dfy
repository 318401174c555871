/** The three functions of Go's `strings` package that the proxy's request
    routing calls: `HasPrefix` (the mux's prefix test), `TrimPrefix` (the path
    rewrite) and `Join` (the prefix derivation), with `HasSuffix` and
    `TrimSuffix`, which describe the reverse proxy's path join. Strings are
    sequences of characters; the proxy only ever compares and concatenates
    them. */
module GoStrings {

  /** `strings.HasPrefix(s, prefix)`. */
  predicate HasPrefix(s: string, prefix: string) {
    |prefix| <= |s| && s[..|prefix|] == prefix
  }

  /** `strings.HasSuffix(s, suffix)`. */
  predicate HasSuffix(s: string, suffix: string) {
    |suffix| <= |s| && s[|s| - |suffix|..] == suffix
  }

  /** A string has a prefix exactly when it is that prefix followed by
      something: the two directions of `HasPrefix`. */
  lemma HasPrefixConcat(prefix: string, rest: string)
    ensures HasPrefix(prefix + rest, prefix)
    ensures (prefix + rest)[|prefix|..] == rest
  {
    assert (prefix + rest)[..|prefix|] == prefix;
  }

  lemma HasPrefixSplit(s: string, prefix: string)
    requires HasPrefix(s, prefix)
    ensures s == prefix + s[|prefix|..]
  {
    assert s == s[..|prefix|] + s[|prefix|..];
  }

  /** `strings.TrimPrefix(s, prefix)`: drops a leading `prefix` when there is
      one and returns `s` unchanged otherwise. */
  function TrimPrefix(s: string, prefix: string): (r: string)
    ensures HasPrefix(s, prefix) ==> prefix + r == s
    ensures !HasPrefix(s, prefix) ==> r == s
    ensures |r| <= |s|
  {
    if HasPrefix(s, prefix) then
      HasPrefixSplit(s, prefix);
      s[|prefix|..]
    else
      s
  }

  /** `strings.TrimSuffix(s, suffix)`: drops a trailing `suffix` when there
      is one and returns `s` unchanged otherwise. */
  function TrimSuffix(s: string, suffix: string): (r: string)
    ensures HasSuffix(s, suffix) ==> r + suffix == s
    ensures !HasSuffix(s, suffix) ==> r == s
  {
    if HasSuffix(s, suffix) then
      assert s == s[..|s| - |suffix|] + s[|s| - |suffix|..];
      s[..|s| - |suffix|]
    else
      s
  }

  /** `strings.Join(elems, sep)`: the elements in order with `sep` between
      each neighbouring pair. */
  function Join(elems: seq<string>, sep: string): (r: string)
    ensures |elems| > 0 ==> |r| == TotalLength(elems) + |sep| * (|elems| - 1)
    ensures |elems| == 0 ==> r == ""
    ensures |elems| == 1 ==> r == elems[0]
  {
    if |elems| == 0 then ""
    else if |elems| == 1 then elems[0]
    else elems[0] + sep + Join(elems[1..], sep)
  }

  /** Built from the front, the join is characterised from the back: the join
      of all but the last element, `sep`, then the last element. With the
      empty and one-element cases of `Join`'s contract this fixes the whole
      result, element by element. */
  lemma {:induction false} JoinLast(elems: seq<string>, sep: string)
    requires |elems| >= 2
    ensures Join(elems, sep) == Join(elems[..|elems| - 1], sep) + sep + elems[|elems| - 1]
  {
    var n := |elems|;
    if n > 2 {
      JoinLast(elems[1..], sep);
      assert elems[1..][..n - 2] == elems[..n - 1][1..];
    }
  }

  /** The summed length of the elements, as `strings.Join` precomputes it. */
  function TotalLength(elems: seq<string>): nat {
    if |elems| == 0 then 0 else |elems[0]| + TotalLength(elems[1..])
  }

  /** Joining two elements puts the separator once between them. */
  lemma JoinPair(a: string, b: string, sep: string)
    ensures Join([a, b], sep) == a + sep + b
  {
    assert [a, b][1..] == [b];
  }
}
