/** The few functions of Go's `strings` package that the store uses. */
module Strings {

  predicate HasPrefix(s: string, prefix: string) {
    |prefix| <= |s| && s[..|prefix|] == prefix
  }

  predicate HasSuffix(s: string, suffix: string) {
    |suffix| <= |s| && s[|s| - |suffix|..] == suffix
  }

  /** strings.TrimPrefix: removes one leading occurrence of `prefix`, if any. */
  function TrimPrefix(s: string, prefix: string): (r: string)
    ensures HasPrefix(s, prefix) ==> prefix + r == s
    ensures !HasPrefix(s, prefix) ==> r == s
  {
    if HasPrefix(s, prefix) then s[|prefix|..] else s
  }

  /** strings.TrimSuffix: removes one trailing occurrence of `suffix`, if any. */
  function TrimSuffix(s: string, suffix: string): (r: string)
    ensures HasSuffix(s, suffix) ==> r + suffix == s
    ensures !HasSuffix(s, suffix) ==> r == s
  {
    if HasSuffix(s, suffix) then s[..|s| - |suffix|] else s
  }

  /** strings.Join: the elements with `sep` between each neighbouring pair. */
  function Join(parts: seq<string>, sep: string): string
  {
    if |parts| == 0 then ""
    else if |parts| == 1 then parts[0]
    else parts[0] + sep + Join(parts[1..], sep)
  }

  /** Each element with `prefix` written in front of it. */
  function Prefixed(parts: seq<string>, prefix: string): (r: seq<string>)
    ensures |r| == |parts|
    ensures forall i :: 0 <= i < |parts| ==> r[i] == prefix + parts[i]
  {
    seq(|parts|, i requires 0 <= i < |parts| => prefix + parts[i])
  }

  /**
   * Joining with `sep` after writing `prefix` in front of every element but the
   * first is joining with `sep + prefix`: the prefix becomes part of the separator.
   */
  lemma {:induction false} JoinPrefixed(lead: string, first: string, rest: seq<string>, sep: string, prefix: string)
    ensures Join([lead + first] + Prefixed(rest, prefix), sep) == lead + Join([first] + rest, sep + prefix)
    decreases |rest|
  {
    if rest == [] {
      assert [lead + first] + Prefixed(rest, prefix) == [lead + first];
      assert [first] + rest == [first];
    } else {
      var tail := Prefixed(rest[1..], prefix);
      PrefixedCons(rest, prefix);
      assert [first] + rest == [first] + ([rest[0]] + rest[1..]);
      var inner := Join([rest[0]] + rest[1..], sep + prefix);
      JoinPrefixed(prefix, rest[0], rest[1..], sep, prefix);
      JoinCons(lead + first, [prefix + rest[0]] + tail, sep);
      JoinCons(first, [rest[0]] + rest[1..], sep + prefix);
      Regroup(lead, first, sep, prefix, inner);
    }
  }

  /** Prefixing a non-empty sequence prefixes its head and then its tail. */
  lemma PrefixedCons(parts: seq<string>, prefix: string)
    requires parts != []
    ensures Prefixed(parts, prefix) == [prefix + parts[0]] + Prefixed(parts[1..], prefix)
  {
  }

  /** Joining an element in front of a non-empty sequence puts one separator after it. */
  lemma JoinCons(head: string, tail: seq<string>, sep: string)
    requires tail != []
    ensures Join([head] + tail, sep) == head + sep + Join(tail, sep)
  {
    assert ([head] + tail)[1..] == tail;
  }

  /** Moving the parentheses of a five-part concatenation. */
  lemma Regroup(a: string, b: string, c: string, d: string, e: string)
    ensures (a + b) + c + (d + e) == a + (b + (c + d) + e)
  {
  }
}
