/** `String.prototype.split(':')` and `indexOf(':')`, the two ways the handlers take a tool type apart. */
module Strings {

  /** `s.split(':')`: the pieces between colons, in order; at least one, possibly empty. */
  function Split(s: string): (parts: seq<string>)
    ensures |parts| >= 1
    ensures forall k :: 0 <= k < |parts| ==> ':' !in parts[k]
    decreases |s|
  {
    if |s| == 0 then [""]
    else
      var rest := Split(s[1..]);
      if s[0] == ':' then [""] + rest
      else [[s[0]] + rest[0]] + rest[1..]
  }

  /** `parts.join(':')`. */
  function Join(parts: seq<string>): string
    requires |parts| >= 1
    decreases |parts|
  {
    if |parts| == 1 then parts[0] else parts[0] + ":" + Join(parts[1..])
  }

  /** Joining the pieces of a split gives back the string. */
  lemma {:induction false} JoinSplit(s: string)
    ensures Join(Split(s)) == s
    decreases |s|
  {
    if |s| > 0 {
      var rest := Split(s[1..]);
      JoinSplit(s[1..]);
      assert s == [s[0]] + s[1..];
      if s[0] != ':' && |rest| > 1 {
        assert Join(rest) == rest[0] + ":" + Join(rest[1..]);
      }
    }
  }

  /** `s.indexOf(':')`: the position of the first colon, or -1. */
  function IndexOfColon(s: string): (i: int)
    ensures -1 <= i < |s|
    ensures i >= 0 ==> s[i] == ':' && ':' !in s[..i]
    ensures i == -1 <==> ':' !in s
    decreases |s|
  {
    if |s| == 0 then -1
    else if s[0] == ':' then 0
    else
      var i := IndexOfColon(s[1..]);
      assert s[1..][..if i < 0 then 0 else i] == s[1..if i < 0 then 1 else i + 1];
      if i < 0 then -1 else i + 1
  }

  /** The first piece of a split is what comes before the first colon. */
  lemma {:induction false} SplitHead(s: string)
    ensures IndexOfColon(s) >= 0 ==> Split(s)[0] == s[..IndexOfColon(s)] && |Split(s)| > 1
    ensures IndexOfColon(s) == -1 ==> Split(s) == [s]
    decreases |s|
  {
    if |s| > 0 {
      SplitHead(s[1..]);
      if s[0] != ':' && IndexOfColon(s[1..]) == -1 {
        assert [s[0]] + s[1..] == s;
      }
    }
  }

  /** `s.indexOf(':') > 0 ? s.split(':')[0] : s`: the part of a qualified type before its colon. */
  function BaseType(s: string): (b: string)
    ensures IndexOfColon(s) > 0 ==> b == s[..IndexOfColon(s)] && 0 < |b| < |s| && ':' !in b
    ensures IndexOfColon(s) <= 0 ==> b == s
  {
    SplitHead(s);
    if IndexOfColon(s) > 0 then Split(s)[0] else s
  }
}
