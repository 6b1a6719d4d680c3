/** String helpers of compeqGPT.py: `truncate`, Python's `[:n]` slice,
    `str.strip()` and `"\n".join(...)`. Strings are sequences of Unicode
    scalar values, as Python's `str` is a sequence of code points. */
module Strings {

  /** Marker that `truncate` appends when it cuts a string. */
  const Ellipsis: string := "..."

  /** `truncate(text, max_len)`: the text itself when it has at most
      `maxLen` characters, otherwise its first `maxLen` characters
      followed by "...". */
  function Truncate(s: string, maxLen: nat): (r: string)
    ensures |s| <= maxLen ==> r == s
    ensures |s| > maxLen ==> |r| == maxLen + |Ellipsis| && r[maxLen..] == Ellipsis
    ensures |r| <= maxLen + |Ellipsis|
    ensures forall i :: 0 <= i < |r| && i < maxLen ==> r[i] == s[i]
  {
    if |s| <= maxLen then s else s[..maxLen] + Ellipsis
  }

  /** Cutting twice with the same bound changes nothing more. */
  lemma TruncateIdempotent(s: string, maxLen: nat)
    ensures Truncate(Truncate(s, maxLen), maxLen) == Truncate(s, maxLen)
  {
    var r := Truncate(s, maxLen);
    if |s| > maxLen {
      assert r[..maxLen] == s[..maxLen];
    }
  }

  /** The first `min(|s|, maxLen)` characters of the result are a prefix of `s`. */
  lemma TruncateKeepsPrefix(s: string, maxLen: nat)
    ensures var k := if |s| <= maxLen then |s| else maxLen;
            k <= |Truncate(s, maxLen)| && Truncate(s, maxLen)[..k] == s[..k]
  {
  }

  /** A truncated string fits in `maxLen` characters exactly when nothing was cut. */
  lemma TruncateFitsIff(s: string, maxLen: nat)
    ensures |Truncate(s, maxLen)| <= maxLen <==> |s| <= maxLen
  {
  }

  /** Python's `s[:n]` for `n >= 0`: the longest prefix of `s` with at most `n` characters. */
  function Cut(s: string, n: nat): (r: string)
    ensures r <= s
    ensures |r| <= n
    ensures |s| <= n ==> r == s
    ensures |s| > n ==> |r| == n
  {
    if |s| <= n then s else s[..n]
  }

  /** The characters for which Python's `str.isspace()` holds, which are
      the ones `str.strip()` removes. */
  predicate IsSpace(c: char) {
    ('\t' <= c <= '\r') || ('\U{1C}' <= c <= ' ') || c == '\U{85}' || c == '\U{A0}'
    || c == '\U{1680}' || ('\U{2000}' <= c <= '\U{200A}') || c == '\U{2028}'
    || c == '\U{2029}' || c == '\U{202F}' || c == '\U{205F}' || c == '\U{3000}'
  }

  /** Removes the leading whitespace of `s`. */
  function TrimStart(s: string): (r: string)
    ensures |r| <= |s| && r == s[|s| - |r|..]
    ensures forall k :: 0 <= k < |s| - |r| ==> IsSpace(s[k])
    ensures r == [] || !IsSpace(r[0])
  {
    if |s| > 0 && IsSpace(s[0]) then TrimStart(s[1..]) else s
  }

  /** Removes the trailing whitespace of `s`. */
  function TrimEnd(s: string): (r: string)
    ensures |r| <= |s| && r == s[..|r|]
    ensures forall k :: |r| <= k < |s| ==> IsSpace(s[k])
    ensures r == [] || !IsSpace(r[|r| - 1])
  {
    if |s| > 0 && IsSpace(s[|s| - 1]) then TrimEnd(s[..|s| - 1]) else s
  }

  /** `str.strip()`: removes the whitespace at both ends of `s`; what is
      left is the slice of `s` that starts after its leading whitespace. */
  function Strip(s: string): (r: string)
    ensures |r| <= |s|
    ensures r == [] || (!IsSpace(r[0]) && !IsSpace(r[|r| - 1]))
    ensures var i := |s| - |TrimStart(s)|;
      i + |r| <= |s| && r == s[i..i + |r|]
      && (forall k :: 0 <= k < i ==> IsSpace(s[k]))
      && (forall k :: i + |r| <= k < |s| ==> IsSpace(s[k]))
  {
    var t := TrimStart(s);
    var r := TrimEnd(t);
    var i := |s| - |t|;
    assert r == s[i..i + |r|];
    r
  }

  /** Stripping a string without whitespace at its ends leaves it as it is. */
  lemma StripUnchanged(s: string)
    requires s == [] || (!IsSpace(s[0]) && !IsSpace(s[|s| - 1]))
    ensures Strip(s) == s
  {
  }

  /** `sep.join(parts)`: the parts in order, with `sep` between neighbours. */
  function Join(parts: seq<string>, sep: string): (r: string)
    ensures |parts| == 1 ==> r == parts[0]
    ensures |parts| > 0 ==> parts[0] <= r
    ensures |parts| > 0 ==>
      (|parts[|parts| - 1]| <= |r| && r[|r| - |parts[|parts| - 1]|..] == parts[|parts| - 1])
    ensures |r| == TotalLength(parts) + (if |parts| == 0 then 0 else (|parts| - 1) * |sep|)
  {
    if |parts| == 0 then ""
    else if |parts| == 1 then parts[0]
    else Join(parts[..|parts| - 1], sep) + sep + parts[|parts| - 1]
  }

  /** Sum of the lengths of `parts`. */
  function TotalLength(parts: seq<string>): nat {
    if |parts| == 0 then 0 else TotalLength(parts[..|parts| - 1]) + |parts[|parts| - 1]|
  }

  /** The concatenation of `parts` in order (`text += part` over a loop). */
  function Concat(parts: seq<string>): (r: string)
    ensures |r| == TotalLength(parts)
    ensures |parts| > 0 ==> parts[0] <= r
  {
    if |parts| == 0 then "" else Concat(parts[..|parts| - 1]) + parts[|parts| - 1]
  }

  /** Python's `s.startswith(prefix)`. */
  predicate StartsWith(s: string, prefix: string)
    ensures StartsWith(s, prefix) <==> |prefix| <= |s| && s[..|prefix|] == prefix
  {
    prefix <= s
  }
}
