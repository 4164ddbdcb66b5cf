/**
 * The few pieces of Python's `str` behaviour the domain lookup code relies on:
 * `str.isalnum` on one character, `str.split(sep, maxsplit=1)` and
 * `str.replace` of one character by another.
 */
module Text {

  /** `c.isalnum()`, restricted to ASCII letters and digits. */
  predicate IsAlnum(c: char) {
    ('a' <= c <= 'z') || ('A' <= c <= 'Z') || ('0' <= c <= '9')
  }

  /** The character rule of both name validators: alphanumeric or a hyphen. */
  predicate AllowedChar(c: char) {
    IsAlnum(c) || c == '-'
  }

  /** Every character of `name` passes the letters-digits-hyphen rule. */
  predicate AllowedName(name: string) {
    forall i :: 0 <= i < |name| ==> AllowedChar(name[i])
  }

  /** Position of the first `c` in `s`, or `|s|` when `s` has none. */
  function FindChar(s: string, c: char): (i: nat)
    ensures i <= |s|
    ensures forall j :: 0 <= j < i ==> s[j] != c
    ensures i < |s| ==> s[i] == c
  {
    if s == [] then 0
    else if s[0] == c then 0
    else 1 + FindChar(s[1..], c)
  }

  /**
   * `s.split(sep, maxsplit=1)`: the whole string when `sep` does not occur,
   * otherwise the part before the first `sep` and everything after it.
   */
  function SplitOnce(s: string, sep: char): (parts: seq<string>)
    ensures sep !in s ==> parts == [s]
    ensures sep in s ==> |parts| == 2 && sep !in parts[0] && parts[0] + [sep] + parts[1] == s
  {
    var i := FindChar(s, sep);
    if i == |s| then [s] else [s[..i], s[i + 1..]]
  }

  /** Splitting `before + [sep] + after` finds the separator right after `before`. */
  lemma {:induction false} SplitOnceAt(before: string, sep: char, after: string)
    requires sep !in before
    ensures SplitOnce(before + [sep] + after, sep) == [before, after]
  {
    var s := before + [sep] + after;
    var i := FindChar(s, sep);
    assert s[|before|] == sep;
    assert forall j :: 0 <= j < |before| ==> s[j] == before[j];
    assert s[..i] == before;
    assert s[i + 1..] == after;
  }

  /** `s.replace(from, to)` for one-character `from` and `to`. */
  function ReplaceChar(s: string, from: char, to: char): (r: string)
    ensures |r| == |s|
    ensures forall i :: 0 <= i < |s| ==> r[i] == if s[i] == from then to else s[i]
  {
    if s == [] then []
    else [if s[0] == from then to else s[0]] + ReplaceChar(s[1..], from, to)
  }

  /** After replacing every `from` by a different character no `from` is left. */
  lemma ReplaceCharRemoves(s: string, from: char, to: char)
    requires from != to
    ensures from !in ReplaceChar(s, from, to)
  {
  }
}
