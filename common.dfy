/**
 * Shared vocabulary: optional values, the Python exceptions the modelled code
 * raises, and the handful of `str` operations it relies on (`strip`,
 * `startswith`, `endswith`, `in`, `join`, `splitlines`, `lower`).
 *
 * Text is `seq<char>`. Whitespace is the set of characters for which
 * Python's `str.isspace()` holds (also what `\s` matches in a `str` regex);
 * `str.splitlines()` breaks at its own set of line boundaries, while a regex's
 * `$` and `.` only know '\n'.
 */
module Common {

  datatype Option<+T> = None | Some(value: T)

  /** The Python exceptions the modelled functions raise or catch. */
  datatype Error =
    | TypeError(msg: string)
    | AttributeError(msg: string)
    | ValueError(msg: string)
    | IndexError(msg: string)
    | NetworkXError(msg: string)
    | AssertionError(msg: string)
    | EncoderError(msg: string)
    | SystemExit(msg: string)

  datatype Result<+T> = Ok(value: T) | Err(error: Error)

  /** Python's `str.isspace()` for one character. */
  predicate IsSpace(c: char)
  {
    c == ' ' || ('\t' <= c <= '\r') || ('\U{1c}' <= c <= '\U{1f}') || c == '\U{85}' || c == '\U{a0}'
    || c == '\U{1680}' || ('\U{2000}' <= c <= '\U{200a}') || c == '\U{2028}' || c == '\U{2029}'
    || c == '\U{202f}' || c == '\U{205f}' || c == '\U{3000}'
  }

  predicate IsAscii(c: char) { c < '\U{80}' }

  /** `[A-Za-z0-9_]`, the ASCII reading of `\w`. */
  predicate IsWordChar(c: char)
  {
    ('a' <= c <= 'z') || ('A' <= c <= 'Z') || ('0' <= c <= '9') || c == '_'
  }

  predicate IsUpper(c: char) { 'A' <= c <= 'Z' }

  function TrimLeft(s: string): (r: string)
    ensures |r| <= |s| && r == s[|s| - |r|..]
    ensures r == [] || !IsSpace(r[0])
    ensures forall i :: 0 <= i < |s| - |r| ==> IsSpace(s[i])
  {
    if |s| > 0 && IsSpace(s[0]) then TrimLeft(s[1..]) else s
  }

  function TrimRight(s: string): (r: string)
    ensures |r| <= |s| && r == s[..|r|]
    ensures r == [] || !IsSpace(r[|r| - 1])
    ensures forall i :: |r| <= i < |s| ==> IsSpace(s[i])
  {
    if |s| > 0 && IsSpace(s[|s| - 1]) then TrimRight(s[..|s| - 1]) else s
  }

  /** Python's `str.strip()` with no argument. */
  function Strip(s: string): string
  {
    TrimRight(TrimLeft(s))
  }

  /** A stripped text has no whitespace at either edge. */
  predicate Stripped(s: string)
  {
    s == [] || (!IsSpace(s[0]) && !IsSpace(s[|s| - 1]))
  }

  lemma StripIsStripped(s: string)
    ensures Stripped(Strip(s))
  {
    var l := TrimLeft(s);
    var r := TrimRight(l);
    if r != [] {
      assert r[0] == l[0];
    }
  }

  lemma StrippedIsFixed(s: string)
    requires Stripped(s)
    ensures Strip(s) == s
  {
  }

  predicate StartsWith(s: string, prefix: string)
  {
    |prefix| <= |s| && s[..|prefix|] == prefix
  }

  predicate EndsWith(s: string, suffix: string)
  {
    |suffix| <= |s| && s[|s| - |suffix|..] == suffix
  }

  /** Python's `sub in s`. */
  predicate Contains(s: string, sub: string)
    decreases |s|
  {
    StartsWith(s, sub) || (|s| > 0 && Contains(s[1..], sub))
  }

  /** Python's `sep.join(parts)`. */
  function Join(sep: string, parts: seq<string>): string
  {
    if |parts| == 0 then ""
    else if |parts| == 1 then parts[0]
    else parts[0] + sep + Join(sep, parts[1..])
  }

  /** Index of the first '\n' at or after `from`, or `|s|`. */
  function LineEnd(s: string, from: nat): (e: nat)
    requires from <= |s|
    ensures from <= e <= |s|
    ensures e < |s| ==> s[e] == '\n'
    ensures forall k :: from <= k < e ==> s[k] != '\n'
    decreases |s| - from
  {
    if from == |s| || s[from] == '\n' then from else LineEnd(s, from + 1)
  }

  /** The characters at which Python's `str.splitlines()` breaks a line. */
  predicate IsLineBreak(c: char)
  {
    c == '\n' || c == '\r' || c == '\U{0b}' || c == '\U{0c}' || ('\U{1c}' <= c <= '\U{1e}')
    || c == '\U{85}' || c == '\U{2028}' || c == '\U{2029}'
  }

  /** Index of the first line break at or after `from`, or `|s|`. */
  function BreakAt(s: string, from: nat): (e: nat)
    requires from <= |s|
    ensures from <= e <= |s|
    ensures e < |s| ==> IsLineBreak(s[e])
    ensures forall k :: from <= k < e ==> !IsLineBreak(s[k])
    decreases |s| - from
  {
    if from == |s| || IsLineBreak(s[from]) then from else BreakAt(s, from + 1)
  }

  /** Python's `s.splitlines()`: "\r\n" is one break, a final break opens no empty line. */
  function SplitLines(s: string): (ls: seq<string>)
    ensures forall i, k :: 0 <= i < |ls| && 0 <= k < |ls[i]| ==> !IsLineBreak(ls[i][k])
    decreases |s|
  {
    if s == [] then []
    else
      var e := BreakAt(s, 0);
      if e == |s| then [s]
      else
        var next := if s[e] == '\r' && e + 1 < |s| && s[e + 1] == '\n' then e + 2 else e + 1;
        [s[..e]] + SplitLines(s[next..])
  }

  predicate Avoids(s: string, c: char)
  {
    forall k :: 0 <= k < |s| ==> s[k] != c
  }

  /** A character absent from a text is absent from each of its lines. */
  lemma {:induction false} SplitLinesAvoid(s: string, c: char)
    requires Avoids(s, c)
    ensures forall i :: 0 <= i < |SplitLines(s)| ==> Avoids(SplitLines(s)[i], c)
    decreases |s|
  {
    if s != [] {
      var e := BreakAt(s, 0);
      if e < |s| {
        var next := if s[e] == '\r' && e + 1 < |s| && s[e + 1] == '\n' then e + 2 else e + 1;
        SplitLinesAvoid(s[next..], c);
        assert SplitLines(s) == [s[..e]] + SplitLines(s[next..]);
      }
    }
  }

  /** Joining non-empty lines with '\n' and splitting them again gives the lines back. */
  lemma {:induction false} SplitLinesOfJoin(parts: seq<string>)
    requires forall i :: 0 <= i < |parts| ==> parts[i] != []
    requires forall i, k :: 0 <= i < |parts| && 0 <= k < |parts[i]| ==> !IsLineBreak(parts[i][k])
    ensures SplitLines(Join("\n", parts)) == parts
    decreases |parts|
  {
    if |parts| == 1 {
      assert BreakAt(parts[0], 0) == |parts[0]|;
    } else if |parts| > 1 {
      var s := Join("\n", parts);
      var p := parts[0];
      assert s == p + "\n" + Join("\n", parts[1..]);
      BreakPrefix(s, p);
      assert s[|p| + 1..] == Join("\n", parts[1..]);
      SplitLinesOfJoin(parts[1..]);
      assert s[..|p|] == p;
    }
  }

  lemma BreakPrefix(s: string, p: string)
    requires |p| < |s| && s[..|p|] == p && s[|p|] == '\n'
    requires forall k :: 0 <= k < |p| ==> !IsLineBreak(p[k])
    ensures BreakAt(s, 0) == |p|
  {
    var e := BreakAt(s, 0);
    assert forall k :: 0 <= k < |p| ==> s[k] == p[k];
  }

  function LowerChar(c: char): char
  {
    if 'A' <= c <= 'Z' then (c as int + 32) as char else c
  }

  /** Python's `s.lower()` on ASCII letters. */
  function Lower(s: string): (r: string)
    ensures |r| == |s|
    ensures forall i :: 0 <= i < |s| ==> r[i] == LowerChar(s[i])
  {
    if s == [] then [] else [LowerChar(s[0])] + Lower(s[1..])
  }

  /** The last element of `s.split(c)`: the text after the last `c`, or all of `s`. */
  function AfterLast(s: string, c: char): (r: string)
    ensures c !in r
    ensures EndsWith(s, r)
    ensures |r| < |s| ==> s[|s| - |r| - 1] == c
  {
    if s == [] then []
    else if s[|s| - 1] == c then []
    else AfterLast(s[..|s| - 1], c) + [s[|s| - 1]]
  }
}
