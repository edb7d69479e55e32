/**
 * Text clean-up used at ingestion: comment and blank-line removal for code,
 * docstring extraction, whitespace normalisation and heading lines for
 * documentation.
 */
module Preprocess {
  import opened Common
  import opened PyAst

  /** A line of comment-free text: no line break and no '#'. */
  predicate CleanLine(l: string)
  {
    forall k :: 0 <= k < |l| ==> !IsLineBreak(l[k]) && l[k] != '#'
  }

  /**
   * `re.sub(r"#.*", "", s)`: every '#' is dropped together with the rest of its
   * line ('.' stops at '\n' only).
   */
  function RemoveComments(s: string): (r: string)
    ensures Avoids(r, '#')
    ensures Avoids(s, '#') ==> r == s
    ensures |r| <= |s|
    decreases |s|
  {
    if s == [] then []
    else if s[0] == '#' then RemoveComments(s[LineEnd(s, 0)..])
    else [s[0]] + RemoveComments(s[1..])
  }

  /** The code part of a line: everything before its first '#'. */
  function CodePart(l: string): (r: string)
    ensures StartsWith(l, r) && Avoids(r, '#')
    ensures |r| < |l| ==> l[|r|] == '#'
  {
    if l == [] || l[0] == '#' then [] else [l[0]] + CodePart(l[1..])
  }

  /** Text without '#' is copied in front of whatever follows it. */
  lemma {:induction false} RemoveCommentsKeeps(code: string, t: string)
    requires Avoids(code, '#')
    ensures RemoveComments(code + t) == code + RemoveComments(t)
    decreases |code|
  {
    if code == [] {
      assert code + t == t;
    } else {
      var rest := code[1..];
      assert code == [code[0]] + rest;
      RemoveCommentsKeeps(rest, t);
      ConsAppend(code[0], rest, t);
      RemoveCommentsVisible(code[0], rest + t);
      ConsAppend(code[0], rest, RemoveComments(t));
    }
  }

  lemma ConsAppend(c: char, a: string, b: string)
    ensures [c] + (a + b) == [c] + a + b
  {
  }

  /** A character other than '#' is copied. */
  lemma RemoveCommentsVisible(c: char, t: string)
    requires c != '#'
    ensures RemoveComments([c] + t) == [c] + RemoveComments(t)
  {
    assert ([c] + t)[1..] == t;
  }

  /** A '#' drops everything up to the next '\n', which is kept. */
  lemma RemoveCommentsDrops(comment: string, rest: string)
    requires Avoids(comment, '\n')
    requires rest == [] || rest[0] == '\n'
    ensures RemoveComments("#" + comment + rest) == RemoveComments(rest)
  {
    var s := "#" + comment + rest;
    var e := LineEnd(s, 0);
    assert forall k :: 0 <= k < 1 + |comment| ==> s[k] != '\n';
    assert rest != [] ==> s[1 + |comment|] == '\n';
    assert e == 1 + |comment|;
    assert s[e..] == rest;
  }

  /**
   * On one '\n'-free line followed by the rest of the text, the line's code
   * part is kept and everything from its first '#' is dropped.
   */
  lemma RemoveCommentsLine(code: string, comment: string, rest: string)
    requires Avoids(code, '#') && Avoids(code, '\n') && Avoids(comment, '\n')
    requires rest == [] || rest[0] == '\n'
    ensures RemoveComments(code + rest) == code + RemoveComments(rest)
    ensures RemoveComments(code + "#" + comment + rest) == code + RemoveComments(rest)
  {
    RemoveCommentsKeeps(code, rest);
    RemoveCommentsKeeps(code, "#" + comment + rest);
    RemoveCommentsDrops(comment, rest);
    Regroup(code, "#", comment, rest);
  }

  lemma Regroup(a: string, b: string, c: string, d: string)
    ensures a + b + c + d == a + (b + c + d)
  {
  }

  /** One line followed by the rest of the text keeps just its code part. */
  lemma RemoveCommentsFirst(l: string, rest: string)
    requires Avoids(l, '\n')
    requires rest == [] || rest[0] == '\n'
    ensures RemoveComments(l + rest) == CodePart(l) + RemoveComments(rest)
  {
    var c := CodePart(l);
    if |c| < |l| {
      var comment := l[|c| + 1..];
      assert l == c + "#" + comment;
      RemoveCommentsLine(c, comment, rest);
    } else {
      assert l == c;
      RemoveCommentsLine(c, [], rest);
    }
  }

  /** The code parts of a sequence of lines. */
  function CodeParts(lines: seq<string>): (r: seq<string>)
    ensures |r| == |lines|
    ensures forall i :: 0 <= i < |lines| ==> r[i] == CodePart(lines[i])
  {
    seq(|lines|, i requires 0 <= i < |lines| => CodePart(lines[i]))
  }

  /**
   * `re.sub(r"#.*", "", s)` line by line: the text's '\n'-separated lines
   * each keep exactly their part before the first '#', and the '\n' breaks
   * between them are all kept.
   */
  lemma {:induction false} RemoveCommentsLines(lines: seq<string>)
    requires forall i :: 0 <= i < |lines| ==> Avoids(lines[i], '\n')
    ensures RemoveComments(Join("\n", lines)) == Join("\n", CodeParts(lines))
    decreases |lines|
  {
    if |lines| == 1 {
      RemoveCommentsFirst(lines[0], "");
      assert Join("\n", lines) == lines[0] + "";
    } else if |lines| > 1 {
      RemoveCommentsLines(lines[1..]);
      RemoveCommentsLinesStep(lines);
    }
  }

  /** One more line in front: its code part, a kept '\n', then the rest as before. */
  lemma RemoveCommentsLinesStep(lines: seq<string>)
    requires |lines| > 1 && Avoids(lines[0], '\n')
    requires RemoveComments(Join("\n", lines[1..])) == Join("\n", CodeParts(lines[1..]))
    ensures RemoveComments(Join("\n", lines)) == Join("\n", CodeParts(lines))
  {
    var tail := Join("\n", lines[1..]);
    JoinFront(lines);
    RemoveCommentsFirst(lines[0], ['\n'] + tail);
    RemoveCommentsVisible('\n', tail);
    var parts := CodeParts(lines);
    assert parts[1..] == CodeParts(lines[1..]);
    JoinFront(parts);
  }

  /** `"\n".join` of two or more lines: the first, a '\n', then the join of the rest. */
  lemma JoinFront(parts: seq<string>)
    requires |parts| > 1
    ensures Join("\n", parts) == parts[0] + (['\n'] + Join("\n", parts[1..]))
  {
    assert parts[0] + "\n" + Join("\n", parts[1..]) == parts[0] + (['\n'] + Join("\n", parts[1..]));
  }

  lemma StripSlice(s: string) returns (a: nat, b: nat)
    ensures a <= b <= |s| && Strip(s) == s[a..b]
  {
    var l := TrimLeft(s);
    a, b := |s| - |l|, |s| - |l| + |TrimRight(l)|;
  }

  lemma StripKeepsClean(l: string)
    ensures CleanLine(l) ==> CleanLine(Strip(l))
  {
    var a, b := StripSlice(l);
  }

  /** `[line.strip() for line in lines if line.strip()]`. */
  function NonBlankStripped(lines: seq<string>): (r: seq<string>)
    ensures |r| <= |lines|
    ensures forall i :: 0 <= i < |r| ==> r[i] != [] && Stripped(r[i])
  {
    if lines == [] then []
    else
      var l := Strip(lines[0]);
      StripIsStripped(lines[0]);
      var rest := NonBlankStripped(lines[1..]);
      if l != [] then [l] + rest else rest
  }

  /**
   * `[f(l) for l in lines if keep(l)]`: the list comprehension with a filter,
   * in the shape both `preprocess_code` and `extract_sections` use.
   */
  function Pick(keep: string -> bool, f: string -> string, lines: seq<string>): seq<string>
  {
    if lines == [] then [] else (if keep(lines[0]) then [f(lines[0])] else []) + Pick(keep, f, lines[1..])
  }

  lemma {:induction false} PickAppend(keep: string -> bool, f: string -> string, a: seq<string>, b: seq<string>)
    ensures Pick(keep, f, a + b) == Pick(keep, f, a) + Pick(keep, f, b)
    decreases |a|
  {
    if a == [] {
      assert a + b == b;
    } else {
      assert (a + b)[0] == a[0];
      assert (a + b)[1..] == a[1..] + b;
      PickAppend(keep, f, a[1..], b);
    }
  }

  lemma {:induction false} PickMembers(keep: string -> bool, f: string -> string, lines: seq<string>, x: string)
    ensures x in Pick(keep, f, lines) <==> exists i :: 0 <= i < |lines| && keep(lines[i]) && f(lines[i]) == x
    decreases |lines|
  {
    if lines != [] {
      PickMembers(keep, f, lines[1..], x);
      if exists i :: 0 <= i < |lines| && keep(lines[i]) && f(lines[i]) == x {
        var i :| 0 <= i < |lines| && keep(lines[i]) && f(lines[i]) == x;
        if i > 0 {
          assert lines[1..][i - 1] == lines[i];
        }
      }
      if exists i :: 0 <= i < |lines[1..]| && keep(lines[1..][i]) && f(lines[1..][i]) == x {
        var i :| 0 <= i < |lines[1..]| && keep(lines[1..][i]) && f(lines[1..][i]) == x;
        assert lines[i + 1] == lines[1..][i];
      }
    }
  }

  lemma {:induction false} NonBlankStrippedIsPick(lines: seq<string>)
    ensures NonBlankStripped(lines) == Pick(l => Strip(l) != [], Strip, lines)
    decreases |lines|
  {
    if lines != [] {
      NonBlankStrippedIsPick(lines[1..]);
    }
  }

  /** Filtering distributes over concatenation, so the kept lines keep their order. */
  lemma NonBlankStrippedAppend(a: seq<string>, b: seq<string>)
    ensures NonBlankStripped(a + b) == NonBlankStripped(a) + NonBlankStripped(b)
  {
    NonBlankStrippedIsPick(a + b);
    NonBlankStrippedIsPick(a);
    NonBlankStrippedIsPick(b);
    PickAppend(l => Strip(l) != [], Strip, a, b);
  }

  /** One line is kept, stripped, exactly when it is not blank. */
  lemma NonBlankStrippedOne(l: string)
    ensures NonBlankStripped([l]) == if Strip(l) != [] then [Strip(l)] else []
  {
    assert [l][1..] == [];
  }

  /** The kept lines are exactly the stripped forms of the non-blank lines. */
  lemma NonBlankStrippedMembers(lines: seq<string>, x: string)
    ensures x in NonBlankStripped(lines) <==> x != [] && exists i :: 0 <= i < |lines| && Strip(lines[i]) == x
  {
    NonBlankStrippedIsPick(lines);
    PickMembers(l => Strip(l) != [], Strip, lines, x);
  }

  lemma NonBlankStrippedClean(lines: seq<string>)
    requires forall i :: 0 <= i < |lines| ==> CleanLine(lines[i])
    ensures forall i :: 0 <= i < |NonBlankStripped(lines)| ==> CleanLine(NonBlankStripped(lines)[i])
  {
    var r := NonBlankStripped(lines);
    forall i | 0 <= i < |r|
      ensures CleanLine(r[i])
    {
      NonBlankStrippedMembers(lines, r[i]);
      var j :| 0 <= j < |lines| && Strip(lines[j]) == r[i];
      StripKeepsClean(lines[j]);
    }
  }

  lemma {:induction false} NonBlankStrippedFixed(lines: seq<string>)
    requires forall i :: 0 <= i < |lines| ==> lines[i] != [] && Stripped(lines[i])
    ensures NonBlankStripped(lines) == lines
    decreases |lines|
  {
    if lines != [] {
      StrippedIsFixed(lines[0]);
      NonBlankStrippedFixed(lines[1..]);
    }
  }

  lemma {:induction false} JoinAvoids(sep: string, parts: seq<string>, c: char)
    requires Avoids(sep, c)
    requires forall i :: 0 <= i < |parts| ==> Avoids(parts[i], c)
    ensures Avoids(Join(sep, parts), c)
    decreases |parts|
  {
    if |parts| > 1 {
      JoinAvoids(sep, parts[1..], c);
    }
  }

  /** `preprocess_code`: comments removed, lines stripped, blank lines dropped, joined by '\n'. */
  function PreprocessCode(raw: string): string
  {
    Join("\n", NonBlankStripped(SplitLines(RemoveComments(raw))))
  }

  /**
   * Cleaned code holds no '#', and its lines are exactly the non-blank
   * stripped lines of the comment-free text, none of them blank or padded.
   */
  lemma PreprocessCodeShape(raw: string)
    ensures Avoids(PreprocessCode(raw), '#')
    ensures SplitLines(PreprocessCode(raw)) == NonBlankStripped(SplitLines(RemoveComments(raw)))
    ensures forall l :: l in SplitLines(PreprocessCode(raw)) ==> l != [] && Stripped(l)
  {
    var lines := SplitLines(RemoveComments(raw));
    SplitLinesAvoid(RemoveComments(raw), '#');
    assert forall i :: 0 <= i < |lines| ==> CleanLine(lines[i]);
    var parts := NonBlankStripped(lines);
    NonBlankStrippedClean(lines);
    assert forall i :: 0 <= i < |parts| ==> Avoids(parts[i], '#');
    JoinAvoids("\n", parts, '#');
    SplitLinesOfJoin(parts);
  }

  /** Cleaning cleaned code changes nothing. */
  lemma PreprocessCodeIdempotent(raw: string)
    ensures PreprocessCode(PreprocessCode(raw)) == PreprocessCode(raw)
  {
    var r := PreprocessCode(raw);
    PreprocessCodeShape(raw);
    var parts := NonBlankStripped(SplitLines(RemoveComments(raw)));
    assert RemoveComments(r) == r;
    NonBlankStrippedFixed(parts);
  }

  /**
   * Splitting '\n'-joined lines again may lose a final empty line, but never
   * a non-blank one: the non-blank stripped lines come back unchanged.
   */
  lemma {:induction false} SplitJoinNonBlank(parts: seq<string>)
    requires forall i, k :: 0 <= i < |parts| && 0 <= k < |parts[i]| ==> !IsLineBreak(parts[i][k])
    ensures NonBlankStripped(SplitLines(Join("\n", parts))) == NonBlankStripped(parts)
    decreases |parts|
  {
    if |parts| == 1 {
      var p := parts[0];
      if p != [] {
        assert BreakAt(p, 0) == |p|;
      }
      assert parts == [p];
    } else if |parts| > 1 {
      var p := parts[0];
      var s := Join("\n", parts);
      var rest := Join("\n", parts[1..]);
      assert s == p + "\n" + rest;
      BreakPrefix(s, p);
      assert s[|p| + 1..] == rest;
      assert s[..|p|] == p;
      assert SplitLines(s) == [p] + SplitLines(rest);
      SplitJoinNonBlank(parts[1..]);
      NonBlankStrippedAppend([p], SplitLines(rest));
      NonBlankStrippedAppend([p], parts[1..]);
      assert [p] + parts[1..] == parts;
    }
  }

  /**
   * `preprocess_code` on text made of '\n'-separated lines: the result is
   * the code part of every line, stripped, with the blank ones dropped,
   * joined by '\n'.
   */
  lemma PreprocessCodeLines(lines: seq<string>)
    requires forall i, k :: 0 <= i < |lines| && 0 <= k < |lines[i]| ==> !IsLineBreak(lines[i][k])
    ensures PreprocessCode(Join("\n", lines)) == Join("\n", NonBlankStripped(CodeParts(lines)))
  {
    assert forall i :: 0 <= i < |lines| ==> Avoids(lines[i], '\n');
    RemoveCommentsLines(lines);
    var parts := CodeParts(lines);
    forall i, k | 0 <= i < |parts| && 0 <= k < |parts[i]|
      ensures !IsLineBreak(parts[i][k])
    {
      assert parts[i][k] == lines[i][k];
    }
    SplitJoinNonBlank(parts);
  }

  /** `re.sub(r"\s+", " ", s)`: every whitespace run becomes one space. */
  function CollapseWhitespace(s: string): (r: string)
    ensures s != [] ==> r != [] && r[0] == (if IsSpace(s[0]) then ' ' else s[0])
    ensures Normalized(r)
    decreases |s|
  {
    if s == [] then []
    else if IsSpace(s[0]) then [' '] + CollapseWhitespace(s[SpaceRunEnd(s, 0)..])
    else [s[0]] + CollapseWhitespace(s[1..])
  }

  /** End of the maximal whitespace run starting at `from`. */
  function SpaceRunEnd(s: string, from: nat): (e: nat)
    requires from <= |s|
    ensures from <= e <= |s|
    ensures forall k :: from <= k < e ==> IsSpace(s[k])
    ensures e < |s| ==> !IsSpace(s[e])
    decreases |s| - from
  {
    if from < |s| && IsSpace(s[from]) then SpaceRunEnd(s, from + 1) else from
  }

  /** A whitespace run that stops before the end of `s` stops at the same place in `s + t`. */
  lemma SpaceRunEndExtend(s: string, t: string, from: nat)
    requires from <= |s| && SpaceRunEnd(s, from) < |s|
    ensures SpaceRunEnd(s + t, from) == SpaceRunEnd(s, from)
  {
    var e := SpaceRunEnd(s, from);
    assert forall k :: from <= k <= e ==> (s + t)[k] == s[k];
  }

  /** Text that ends in a non-whitespace character is normalised apart from what follows it. */
  lemma {:induction false} CollapseAppend(a: string, t: string)
    requires a == [] || !IsSpace(a[|a| - 1])
    ensures CollapseWhitespace(a + t) == CollapseWhitespace(a) + CollapseWhitespace(t)
    decreases |a|
  {
    if a == [] {
      assert a + t == t;
    } else if !IsSpace(a[0]) {
      CollapseAppend(a[1..], t);
      CollapseRunVisibleStep(a, t, CollapseWhitespace(a[1..]), CollapseWhitespace(t));
    } else {
      var e := SpaceRunEnd(a, 0);
      CollapseSkipRun(a, t);
      CollapseAppend(a[e..], t);
      CollapseRunSpaceStep(a, t, CollapseWhitespace(a[e..]), CollapseWhitespace(t));
    }
  }

  /**
   * A non-empty whitespace run between two non-whitespace characters (or an
   * end of the text) becomes exactly one ' ', and the two sides are
   * normalised on their own.
   */
  lemma CollapseRun(a: string, w: string, b: string)
    requires w != [] && forall k :: 0 <= k < |w| ==> IsSpace(w[k])
    requires a == [] || !IsSpace(a[|a| - 1])
    requires b == [] || !IsSpace(b[0])
    ensures CollapseWhitespace(a + w + b) == CollapseWhitespace(a) + " " + CollapseWhitespace(b)
  {
    AppendAssoc(a, w, b);
    CollapseAppend(a, w + b);
    CollapseLeadingRun(w, b);
    AppendAssoc(CollapseWhitespace(a), " ", CollapseWhitespace(b));
  }

  lemma AppendAssoc(x: string, y: string, z: string)
    ensures x + y + z == x + (y + z)
  {
  }

  /** A leading whitespace run is one ' ' in front of the rest. */
  lemma CollapseRunSpaceStep(a: string, t: string, x: string, y: string)
    requires a != [] && IsSpace(a[0]) && !IsSpace(a[|a| - 1])
    requires SpaceRunEnd(a, 0) < |a|
    requires CollapseWhitespace(a + t) == " " + CollapseWhitespace(a[SpaceRunEnd(a, 0)..] + t)
    requires CollapseWhitespace(a) == " " + CollapseWhitespace(a[SpaceRunEnd(a, 0)..])
    requires CollapseWhitespace(a[SpaceRunEnd(a, 0)..]) == x
    requires CollapseWhitespace(a[SpaceRunEnd(a, 0)..] + t) == x + y
    ensures CollapseWhitespace(a + t) == CollapseWhitespace(a) + y
  {
    assert " " + (x + y) == " " + x + y;
  }

  /** A leading non-whitespace character is copied in front of the rest. */
  lemma CollapseRunVisibleStep(a: string, t: string, x: string, y: string)
    requires a != [] && !IsSpace(a[0])
    requires CollapseWhitespace(a[1..]) == x
    requires CollapseWhitespace(a[1..] + t) == x + y
    ensures CollapseWhitespace(a + t) == CollapseWhitespace(a) + y
  {
    assert (a + t)[0] == a[0];
    assert (a + t)[1..] == a[1..] + t;
    assert [a[0]] + (x + y) == [a[0]] + x + y;
  }

  lemma CollapseLeadingRun(w: string, b: string)
    requires w != [] && forall k :: 0 <= k < |w| ==> IsSpace(w[k])
    requires b == [] || !IsSpace(b[0])
    ensures CollapseWhitespace(w + b) == " " + CollapseWhitespace(b)
  {
    var s := w + b;
    var e := SpaceRunEnd(s, 0);
    assert forall k :: 0 <= k < |w| ==> s[k] == w[k];
    assert |w| < |s| ==> s[|w|] == b[0];
    assert e == |w|;
    assert s[e..] == b;
  }

  /** A leading whitespace run that ends inside `a` is collapsed the same way in `a + t`. */
  lemma CollapseSkipRun(a: string, t: string)
    requires a != [] && IsSpace(a[0]) && !IsSpace(a[|a| - 1])
    ensures SpaceRunEnd(a, 0) < |a|
    ensures CollapseWhitespace(a + t) == " " + CollapseWhitespace(a[SpaceRunEnd(a, 0)..] + t)
    ensures CollapseWhitespace(a) == " " + CollapseWhitespace(a[SpaceRunEnd(a, 0)..])
  {
    var e := SpaceRunEnd(a, 0);
    SpaceRunEndExtend(a, t, 0);
    assert (a + t)[e..] == a[e..] + t;
  }

  /** The result ends in ' ' exactly when the text ends in whitespace. */
  lemma {:induction false} CollapseEnds(s: string)
    requires s != []
    ensures CollapseWhitespace(s) != []
    ensures CollapseWhitespace(s)[|CollapseWhitespace(s)| - 1] == ' ' <==> IsSpace(s[|s| - 1])
    decreases |s|
  {
    var r := CollapseWhitespace(s);
    if IsSpace(s[0]) {
      var e := SpaceRunEnd(s, 0);
      if e < |s| {
        CollapseEnds(s[e..]);
        assert r == [' '] + CollapseWhitespace(s[e..]);
      }
    } else if |s| > 1 {
      CollapseEnds(s[1..]);
      assert r == [s[0]] + CollapseWhitespace(s[1..]);
    }
  }

  /** Text without whitespace is left unchanged. */
  lemma {:induction false} CollapseNoSpace(s: string)
    requires forall k :: 0 <= k < |s| ==> !IsSpace(s[k])
    ensures CollapseWhitespace(s) == s
    decreases |s|
  {
    if s != [] {
      CollapseNoSpace(s[1..]);
    }
  }

  /** The only whitespace is ' ', and no two spaces are adjacent. */
  predicate Normalized(s: string)
  {
    (forall k :: 0 <= k < |s| && IsSpace(s[k]) ==> s[k] == ' ')
    && (forall k :: 0 <= k < |s| - 1 ==> !(IsSpace(s[k]) && IsSpace(s[k + 1])))
  }

  /** `preprocess_documentation`. */
  function PreprocessDocumentation(raw: string): string
  {
    CollapseWhitespace(raw)
  }

  /** The non-whitespace characters of `s`, in order. */
  function Visible(s: string): string
  {
    if s == [] then [] else (if IsSpace(s[0]) then [] else [s[0]]) + Visible(s[1..])
  }

  lemma {:induction false} VisibleOfSpaces(s: string, e: nat)
    requires e <= |s|
    requires forall k :: 0 <= k < e ==> IsSpace(s[k])
    ensures Visible(s) == Visible(s[e..])
    decreases e
  {
    if e > 0 {
      VisibleOfSpaces(s[1..], e - 1);
      assert s[1..][e - 1..] == s[e..];
    }
  }

  /** Normalising whitespace keeps every other character, in order. */
  lemma {:induction false} CollapseKeepsVisible(s: string)
    ensures Visible(PreprocessDocumentation(s)) == Visible(s)
    decreases |s|
  {
    if s != [] {
      var r := CollapseWhitespace(s);
      if IsSpace(s[0]) {
        var e := SpaceRunEnd(s, 0);
        CollapseKeepsVisible(s[e..]);
        assert r[1..] == CollapseWhitespace(s[e..]);
        VisibleOfSpaces(s, e);
      } else {
        CollapseKeepsVisible(s[1..]);
        assert r[1..] == CollapseWhitespace(s[1..]);
      }
    }
  }

  /** Normalised text is left unchanged. */
  lemma {:induction false} CollapseFixed(s: string)
    requires Normalized(s)
    ensures CollapseWhitespace(s) == s
    decreases |s|
  {
    if s != [] {
      if IsSpace(s[0]) {
        assert s[0] == ' ';
        assert |s| > 1 ==> !IsSpace(s[1]);
        assert SpaceRunEnd(s, 0) == 1;
        CollapseFixed(s[1..]);
      } else {
        CollapseFixed(s[1..]);
      }
    }
  }

  lemma PreprocessDocumentationIdempotent(raw: string)
    ensures PreprocessDocumentation(PreprocessDocumentation(raw)) == PreprocessDocumentation(raw)
  {
    CollapseFixed(CollapseWhitespace(raw));
  }

  lemma HeadingStrip(l: string)
    requires StartsWith(l, "#")
    ensures StartsWith(Strip(l), "#") && Stripped(Strip(l))
  {
    StripIsStripped(l);
    assert l[0] == l[..1][0] == '#';
    assert !IsSpace(l[0]);
    assert TrimLeft(l) == l;
    var r := TrimRight(l);
    assert |r| > 0 && r[0] == l[0];
    assert r[..1] == "#";
  }

  /** `extract_sections` on the lines: each line starting with '#', stripped. */
  function HeadingLines(lines: seq<string>): (r: seq<string>)
    ensures |r| <= |lines|
    ensures forall i :: 0 <= i < |r| ==> StartsWith(r[i], "#") && Stripped(r[i])
  {
    if lines == [] then []
    else
      var rest := HeadingLines(lines[1..]);
      if StartsWith(lines[0], "#") then
        HeadingStrip(lines[0]);
        HeadingCons(Strip(lines[0]), rest);
        [Strip(lines[0])] + rest
      else rest
  }

  lemma {:induction false} HeadingLinesIsPick(lines: seq<string>)
    ensures HeadingLines(lines) == Pick(l => StartsWith(l, "#"), Strip, lines)
    decreases |lines|
  {
    if lines != [] {
      HeadingLinesIsPick(lines[1..]);
    }
  }

  /** Heading lines are picked line by line, in order. */
  lemma HeadingLinesAppend(xs: seq<string>, ys: seq<string>)
    ensures HeadingLines(xs + ys) == HeadingLines(xs) + HeadingLines(ys)
  {
    HeadingLinesIsPick(xs + ys);
    HeadingLinesIsPick(xs);
    HeadingLinesIsPick(ys);
    PickAppend(l => StartsWith(l, "#"), Strip, xs, ys);
  }

  /** One line gives its stripped self exactly when it starts with '#'. */
  lemma HeadingLinesOne(l: string)
    ensures HeadingLines([l]) == if StartsWith(l, "#") then [Strip(l)] else []
  {
    assert [l][1..] == [];
  }

  /** The headings are exactly the stripped lines that start with '#'. */
  lemma HeadingLinesMembers(lines: seq<string>, x: string)
    ensures x in HeadingLines(lines) <==> exists i :: 0 <= i < |lines| && StartsWith(lines[i], "#") && Strip(lines[i]) == x
  {
    HeadingLinesIsPick(lines);
    PickMembers(l => StartsWith(l, "#"), Strip, lines, x);
  }

  lemma HeadingCons(h: string, rest: seq<string>)
    requires StartsWith(h, "#") && Stripped(h)
    requires forall i :: 0 <= i < |rest| ==> StartsWith(rest[i], "#") && Stripped(rest[i])
    ensures forall i :: 0 <= i < |[h] + rest| ==> StartsWith(([h] + rest)[i], "#") && Stripped(([h] + rest)[i])
  {
    forall i | 0 <= i < |[h] + rest|
      ensures StartsWith(([h] + rest)[i], "#") && Stripped(([h] + rest)[i])
    {
      if i > 0 {
        assert ([h] + rest)[i] == rest[i - 1];
      }
    }
  }

  function ExtractSections(raw: string): seq<string>
  {
    HeadingLines(SplitLines(raw))
  }

  /** The docstring `ast.get_docstring` gives a node, if it is a non-empty one of a def or class. */
  function DocOf(n: Node): seq<string>
  {
    match n
    case FunctionDef(_, _, Some(d), _, _, _, _) => if d != [] then [d] else []
    case ClassDef(_, _, Some(d), _, _, _, _) => if d != [] then [d] else []
    case _ => []
  }

  /** The docstrings collected from a prefix of a walk. */
  function Docstrings(walk: seq<Node>): (ds: seq<string>)
    ensures forall i :: 0 <= i < |ds| ==> ds[i] != []
  {
    if walk == [] then [] else Docstrings(walk[..|walk| - 1]) + DocOf(walk[|walk| - 1])
  }

  lemma DocstringsNext(walk: seq<Node>, i: nat)
    requires i < |walk|
    ensures Docstrings(walk[..i + 1]) == Docstrings(walk[..i]) + DocOf(walk[i])
  {
    assert walk[..i + 1][..i] == walk[..i];
  }

  /** The docstrings `extract_docstrings` returns: none if the text does not parse. */
  function DocstringsOf(raw: string, parse: string -> Option<Node>): seq<string>
  {
    match parse(raw)
    case None => []
    case Some(tree) => Docstrings(Walk(tree))
  }

  /**
   * `extract_docstrings`: the non-empty docstrings of every `def` and `class`
   * in walk order; a text that does not parse gives none.
   */
  method ExtractDocstrings(raw: string, parse: string -> Option<Node>) returns (docstrings: seq<string>)
    ensures docstrings == DocstringsOf(raw, parse)
  {
    docstrings := [];
    var tree := parse(raw);
    if tree.None? {
      return;
    }
    var walk := Walk(tree.value);
    for i := 0 to |walk|
      invariant docstrings == Docstrings(walk[..i])
    {
      DocstringsNext(walk, i);
      var node := walk[i];
      if (node.FunctionDef? || node.ClassDef?) && node.docstring.Some? && node.docstring.value != [] {
        assert DocOf(node) == [node.docstring.value];
        docstrings := docstrings + [node.docstring.value];
      } else {
        assert DocOf(node) == [];
      }
    }
    assert walk[..|walk|] == walk;
  }
}
