/**
 * `parse_doc_file`: read a Markdown file and collect its headings, the API
 * references found in inline code spans and in links, and a copy of the text
 * with blank-line runs collapsed.
 *
 * Each regular expression is modelled by a function that says whether, and
 * how, the pattern matches at one position, following Python's backtracking
 * for that pattern; `re.finditer` tries positions from left to right and
 * resumes after each match.
 */
module DocParser {
  import opened Common
  import opened DataModels
  import Preprocess

  // ---- scanning helpers ----

  /** End of the run of characters satisfying `f` that starts at `from`. */
  function RunEnd(s: string, from: nat, f: char -> bool): (e: nat)
    requires from <= |s|
    ensures from <= e <= |s|
    ensures forall k :: from <= k < e ==> f(s[k])
    ensures e < |s| ==> !f(s[e])
    decreases |s| - from
  {
    if from < |s| && f(s[from]) then RunEnd(s, from + 1, f) else from
  }

  /** The largest index in [lo, hi) whose character satisfies `f`. */
  function LastWhere(s: string, lo: nat, hi: nat, f: char -> bool): (r: Option<nat>)
    requires lo <= hi <= |s|
    ensures r.Some? ==> lo <= r.value < hi && f(s[r.value]) && forall k :: r.value < k < hi ==> !f(s[k])
    ensures r.None? ==> forall k :: lo <= k < hi ==> !f(s[k])
    decreases hi - lo
  {
    if lo == hi then None else if f(s[hi - 1]) then Some(hi - 1) else LastWhere(s, lo, hi - 1, f)
  }

  predicate IsHash(c: char) { c == '#' }
  predicate IsNewline(c: char) { c == '\n' }
  predicate NotNewline(c: char) { c != '\n' }
  predicate IsDot(c: char) { c == '.' }
  predicate NotCloseBracket(c: char) { c != ']' }
  predicate NotCloseParen(c: char) { c != ')' }

  /** `[a-zA-Z0-9_.]` */
  predicate IsRefChar(c: char) { IsWordChar(c) || c == '.' }

  /** Where `^` matches in multi-line mode. */
  predicate LineStart(s: string, p: nat)
  {
    p == 0 || (p <= |s| && s[p - 1] == '\n')
  }

  // ---- headings: ^(#{1,6})\s+(.+?)$ ----

  /**
   * A match of `^(#{1,6})\s+(.+?)$` at `p`: group 2 and where the match ends.
   * The hash run must be 1 to 6 long and followed by whitespace. `\s+` may
   * cross line breaks; when it reaches the end of the text, the engine backs
   * off to its last non-'\n' character, which then forms the title.
   */
  function HeadingAt(s: string, p: nat): (m: Option<(string, nat)>)
    requires p <= |s|
    ensures m.Some? ==> p < m.value.1 <= |s| && Avoids(m.value.0, '\n') && m.value.0 != []
  {
    if !LineStart(s, p) then None
    else
      var h := RunEnd(s, p, IsHash) - p;
      if h < 1 || h > 6 || p + h == |s| || !IsSpace(s[p + h]) then None
      else
        var q := RunEnd(s, p + h, IsSpace);
        if q < |s| then
          var e := LineEnd(s, q);
          Some((s[q..e], e))
        else
          match LastWhere(s, p + h + 1, q, NotNewline)
          case None => None
          case Some(k) => Some((s[k..k + 1], k + 1))
  }

  /** The stripped titles `finditer` finds from `p` on. */
  function HeadingsFrom(s: string, p: nat): seq<string>
    requires p <= |s|
    decreases |s| - p
  {
    if p == |s| then []
    else
      match HeadingAt(s, p)
      case Some((title, e)) => [Strip(title)] + HeadingsFrom(s, e)
      case None => HeadingsFrom(s, p + 1)
  }

  /** A section title: stripped, and on one line. */
  predicate TitleShaped(t: string)
  {
    Stripped(t) && Avoids(t, '\n')
  }

  lemma HeadingsStep(s: string, p: nat)
    requires p < |s|
    ensures HeadingAt(s, p).Some? ==>
              HeadingsFrom(s, p) == [Strip(HeadingAt(s, p).value.0)] + HeadingsFrom(s, HeadingAt(s, p).value.1)
    ensures HeadingAt(s, p).None? ==> HeadingsFrom(s, p) == HeadingsFrom(s, p + 1)
  {
  }

  /** Every section title is stripped and lies on one line. */
  lemma {:induction false} HeadingsStripped(s: string, p: nat)
    requires p <= |s|
    ensures forall i :: 0 <= i < |HeadingsFrom(s, p)| ==> TitleShaped(HeadingsFrom(s, p)[i])
    decreases |s| - p
  {
    if p < |s| {
      HeadingsStep(s, p);
      var m := HeadingAt(s, p);
      if m.Some? {
        HeadingsStripped(s, m.value.1);
        TitleOfHeading(m.value.0, HeadingsFrom(s, m.value.1));
      } else {
        HeadingsStripped(s, p + 1);
      }
    }
  }

  lemma TitleOfHeading(title: string, rest: seq<string>)
    requires Avoids(title, '\n')
    requires forall i :: 0 <= i < |rest| ==> TitleShaped(rest[i])
    ensures forall i :: 0 <= i < |[Strip(title)] + rest| ==> TitleShaped(([Strip(title)] + rest)[i])
  {
    StripIsStripped(title);
    StripAvoids(title, '\n');
  }

  lemma StripAvoids(s: string, c: char)
    requires Avoids(s, c)
    ensures Avoids(Strip(s), c)
  {
    var a, b := Preprocess.StripSlice(s);
  }

  /** A line of seven or more '#' is never a heading. */
  lemma SevenHashesNoHeading(s: string, p: nat)
    requires p + 7 <= |s| && forall k :: p <= k < p + 7 ==> s[k] == '#'
    ensures HeadingAt(s, p).None?
  {
    RunEndPast(s, p, p + 7, IsHash);
  }

  /**
   * A line made of 1 to 6 '#', a space or tab, and a title whose first
   * character is not whitespace gives that title, up to the end of the line.
   */
  lemma HeadingLine(s: string, p: nat, h: nat)
    requires LineStart(s, p) && 1 <= h <= 6 && p + h + 1 < |s|
    requires forall k :: p <= k < p + h ==> s[k] == '#'
    requires s[p + h] == ' ' || s[p + h] == '\t'
    requires !IsSpace(s[p + h + 1])
    ensures HeadingAt(s, p) == Some((s[p + h + 1..LineEnd(s, p + h + 1)], LineEnd(s, p + h + 1)))
  {
    assert RunEnd(s, p, IsHash) == p + h by {
      RunEndAt(s, p, p + h, IsHash);
    }
    assert RunEnd(s, p + h, IsSpace) == p + h + 1 by {
      RunEndAt(s, p + h, p + h + 1, IsSpace);
    }
  }

  /** A run of `f` characters over [from, to) ends no earlier than `to`. */
  lemma {:induction false} RunEndPast(s: string, from: nat, to: nat, f: char -> bool)
    requires from <= to <= |s| && forall k :: from <= k < to ==> f(s[k])
    ensures RunEnd(s, from, f) >= to
    decreases |s| - from
  {
    if from < to {
      RunEndPast(s, from + 1, to, f);
    }
  }

  lemma RunEndAt(s: string, from: nat, e: nat, f: char -> bool)
    requires from <= e < |s| && !f(s[e]) && forall k :: from <= k < e ==> f(s[k])
    ensures RunEnd(s, from, f) == e
  {
  }

  // ---- inline code: `([a-zA-Z0-9_.]+\.[a-zA-Z0-9_]+)` ----

  /**
   * An inline reference at `p`: a backtick, a maximal run of `[a-zA-Z0-9_.]`
   * closed by a backtick, whose last '.' has at least one character before it
   * and at least one after it.
   */
  function InlineAt(s: string, p: nat): (m: Option<(string, nat)>)
    requires p <= |s|
    ensures m.Some? ==> p < m.value.1 <= |s| && InlineRef(m.value.0)
  {
    if p == |s| || s[p] != '`' then None
    else
      var e := RunEnd(s, p + 1, IsRefChar);
      if e == |s| || s[e] != '`' then None
      else
        var r := s[p + 1..e];
        match LastWhere(r, 0, |r|, IsDot)
        case Some(d) => if 1 <= d < |r| - 1 then Some((r, e + 1)) else None
        case None => None
  }

  /** What a reference taken from inline code looks like: dotted, with a dot-free, non-empty last part. */
  predicate InlineRef(r: string)
  {
    (forall k :: 0 <= k < |r| ==> IsRefChar(r[k]))
    && exists d :: 1 <= d < |r| - 1 && r[d] == '.' && forall k :: d < k < |r| ==> IsWordChar(r[k])
  }

  function InlineRefsFrom(s: string, p: nat): (rs: seq<string>)
    requires p <= |s|
    ensures forall i :: 0 <= i < |rs| ==> InlineRef(rs[i])
    decreases |s| - p
  {
    if p == |s| then []
    else
      match InlineAt(s, p)
      case Some((r, e)) => [r] + InlineRefsFrom(s, e)
      case None => InlineRefsFrom(s, p + 1)
  }

  /** A backtick-quoted reference is matched where its opening backtick stands. */
  lemma InlineAtQuoted(s: string, p: nat, r: string)
    requires p + |r| + 1 < |s| && s[p] == '`' && s[p + |r| + 1] == '`'
    requires s[p + 1..p + |r| + 1] == r && InlineRef(r)
    ensures InlineAt(s, p) == Some((r, p + |r| + 2))
  {
    var e := p + |r| + 1;
    forall k | p + 1 <= k < e
      ensures IsRefChar(s[k])
    {
      assert s[k] == r[k - p - 1];
    }
    RunEndAt(s, p + 1, e, IsRefChar);
    var d :| 1 <= d < |r| - 1 && r[d] == '.' && forall k :: d < k < |r| ==> IsWordChar(r[k]);
    var last := LastWhere(r, 0, |r|, IsDot);
    assert last.Some? && last.value >= d;
    assert !IsDot(r[last.value]) || last.value <= d;
  }

  /** Positions where no reference starts are passed over one by one. */
  lemma {:induction false} InlineRefsSkip(s: string, p: nat, q: nat)
    requires p <= q <= |s|
    requires forall j :: p <= j < q ==> InlineAt(s, j).None?
    ensures InlineRefsFrom(s, p) == InlineRefsFrom(s, q)
    decreases q - p
  {
    if p < q {
      InlineRefsSkip(s, p + 1, q);
      InlineRefsPass(s, p);
    }
  }

  /** A position where no reference starts is passed over. */
  lemma InlineRefsPass(s: string, p: nat)
    requires p < |s| && InlineAt(s, p).None?
    ensures InlineRefsFrom(s, p) == InlineRefsFrom(s, p + 1)
  {
  }

  /**
   * `re.finditer` finds the first reference at or after `p`, then resumes
   * after its closing backtick.
   */
  lemma InlineRefsFirst(s: string, p: nat, q: nat)
    requires p <= q < |s| && InlineAt(s, q).Some?
    requires forall j :: p <= j < q ==> InlineAt(s, j).None?
    ensures InlineRefsFrom(s, p) == [InlineAt(s, q).value.0] + InlineRefsFrom(s, InlineAt(s, q).value.1)
  {
    InlineRefsSkip(s, p, q);
  }

  /**
   * In a text `a + "`" + r + "`" + b` where `a` has no backtick, the quoted
   * reference `r` is the first one found, and the scan goes on in `b`.
   */
  lemma InlineRefQuotedFirst(a: string, r: string, b: string)
    requires Avoids(a, '`') && InlineRef(r)
    ensures var s := a + "`" + r + "`" + b;
      InlineRefsFrom(s, 0) == [r] + InlineRefsFrom(s, |a| + |r| + 2)
  {
    QuotedLayout(a, r, b);
    var s := a + "`" + r + "`" + b;
    forall j | 0 <= j < |a|
      ensures s[j] != '`'
    {
      assert s[j] == s[..|a|][j];
    }
    InlineRefAfterPlain(s, |a|, r);
  }

  /** The same, stated over positions: no backtick before `q`, and `r` quoted at `q`. */
  lemma InlineRefAfterPlain(s: string, q: nat, r: string)
    requires q + |r| + 1 < |s| && s[q] == '`' && s[q + |r| + 1] == '`'
    requires s[q + 1..q + |r| + 1] == r && InlineRef(r)
    requires forall j :: 0 <= j < q ==> s[j] != '`'
    ensures InlineRefsFrom(s, 0) == [r] + InlineRefsFrom(s, q + |r| + 2)
  {
    forall j | 0 <= j < q
      ensures InlineAt(s, j).None?
    {
      assert s[j] != '`';
    }
    InlineAtQuoted(s, q, r);
    InlineRefsFirst(s, 0, q);
  }

  lemma QuotedLayout(a: string, r: string, b: string)
    ensures var s := a + "`" + r + "`" + b;
      |s| == |a| + |r| + 2 + |b| && s[..|a|] == a && s[|a|] == '`' && s[|a| + 1..|a| + |r| + 1] == r
      && s[|a| + |r| + 1] == '`'
  {
  }

  // ---- links: \[([^\]]+)\]\(([^)]+)\) ----

  /**
   * `[text](url)` stands at `p`: the text is non-empty and holds no ']', the
   * url is non-empty and holds no ')'.
   */
  predicate LinkLaidOut(s: string, p: nat, text: string, url: string)
  {
    text != [] && url != [] && Avoids(text, ']') && Avoids(url, ')')
    && p + |text| + |url| + 4 <= |s|
    && s[p] == '[' && s[p + 1..p + 1 + |text|] == text && s[p + 1 + |text|] == ']'
    && s[p + 2 + |text|] == '(' && s[p + 3 + |text|..p + 3 + |text| + |url|] == url
    && s[p + 3 + |text| + |url|] == ')'
  }

  /** A link at `p`: its text, its url and where the match ends. Both parts are non-empty. */
  function LinkAt(s: string, p: nat): (m: Option<(string, string, nat)>)
    requires p <= |s|
    ensures m.Some? ==> p < m.value.2 <= |s| && m.value.0 != [] && m.value.1 != []
    ensures m.Some? ==> Avoids(m.value.0, ']') && Avoids(m.value.1, ')')
  {
    if p == |s| || s[p] != '[' then None
    else
      var t := RunEnd(s, p + 1, NotCloseBracket);
      if t == p + 1 || t + 1 >= |s| || s[t + 1] != '(' then None
      else
        var u := RunEnd(s, t + 2, NotCloseParen);
        if u == t + 2 || u == |s| then None
        else Some((s[p + 1..t], s[t + 2..u], u + 1))
  }

  /** Links whose url mentions "api" or "doc" in any letter case. */
  predicate ApiUrl(url: string)
  {
    Contains(Lower(url), "api") || Contains(Lower(url), "doc")
  }

  function LinkRef(text: string, url: string): string
  {
    text + " (" + url + ")"
  }

  function LinkRefsFrom(s: string, p: nat): seq<string>
    requires p <= |s|
    decreases |s| - p
  {
    if p == |s| then []
    else
      match LinkAt(s, p)
      case Some((text, url, e)) =>
        (if ApiUrl(url) then [LinkRef(text, url)] else []) + LinkRefsFrom(s, e)
      case None => LinkRefsFrom(s, p + 1)
  }

  /**
   * A link is kept, as "text (url)", exactly when its url mentions "api" or
   * "doc"; scanning resumes after it. Where no link starts, scanning moves on
   * by one character.
   */
  lemma LinkRefsStep(s: string, p: nat)
    requires p < |s|
    ensures LinkAt(s, p).Some? ==>
      var (text, url, e) := LinkAt(s, p).value;
      LinkRefsFrom(s, p) == (if ApiUrl(url) then [LinkRef(text, url)] else []) + LinkRefsFrom(s, e)
    ensures LinkAt(s, p).None? ==> LinkRefsFrom(s, p) == LinkRefsFrom(s, p + 1)
  {
  }

  /** Every well-formed `[text](url)` is matched where its '[' stands. */
  lemma LinkAtWellFormed(s: string, p: nat, text: string, url: string)
    requires LinkLaidOut(s, p, text, url)
    ensures LinkAt(s, p) == Some((text, url, p + |text| + |url| + 4))
  {
    var t := p + 1 + |text|;
    forall k | p + 1 <= k < t
      ensures NotCloseBracket(s[k])
    {
      assert s[k] == s[p + 1..t][k - p - 1];
    }
    RunEndAt(s, p + 1, t, NotCloseBracket);
    var u := t + 2 + |url|;
    forall k | t + 2 <= k < u
      ensures NotCloseParen(s[k])
    {
      assert s[k] == s[t + 2..u][k - t - 2];
    }
    RunEndAt(s, t + 2, u, NotCloseParen);
  }

  /** Conversely, a match is a well-formed `[text](url)` and ends right after its ')'. */
  lemma LinkAtLaidOut(s: string, p: nat)
    requires p <= |s| && LinkAt(s, p).Some?
    ensures LinkLaidOut(s, p, LinkAt(s, p).value.0, LinkAt(s, p).value.1)
    ensures LinkAt(s, p).value.2 == p + |LinkAt(s, p).value.0| + |LinkAt(s, p).value.1| + 4
  {
  }

  /** Text without '[' holds no link, so the scan passes over it one character at a time. */
  lemma {:induction false} LinkRefsSkip(s: string, p: nat, q: nat)
    requires p <= q <= |s|
    requires '[' !in s[p..q]
    ensures LinkRefsFrom(s, p) == LinkRefsFrom(s, q)
    decreases q - p
  {
    if p < q {
      assert s[p + 1..q] == s[p..q][1..];
      LinkRefsSkip(s, p + 1, q);
      assert s[p] == s[p..q][0];
      LinkRefsPass(s, p);
    }
  }

  /** One step of the scan, at a position where no link starts. */
  lemma LinkRefsPass(s: string, p: nat)
    requires p < |s| && s[p] != '['
    ensures LinkRefsFrom(s, p) == LinkRefsFrom(s, p + 1)
  {
    assert LinkAt(s, p).None?;
  }

  /**
   * With no '[' before `q` and a link at `q`, that link is the first one
   * met: it is kept exactly when its url mentions "api" or "doc", and the
   * scan resumes after its ')'.
   */
  lemma LinkRefAfterPlain(s: string, q: nat, text: string, url: string)
    requires LinkLaidOut(s, q, text, url)
    requires '[' !in s[..q]
    ensures LinkRefsFrom(s, 0)
            == (if ApiUrl(url) then [LinkRef(text, url)] else []) + LinkRefsFrom(s, q + |text| + |url| + 4)
  {
    LinkAtWellFormed(s, q, text, url);
    LinkRefsFirst(s, q, text, url, q + |text| + |url| + 4);
  }

  /** The scan from the start reaches the first match unchanged. */
  lemma LinkRefsFirst(s: string, q: nat, text: string, url: string, e: nat)
    requires q < |s| && '[' !in s[..q] && LinkAt(s, q) == Some((text, url, e))
    ensures LinkRefsFrom(s, 0) == (if ApiUrl(url) then [LinkRef(text, url)] else []) + LinkRefsFrom(s, e)
  {
    assert s[0..q] == s[..q];
    LinkRefsSkip(s, 0, q);
    LinkRefsTake(s, q, text, url, e);
  }

  /** One step of the scan, at a position where a link starts. */
  lemma LinkRefsTake(s: string, q: nat, text: string, url: string, e: nat)
    requires q < |s| && LinkAt(s, q) == Some((text, url, e))
    ensures LinkRefsFrom(s, q) == (if ApiUrl(url) then [LinkRef(text, url)] else []) + LinkRefsFrom(s, e)
  {
  }

  /** Every kept reference comes from a link in the text whose url mentions "api" or "doc". */
  lemma {:induction false} LinkRefsSound(s: string, p: nat, x: string)
    requires p <= |s| && x in LinkRefsFrom(s, p)
    ensures exists j :: p <= j < |s| && LinkAt(s, j).Some? && ApiUrl(LinkAt(s, j).value.1)
                        && x == LinkRef(LinkAt(s, j).value.0, LinkAt(s, j).value.1)
    decreases |s| - p
  {
    LinkRefsStep(s, p);
    match LinkAt(s, p)
    case Some((text, url, e)) =>
      if ApiUrl(url) && x == LinkRef(text, url) {
      } else {
        LinkRefsSound(s, e, x);
      }
    case None =>
      LinkRefsSound(s, p + 1, x);
  }

  /** `[x](api)` alone gives the single reference "x (api)". */
  lemma OneApiLink()
    ensures LinkRefsFrom("[x](api)", 0) == ["x (api)"]
  {
    var s := "[x](api)";
    assert LinkLaidOut(s, 0, "x", "api");
    LinkAtWellFormed(s, 0, "x", "api");
    LinkRefsTake(s, 0, "x", "api", 8);
    assert Lower("api") == "api";
    assert StartsWith(Lower("api"), "api");
    assert LinkRef("x", "api") == "x (api)";
  }

  // ---- sorted(set(...)) ----

  /** Python's `<` on `str`: lexicographic by code point. */
  predicate LexLess(a: string, b: string)
  {
    if a == [] then b != []
    else if b == [] then false
    else a[0] < b[0] || (a[0] == b[0] && LexLess(a[1..], b[1..]))
  }

  lemma {:induction false} LexLessTotal(a: string, b: string)
    ensures a == b || LexLess(a, b) || LexLess(b, a)
    ensures !(LexLess(a, b) && LexLess(b, a))
    ensures !LexLess(a, a)
    decreases |a|
  {
    if a != [] && b != [] {
      LexLessTotal(a[1..], b[1..]);
      if a[0] == b[0] && a[1..] == b[1..] {
        assert a == [a[0]] + a[1..] && b == [b[0]] + b[1..];
      }
    } else if a != [] {
      LexLessTotal(a[1..], a[1..]);
    }
  }

  lemma {:induction false} LexLessTransitive(a: string, b: string, c: string)
    requires LexLess(a, b) && LexLess(b, c)
    ensures LexLess(a, c)
    decreases |a|
  {
    if a != [] && a[0] == b[0] && b[0] == c[0] {
      LexLessTransitive(a[1..], b[1..], c[1..]);
    }
  }

  /** Each element is below the next. */
  predicate SortedStrict(xs: seq<string>)
  {
    forall i :: 0 <= i < |xs| - 1 ==> LexLess(xs[i], xs[i + 1])
  }

  /** `x` inserted into a strictly sorted list, unless it is already there. */
  function InsertSorted(x: string, xs: seq<string>): (r: seq<string>)
    requires SortedStrict(xs)
    ensures SortedStrict(r)
    ensures forall y :: y in r <==> y == x || y in xs
    ensures r != [] && (r[0] == x || (xs != [] && r[0] == xs[0]))
  {
    if xs == [] then [x]
    else if x == xs[0] then xs
    else if LexLess(x, xs[0]) then [x] + xs
    else
      LexLessTotal(x, xs[0]);
      var rest := InsertSorted(x, xs[1..]);
      assert rest[0] == x || rest[0] == xs[1];
      [xs[0]] + rest
  }

  /** `sorted(set(xs))`: strictly increasing, holding exactly the elements of `xs`. */
  function SortedUnique(xs: seq<string>): (r: seq<string>)
    ensures SortedStrict(r)
    ensures forall y :: y in r <==> y in xs
  {
    if xs == [] then [] else InsertSorted(xs[|xs| - 1], SortedUnique(xs[..|xs| - 1]))
  }

  /** Strictly sorted lists hold no element twice. */
  lemma {:induction false} SortedStrictDistinct(xs: seq<string>, i: nat, j: nat)
    requires SortedStrict(xs) && i < j < |xs|
    ensures LexLess(xs[i], xs[j]) && xs[i] != xs[j]
    decreases j - i
  {
    if j == i + 1 {
      LexLessTotal(xs[i], xs[i]);
    } else {
      SortedStrictDistinct(xs, i + 1, j);
      LexLessTransitive(xs[i], xs[i + 1], xs[j]);
      LexLessTotal(xs[i], xs[j]);
    }
  }

  // ---- cleaned content: re.sub(r'\n\s*\n', '\n\n', s) ----

  /**
   * From `p` on: a '\n' whose following whitespace run holds another '\n'
   * starts a match that ends at the last such '\n' and becomes "\n\n".
   */
  function CollapseBlankLinesFrom(s: string, p: nat): string
    requires p <= |s|
    decreases |s| - p
  {
    if p == |s| then []
    else if s[p] == '\n' then
      var q := RunEnd(s, p + 1, IsSpace);
      match LastWhere(s, p + 1, q, IsNewline)
      case Some(k) => "\n\n" + CollapseBlankLinesFrom(s, k + 1)
      case None => "\n" + CollapseBlankLinesFrom(s, p + 1)
    else [s[p]] + CollapseBlankLinesFrom(s, p + 1)
  }

  function CollapseBlankLines(s: string): string
  {
    CollapseBlankLinesFrom(s, 0)
  }

  predicate AllSpace(s: string, lo: nat, hi: nat)
    requires lo <= hi <= |s|
  {
    forall k :: lo <= k < hi ==> IsSpace(s[k])
  }

  /** No two line breaks with only whitespace between them. */
  predicate NoBlankLines(s: string)
  {
    forall i, j :: 0 <= i < j < |s| && s[i] == '\n' && s[j] == '\n' ==> !AllSpace(s, i + 1, j)
  }

  /** Text without blank lines is left as it is. */
  lemma {:induction false} NoBlankLinesUnchanged(s: string, p: nat)
    requires p <= |s| && NoBlankLines(s)
    ensures CollapseBlankLinesFrom(s, p) == s[p..]
    decreases |s| - p
  {
    if p < |s| {
      NoBlankLinesUnchanged(s, p + 1);
      if s[p] == '\n' {
        var q := RunEnd(s, p + 1, IsSpace);
        var k := LastWhere(s, p + 1, q, IsNewline);
        if k.Some? {
          assert AllSpace(s, p + 1, k.value);
          assert false;
        }
      }
      assert s[p..] == [s[p]] + s[p + 1..];
    }
  }

  /** A whitespace run ends where its tail's run ends. */
  lemma RunEndThrough(s: string, from: nat, mid: nat, f: char -> bool)
    requires from <= mid <= |s| && forall k :: from <= k < mid ==> f(s[k])
    ensures RunEnd(s, from, f) == RunEnd(s, mid, f)
  {
    RunEndPast(s, from, mid, f);
    var e := RunEnd(s, mid, f);
    var e' := RunEnd(s, from, f);
    assert forall k :: from <= k < e ==> f(s[k]);
    assert e < |s| ==> !f(s[e]);
  }

  /**
   * A blank-line run becomes exactly "\n\n": from a '\n', through whitespace,
   * to the last '\n' before the next non-whitespace character, the text is
   * replaced and the copy goes on after that last '\n'.
   */
  lemma CollapseBlankRun(s: string, p: nat, k: nat)
    requires p < k < |s| && s[p] == '\n' && s[k] == '\n'
    requires forall j :: p < j < k ==> IsSpace(s[j])
    requires forall j :: k < j < RunEnd(s, k + 1, IsSpace) ==> s[j] != '\n'
    ensures CollapseBlankLinesFrom(s, p) == "\n\n" + CollapseBlankLinesFrom(s, k + 1)
  {
    RunEndThrough(s, p + 1, k + 1, IsSpace);
    var q := RunEnd(s, p + 1, IsSpace);
    LastNewlineAt(s, p + 1, q, k);
    CollapsedRunUnfold(s, p, k);
  }

  /** The last '\n' of a range is one with no other '\n' after it in the range. */
  lemma LastNewlineAt(s: string, lo: nat, hi: nat, k: nat)
    requires lo <= k < hi <= |s| && s[k] == '\n'
    requires forall j :: k < j < hi ==> s[j] != '\n'
    ensures LastWhere(s, lo, hi, IsNewline) == Some(k)
  {
    var last := LastWhere(s, lo, hi, IsNewline);
    assert IsNewline(s[k]);
    assert last.Some? && last.value >= k;
  }

  /**
   * Any other character is copied: one that is not '\n', and a '\n' whose
   * following whitespace holds no other '\n'.
   */
  lemma CollapseBlankKeep(s: string, p: nat)
    requires p < |s|
    requires s[p] == '\n' ==> forall j :: p < j < RunEnd(s, p + 1, IsSpace) ==> s[j] != '\n'
    ensures CollapseBlankLinesFrom(s, p) == [s[p]] + CollapseBlankLinesFrom(s, p + 1)
  {
  }

  lemma VisibleAppend(a: string, b: string)
    ensures Preprocess.Visible(a + b) == Preprocess.Visible(a) + Preprocess.Visible(b)
  {
    if a != [] {
      assert (a + b)[1..] == a[1..] + b;
      VisibleAppend(a[1..], b);
    } else {
      assert a + b == b;
    }
  }

  lemma VisibleSplit(s: string, p: nat, k: nat)
    requires p <= k <= |s|
    ensures Preprocess.Visible(s[p..]) == Preprocess.Visible(s[p..k]) + Preprocess.Visible(s[k..])
  {
    assert s[p..] == s[p..k] + s[k..];
    VisibleAppend(s[p..k], s[k..]);
  }

  /** A replaced blank-line run is whitespace only, so it shows nothing. */
  lemma BlankRunInvisible(s: string, p: nat, k: nat)
    requires p < k < |s| && s[p] == '\n' && k < RunEnd(s, p + 1, IsSpace)
    ensures Preprocess.Visible(s[p..k + 1]) == []
  {
    var t := s[p..k + 1];
    forall i | 0 <= i < |t|
      ensures IsSpace(t[i])
    {
      assert t[i] == s[p + i];
    }
    Preprocess.VisibleOfSpaces(t, |t|);
  }

  /** Collapsing blank lines only touches whitespace: every other character stays, in order. */
  lemma {:induction false} CollapseBlankLinesKeepsVisible(s: string, p: nat)
    requires p <= |s|
    ensures Preprocess.Visible(CollapseBlankLinesFrom(s, p)) == Preprocess.Visible(s[p..])
    decreases |s| - p
  {
    if p < |s| {
      var run := if s[p] == '\n' then LastWhere(s, p + 1, RunEnd(s, p + 1, IsSpace), IsNewline) else None;
      if run.Some? {
        var k := run.value;
        CollapseBlankLinesKeepsVisible(s, k + 1);
        CollapsedRunVisible(s, p, k);
      } else {
        CollapseBlankLinesKeepsVisible(s, p + 1);
        KeptCharVisible(s, p);
      }
    }
  }

  /** A blank-line run replaced by "\n\n" shows what the rest of the text shows. */
  lemma CollapsedRunVisible(s: string, p: nat, k: nat)
    requires p < |s| && s[p] == '\n'
    requires LastWhere(s, p + 1, RunEnd(s, p + 1, IsSpace), IsNewline) == Some(k)
    requires Preprocess.Visible(CollapseBlankLinesFrom(s, k + 1)) == Preprocess.Visible(s[k + 1..])
    ensures Preprocess.Visible(CollapseBlankLinesFrom(s, p)) == Preprocess.Visible(s[p..])
  {
    CollapsedRunUnfold(s, p, k);
    VisibleAfterBreaks(CollapseBlankLinesFrom(s, k + 1));
    BlankRunSkipped(s, p, k);
  }

  lemma CollapsedRunUnfold(s: string, p: nat, k: nat)
    requires p < |s| && s[p] == '\n'
    requires LastWhere(s, p + 1, RunEnd(s, p + 1, IsSpace), IsNewline) == Some(k)
    ensures CollapseBlankLinesFrom(s, p) == "\n\n" + CollapseBlankLinesFrom(s, k + 1)
  {
  }

  lemma BlankRunSkipped(s: string, p: nat, k: nat)
    requires p < k < |s| && s[p] == '\n' && k < RunEnd(s, p + 1, IsSpace)
    ensures Preprocess.Visible(s[p..]) == Preprocess.Visible(s[k + 1..])
  {
    VisibleSplit(s, p, k + 1);
    BlankRunInvisible(s, p, k);
  }

  lemma VisibleAfterBreaks(x: string)
    ensures Preprocess.Visible("\n\n" + x) == Preprocess.Visible(x)
  {
    VisibleAppend("\n\n", x);
    assert "\n\n"[1..] == "\n" && "\n"[1..] == [];
  }

  /** A character copied as it is shows as it did. */
  lemma KeptCharVisible(s: string, p: nat)
    requires p < |s|
    requires s[p] == '\n' ==> LastWhere(s, p + 1, RunEnd(s, p + 1, IsSpace), IsNewline).None?
    requires Preprocess.Visible(CollapseBlankLinesFrom(s, p + 1)) == Preprocess.Visible(s[p + 1..])
    ensures Preprocess.Visible(CollapseBlankLinesFrom(s, p)) == Preprocess.Visible(s[p..])
  {
    assert CollapseBlankLinesFrom(s, p) == [s[p]] + CollapseBlankLinesFrom(s, p + 1);
    assert s[p..][1..] == s[p + 1..];
  }

  // ---- parse_doc_file ----

  const CodeBlockMarker := "``````"

  /** The fields the function computes for a text it could read. */
  function DocFields(path: string, raw: string): DocumentationFile
  {
    DocumentationFile(path, HeadingsFrom(raw, 0), raw, Some(CollapseBlankLines(raw)),
                      Join(", ", SortedUnique(InlineRefsFrom(raw, 0) + LinkRefsFrom(raw, 0))))
  }

  /** The keyword arguments the final `DocumentationFile(...)` call passes. */
  const AsWrittenDocKeywords: set<string> := DocumentationFileFields + {"embedding_id", "type"}

  /**
   * `parse_doc_file` as written: None for a missing file or for text with a
   * run of six backticks; otherwise the construction outside the `try`
   * raises.
   */
  function ParseDocFileResult(files: map<string, string>, path: string): Result<Option<DocumentationFile>>
  {
    if path !in files || Contains(files[path], CodeBlockMarker) then Ok(None)
    else
      match NewDocumentationFile(AsWrittenDocKeywords, DocFields(path, files[path]))
      case Err(e) => Err(e)
      case Ok(d) => Ok(Some(d))
  }

  /** The corrected `parse_doc_file`: the record is built from its five declared fields. */
  function ParseDocFileFixedResult(files: map<string, string>, path: string): Result<Option<DocumentationFile>>
  {
    if path !in files || Contains(files[path], CodeBlockMarker) then Ok(None)
    else
      match NewDocumentationFile(DocumentationFileFields, DocFields(path, files[path]))
      case Err(e) => Err(e)
      case Ok(d) => Ok(Some(d))
  }

  /** As written, no call returns a record: it returns None or raises TypeError. */
  lemma ParseDocFileNeverReturnsRecord(files: map<string, string>, path: string)
    ensures ParseDocFileResult(files, path) == Ok(None) <==> path !in files || Contains(files[path], CodeBlockMarker)
    ensures ParseDocFileResult(files, path) != Ok(None) ==>
              ParseDocFileResult(files, path).Err? && ParseDocFileResult(files, path).error.TypeError?
  {
    if path in files && !Contains(files[path], CodeBlockMarker) {
      AsWrittenDocKeywordsRejected(DocFields(path, files[path]));
    }
  }

  lemma AsWrittenDocKeywordsRejected(d: DocumentationFile)
    ensures NewDocumentationFile(AsWrittenDocKeywords, d).Err?
    ensures NewDocumentationFile(AsWrittenDocKeywords, d).error.TypeError?
  {
    assert "embedding_id" in AsWrittenDocKeywords;
    assert "embedding_id" !in DocumentationFileFields;
  }

  /** Corrected, every readable file without a six-backtick run gives its record. */
  lemma ParseDocFileFixedRecord(files: map<string, string>, path: string)
    requires path in files && !Contains(files[path], CodeBlockMarker)
    ensures ParseDocFileFixedResult(files, path) == Ok(Some(DocFields(path, files[path])))
  {
  }

  /** One step of the heading scan: the titles found at `p`, and where scanning resumes. */
  method NextHeading(raw: string, p: nat) returns (found: seq<string>, q: nat)
    requires p < |raw|
    ensures p < q <= |raw| && HeadingsFrom(raw, p) == found + HeadingsFrom(raw, q)
  {
    HeadingsStep(raw, p);
    var m := HeadingAt(raw, p);
    if m.Some? {
      found, q := [Strip(m.value.0)], m.value.1;
    } else {
      found, q := [], p + 1;
    }
  }

  /** The `finditer` loop over headings. */
  method CollectSections(raw: string) returns (sections: seq<string>)
    ensures sections == HeadingsFrom(raw, 0)
  {
    sections := [];
    var p := 0;
    while p < |raw|
      invariant p <= |raw|
      invariant sections + HeadingsFrom(raw, p) == HeadingsFrom(raw, 0)
      decreases |raw| - p
    {
      var found, q := NextHeading(raw, p);
      assert sections + HeadingsFrom(raw, p) == (sections + found) + HeadingsFrom(raw, q);
      sections, p := sections + found, q;
    }
  }

  /** One step of the inline-code scan. */
  method NextInline(raw: string, p: nat) returns (found: seq<string>, q: nat)
    requires p < |raw|
    ensures p < q <= |raw| && InlineRefsFrom(raw, p) == found + InlineRefsFrom(raw, q)
  {
    var m := InlineAt(raw, p);
    if m.Some? {
      found, q := [m.value.0], m.value.1;
    } else {
      found, q := [], p + 1;
    }
  }

  /** The `finditer` loop over inline code. */
  method CollectInlineRefs(raw: string) returns (refs: seq<string>)
    ensures refs == InlineRefsFrom(raw, 0)
  {
    refs := [];
    var p := 0;
    while p < |raw|
      invariant p <= |raw|
      invariant refs + InlineRefsFrom(raw, p) == InlineRefsFrom(raw, 0)
      decreases |raw| - p
    {
      var found, q := NextInline(raw, p);
      assert refs + InlineRefsFrom(raw, p) == (refs + found) + InlineRefsFrom(raw, q);
      refs, p := refs + found, q;
    }
  }

  /** One step of the link scan: a link whose url mentions "api" or "doc" is kept as "text (url)". */
  method NextLink(raw: string, p: nat) returns (found: seq<string>, q: nat)
    requires p < |raw|
    ensures p < q <= |raw| && LinkRefsFrom(raw, p) == found + LinkRefsFrom(raw, q)
  {
    LinkRefsStep(raw, p);
    var m := LinkAt(raw, p);
    if m.Some? {
      var (text, url, e) := m.value;
      if Contains(Lower(url), "api") || Contains(Lower(url), "doc") {
        found := [text + " (" + url + ")"];
      } else {
        found := [];
      }
      q := e;
    } else {
      found, q := [], p + 1;
    }
  }

  /** The `finditer` loop over links, appending to the references found so far. */
  method CollectLinkRefs(raw: string, found: seq<string>) returns (refs: seq<string>)
    ensures refs == found + LinkRefsFrom(raw, 0)
  {
    refs := found;
    var p := 0;
    while p < |raw|
      invariant p <= |raw|
      invariant refs + LinkRefsFrom(raw, p) == found + LinkRefsFrom(raw, 0)
      decreases |raw| - p
    {
      var more, q := NextLink(raw, p);
      assert refs + LinkRefsFrom(raw, p) == (refs + more) + LinkRefsFrom(raw, q);
      refs, p := refs + more, q;
    }
  }

  /** `parse_doc_file(file_path)` as written. */
  method ParseDocFile(files: map<string, string>, path: string) returns (r: Result<Option<DocumentationFile>>)
    ensures r == ParseDocFileResult(files, path)
  {
    if path !in files {
      return Ok(None);
    }
    var raw := files[path];
    var sections := CollectSections(raw);
    if Contains(raw, CodeBlockMarker) {
      return Ok(None);
    }
    var refs := CollectInlineRefs(raw);
    refs := CollectLinkRefs(raw, refs);
    var apiReferences := SortedUnique(refs);
    var cleaned := CollapseBlankLines(raw);
    var doc := NewDocumentationFile(AsWrittenDocKeywords,
                                    DocumentationFile(path, sections, raw, Some(cleaned), Join(", ", apiReferences)));
    if doc.Err? {
      return Err(doc.error);
    }
    return Ok(Some(doc.value));
  }
}
