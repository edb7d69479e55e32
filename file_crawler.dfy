/**
 * `crawl_files`: the paths of all files under a directory whose names end
 * with one of the wanted extensions, in `os.walk` order.
 *
 * The directory tree is given as the sequence `os.walk` yields: one entry per
 * visited directory with its path and the names of the files directly in it.
 */
module FileCrawler {
  import opened Common

  datatype WalkEntry = WalkEntry(root: string, files: seq<string>)

  const DefaultExtensions: seq<string> := [".py", ".md"]

  /** `extensions or [".py", ".md"]`: None and the empty list both select the defaults. */
  function EffectiveExtensions(extensions: Option<seq<string>>): (exts: seq<string>)
    ensures exts != []
    ensures extensions.Some? && extensions.value != [] ==> exts == extensions.value
  {
    if extensions.Some? && extensions.value != [] then extensions.value else DefaultExtensions
  }

  /** `os.path.join(root, name)` for two components. */
  function PathJoin(root: string, name: string): (p: string)
    ensures EndsWith(p, name)
  {
    if StartsWith(name, "/") || root == [] then name
    else if EndsWith(root, "/") then root + name
    else root + "/" + name
  }

  /** `any(name.endswith(ext) for ext in exts)`. */
  predicate HasExtension(name: string, exts: seq<string>)
  {
    exists k :: 0 <= k < |exts| && EndsWith(name, exts[k])
  }

  /** The matches among the first files of one directory. */
  function MatchesIn(root: string, files: seq<string>, exts: seq<string>): seq<string>
  {
    if files == [] then []
    else
      var name := files[|files| - 1];
      MatchesIn(root, files[..|files| - 1], exts) + (if HasExtension(name, exts) then [PathJoin(root, name)] else [])
  }

  /** The matches in the first directories of the walk. */
  function Matches(walk: seq<WalkEntry>, exts: seq<string>): seq<string>
  {
    if walk == [] then []
    else Matches(walk[..|walk| - 1], exts) + MatchesIn(walk[|walk| - 1].root, walk[|walk| - 1].files, exts)
  }

  method CrawlFiles(walk: seq<WalkEntry>, extensions: Option<seq<string>>) returns (matched: seq<string>)
    ensures matched == Matches(walk, EffectiveExtensions(extensions))
  {
    var exts := if extensions.Some? && extensions.value != [] then extensions.value else [".py", ".md"];
    matched := [];
    for i := 0 to |walk|
      invariant matched == Matches(walk[..i], exts)
    {
      MatchesNext(walk, i, exts);
      matched := CrawlDirectory(walk[i].root, walk[i].files, exts, matched);
    }
    assert walk[..|walk|] == walk;
  }

  /** The inner loop over the files of one directory, appending to `matched`. */
  method CrawlDirectory(root: string, files: seq<string>, exts: seq<string>, matched0: seq<string>)
    returns (matched: seq<string>)
    ensures matched == matched0 + MatchesIn(root, files, exts)
  {
    matched := matched0;
    for j := 0 to |files|
      invariant matched == matched0 + MatchesIn(root, files[..j], exts)
    {
      MatchesInNext(root, files, j, exts);
      var name := files[j];
      if HasExtension(name, exts) {
        matched := matched + [PathJoin(root, name)];
      }
    }
    assert files[..|files|] == files;
  }

  lemma MatchesInNext(root: string, files: seq<string>, j: nat, exts: seq<string>)
    requires j < |files|
    ensures MatchesIn(root, files[..j + 1], exts)
            == MatchesIn(root, files[..j], exts) + (if HasExtension(files[j], exts) then [PathJoin(root, files[j])] else [])
  {
    assert files[..j + 1][..j] == files[..j];
  }

  lemma MatchesNext(walk: seq<WalkEntry>, i: nat, exts: seq<string>)
    requires i < |walk|
    ensures Matches(walk[..i + 1], exts) == Matches(walk[..i], exts) + MatchesIn(walk[i].root, walk[i].files, exts)
  {
    assert walk[..i + 1][..i] == walk[..i];
  }

  /** `p` is the joined path of file `name` in directory `root`, and the name has a wanted extension. */
  predicate Selected(p: string, root: string, name: string, exts: seq<string>)
  {
    HasExtension(name, exts) && p == PathJoin(root, name)
  }

  lemma {:induction false} MatchesInSound(root: string, files: seq<string>, exts: seq<string>, p: string)
    requires p in MatchesIn(root, files, exts)
    ensures exists j :: 0 <= j < |files| && Selected(p, root, files[j], exts)
    decreases |files|
  {
    var fs := files[..|files| - 1];
    if p in MatchesIn(root, fs, exts) {
      MatchesInSound(root, fs, exts, p);
      var j :| 0 <= j < |fs| && Selected(p, root, fs[j], exts);
      assert files[j] == fs[j];
    } else {
      assert Selected(p, root, files[|files| - 1], exts);
    }
  }

  lemma {:induction false} MatchesInComplete(root: string, files: seq<string>, exts: seq<string>, j: nat)
    requires j < |files| && HasExtension(files[j], exts)
    ensures PathJoin(root, files[j]) in MatchesIn(root, files, exts)
    decreases |files|
  {
    var fs := files[..|files| - 1];
    var last := if HasExtension(files[|files| - 1], exts) then [PathJoin(root, files[|files| - 1])] else [];
    assert MatchesIn(root, files, exts) == MatchesIn(root, fs, exts) + last;
    if j < |fs| {
      assert files[j] == fs[j];
      MatchesInComplete(root, fs, exts, j);
      InLeft(PathJoin(root, files[j]), MatchesIn(root, fs, exts), last);
    } else {
      InRight(PathJoin(root, files[j]), MatchesIn(root, fs, exts), last);
    }
  }

  lemma InLeft(x: string, a: seq<string>, b: seq<string>)
    requires x in a
    ensures x in a + b
  {
    var k :| 0 <= k < |a| && a[k] == x;
    assert (a + b)[k] == x;
  }

  lemma InRight(x: string, a: seq<string>, b: seq<string>)
    requires x in b
    ensures x in a + b
  {
    var k :| 0 <= k < |b| && b[k] == x;
    assert (a + b)[|a| + k] == x;
  }

  /** Every returned path joins a visited directory with a file in it that has a wanted extension. */
  lemma {:induction false} CrawlSound(walk: seq<WalkEntry>, exts: seq<string>, p: string)
    requires p in Matches(walk, exts)
    ensures exists i, j :: 0 <= i < |walk| && 0 <= j < |walk[i].files| && Selected(p, walk[i].root, walk[i].files[j], exts)
    decreases |walk|
  {
    var w := walk[..|walk| - 1];
    var last := walk[|walk| - 1];
    if p in Matches(w, exts) {
      CrawlSound(w, exts, p);
      var i, j :| 0 <= i < |w| && 0 <= j < |w[i].files| && Selected(p, w[i].root, w[i].files[j], exts);
      assert walk[i] == w[i];
    } else {
      MatchesInSound(last.root, last.files, exts, p);
      var j :| 0 <= j < |last.files| && Selected(p, last.root, last.files[j], exts);
      assert Selected(p, walk[|walk| - 1].root, walk[|walk| - 1].files[j], exts);
    }
  }

  /** Every file of every visited directory with a wanted extension is returned. */
  lemma {:induction false} CrawlComplete(walk: seq<WalkEntry>, exts: seq<string>, i: nat, j: nat)
    requires i < |walk| && j < |walk[i].files| && HasExtension(walk[i].files[j], exts)
    ensures PathJoin(walk[i].root, walk[i].files[j]) in Matches(walk, exts)
    decreases |walk|
  {
    var w := walk[..|walk| - 1];
    var last := walk[|walk| - 1];
    assert Matches(walk, exts) == Matches(w, exts) + MatchesIn(last.root, last.files, exts);
    if i < |w| {
      assert walk[i] == w[i];
      CrawlComplete(w, exts, i, j);
      InLeft(PathJoin(walk[i].root, walk[i].files[j]), Matches(w, exts), MatchesIn(last.root, last.files, exts));
    } else {
      MatchesInComplete(last.root, last.files, exts, j);
      InRight(PathJoin(walk[i].root, walk[i].files[j]), Matches(w, exts), MatchesIn(last.root, last.files, exts));
    }
  }
}
