/**
  The string and path rules both scripts use: `clean_path` (three chained `str.strip`
  calls), `os.path.splitext` and `os.path.join` (the POSIX rules, with `/` as the one
  separator), and the output path built for a converted file.
 */
module Paths {
  import opened Common

  /** The ASCII characters for which Python's `str.isspace()` holds; `str.strip()`
      with no argument removes these. */
  const Whitespace: set<char> :=
    {' ', '\t', '\n', '\r', '\U{000B}', '\U{000C}', '\U{001C}', '\U{001D}', '\U{001E}', '\U{001F}'}

  /** Every character `clean_path` may remove. */
  const Strippable: set<char> := Whitespace + {'"', '\''}

  /** `r` is `s[i..j]`, and every character of `s` outside `i..j` is in `cs`. */
  ghost predicate TrimmedAt(s: string, r: string, cs: set<char>, i: int, j: int)
  {
    0 <= i <= j <= |s| && r == s[i..j]
    && (forall k :: 0 <= k < i ==> s[k] in cs)
    && (forall k :: j <= k < |s| ==> s[k] in cs)
  }

  /** `r` is `s` with some prefix and some suffix removed, every removed character in `cs`. */
  ghost predicate TrimmedBy(s: string, r: string, cs: set<char>)
  {
    exists i, j :: TrimmedAt(s, r, cs, i, j)
  }

  /** What `s.strip(cs)` promises: a trimming of `s` by characters of `cs` that leaves
      no character of `cs` at either end. */
  ghost predicate StripsTo(s: string, cs: set<char>, r: string)
  {
    TrimmedBy(s, r, cs) && (r == [] || (r[0] !in cs && r[|r| - 1] !in cs))
  }

  /** Python's `s.strip(chars)`: remove every leading and every trailing character
      that belongs to `cs`. */
  function Strip(s: string, cs: set<char>): string
    decreases |s|
  {
    if s != [] && s[0] in cs then Strip(s[1..], cs)
    else if s != [] && s[|s| - 1] in cs then Strip(s[..|s| - 1], cs)
    else s
  }

  /** `Strip` is a stripping in the sense of `StripsTo`. */
  lemma {:induction false} StripSpec(s: string, cs: set<char>)
    ensures StripsTo(s, cs, Strip(s, cs))
    decreases |s|
  {
    var r := Strip(s, cs);
    if s != [] && s[0] in cs {
      var t := s[1..];
      StripSpec(t, cs);
      var i, j :| TrimmedAt(t, r, cs, i, j);
      assert r == s[i + 1..j + 1];
      forall k | 0 <= k < i + 1 ensures s[k] in cs {
        if k > 0 { assert s[k] == t[k - 1]; }
      }
      forall k | j + 1 <= k < |s| ensures s[k] in cs {
        assert s[k] == t[k - 1];
      }
      assert TrimmedAt(s, r, cs, i + 1, j + 1);
    } else if s != [] && s[|s| - 1] in cs {
      var t := s[..|s| - 1];
      StripSpec(t, cs);
      var i, j :| TrimmedAt(t, r, cs, i, j);
      assert r == s[i..j];
      assert i == 0;
      forall k | j <= k < |s| ensures s[k] in cs {
        if k < |s| - 1 { assert s[k] == t[k]; }
      }
      assert TrimmedAt(s, r, cs, i, j);
    } else {
      assert TrimmedAt(s, s, cs, 0, |s|);
    }
  }

  /** A non-empty stripping of `s` by `cs` is the only stripping of `s` by `cs`. */
  lemma NonEmptyStripUnique(s: string, cs: set<char>, r1: string, r2: string)
    requires StripsTo(s, cs, r1) && StripsTo(s, cs, r2) && r1 != []
    ensures r1 == r2
  {
    var i1, j1 :| TrimmedAt(s, r1, cs, i1, j1);
    var i2, j2 :| TrimmedAt(s, r2, cs, i2, j2);
    assert s[i1] == r1[0] && s[j1 - 1] == r1[|r1| - 1];
    assert i2 <= i1 < j2;
    assert s[i2] == r2[0] && s[j2 - 1] == r2[|r2| - 1];
    assert i1 == i2 && j1 == j2;
  }

  /** At most one string is a stripping of `s` by `cs`. */
  lemma StripsToUnique(s: string, cs: set<char>, r1: string, r2: string)
    requires StripsTo(s, cs, r1) && StripsTo(s, cs, r2)
    ensures r1 == r2
  {
    if r1 != [] {
      NonEmptyStripUnique(s, cs, r1, r2);
    } else if r2 != [] {
      NonEmptyStripUnique(s, cs, r2, r1);
    }
  }

  /** `Strip` is exactly the stripping `StripsTo` describes, in both directions. */
  lemma StripCharacterized(s: string, cs: set<char>, r: string)
    ensures r == Strip(s, cs) <==> StripsTo(s, cs, r)
  {
    StripSpec(s, cs);
    if StripsTo(s, cs, r) {
      StripsToUnique(s, cs, r, Strip(s, cs));
    }
  }

  /** A string with no character of `cs` at either end is left as it is by `strip`. */
  lemma StripKeepsBareString(s: string, cs: set<char>)
    requires s == [] || (s[0] !in cs && s[|s| - 1] !in cs)
    ensures Strip(s, cs) == s
  {
    assert s[0..|s|] == s;
    assert TrimmedAt(s, s, cs, 0, |s|);
    StripSpec(s, cs);
    StripsToUnique(s, cs, s, Strip(s, cs));
  }

  /** Trimming twice is trimming once, by any set holding both character sets. */
  lemma TrimmedByCompose(s: string, m: string, r: string, cs1: set<char>, cs2: set<char>, cs: set<char>)
    requires TrimmedBy(s, m, cs1) && TrimmedBy(m, r, cs2)
    requires cs1 <= cs && cs2 <= cs
    ensures TrimmedBy(s, r, cs)
  {
    var i1, j1 :| TrimmedAt(s, m, cs1, i1, j1);
    var i2, j2 :| TrimmedAt(m, r, cs2, i2, j2);
    assert forall k :: 0 <= k < |r| ==> r[k] == m[i2 + k] == s[i1 + i2 + k];
    assert r == s[i1 + i2..i1 + j2];
    forall k | 0 <= k < i1 + i2 ensures s[k] in cs {
      if k >= i1 { assert s[k] == m[k - i1]; }
    }
    forall k | i1 + j2 <= k < |s| ensures s[k] in cs {
      if k < j1 { assert s[k] == m[k - i1]; }
    }
    assert TrimmedAt(s, r, cs, i1 + i2, i1 + j2);
  }

  /** `clean_path`: `path.strip().strip('"').strip("'")`. Each step removes every
      character of its kind from both ends, not just one layer. */
  function CleanPath(path: string): string
  {
    Strip(Strip(Strip(path, Whitespace), {'"'}), {'\''})
  }

  /** The cleaned path neither starts nor ends with an apostrophe, the last character
      `clean_path` strips. */
  lemma CleanPathEnds(path: string)
    ensures var r := CleanPath(path); r == [] || (r[0] != '\'' && r[|r| - 1] != '\'')
  {
    StripSpec(Strip(Strip(path, Whitespace), {'"'}), {'\''});
  }

  /** The cleaned path is the input with some prefix and some suffix removed, and every
      removed character is whitespace or a quote character. */
  lemma CleanPathIsTrimming(path: string)
    ensures TrimmedBy(path, CleanPath(path), Strippable)
  {
    var a := Strip(path, Whitespace);
    var b := Strip(a, {'"'});
    StripSpec(path, Whitespace);
    StripSpec(a, {'"'});
    StripSpec(b, {'\''});
    TrimmedByCompose(path, a, b, Whitespace, {'"'}, Strippable);
    TrimmedByCompose(path, b, CleanPath(path), Strippable, {'\''}, Strippable);
  }

  /** A path with no whitespace or quote character at either end is returned unchanged. */
  lemma CleanPathKeepsCleanPath(path: string)
    requires path == [] || (path[0] !in Strippable && path[|path| - 1] !in Strippable)
    ensures CleanPath(path) == path
  {
    StripKeepsBareString(path, Whitespace);
    StripKeepsBareString(path, {'"'});
    StripKeepsBareString(path, {'\''});
  }

  /** Stripping a string padded on both sides by characters of `cs` gives back the
      middle, provided the middle has no character of `cs` at either end. */
  lemma StripPadded(pre: string, mid: string, post: string, cs: set<char>)
    requires forall k :: 0 <= k < |pre| ==> pre[k] in cs
    requires forall k :: 0 <= k < |post| ==> post[k] in cs
    requires mid == [] || (mid[0] !in cs && mid[|mid| - 1] !in cs)
    ensures Strip(pre + mid + post, cs) == mid
  {
    var s := pre + mid + post;
    assert forall k :: 0 <= k < |pre| ==> s[k] == pre[k];
    assert forall k :: |pre| + |mid| <= k < |s| ==> s[k] == post[k - |pre| - |mid|];
    assert s[|pre|..|pre| + |mid|] == mid;
    assert TrimmedAt(s, mid, cs, |pre|, |pre| + |mid|);
    StripSpec(s, cs);
    StripsToUnique(s, cs, mid, Strip(s, cs));
  }

  /** The two quote-stripping steps of `clean_path` turn `q + inner + q` into `inner`. */
  lemma StripQuotePair(q: char, inner: string)
    requires q == '"' || q == '\''
    requires inner == [] || (inner[0] !in {'"', '\''} && inner[|inner| - 1] !in {'"', '\''})
    ensures Strip(Strip([q] + inner + [q], {'"'}), {'\''}) == inner
  {
    if q == '"' {
      StripPadded([q], inner, [q], {'"'});
      StripKeepsBareString(inner, {'\''});
    } else {
      StripKeepsBareString([q] + inner + [q], {'"'});
      StripPadded([q], inner, [q], {'\''});
    }
  }

  /** A path pasted between quotes and padded with whitespace comes back as the inner
      text, whitespace inside the quotes included. */
  lemma CleanPathUnquotes(pre: string, q: char, inner: string, post: string)
    requires forall k :: 0 <= k < |pre| ==> pre[k] in Whitespace
    requires forall k :: 0 <= k < |post| ==> post[k] in Whitespace
    requires q == '"' || q == '\''
    requires inner == [] || (inner[0] !in {'"', '\''} && inner[|inner| - 1] !in {'"', '\''})
    ensures CleanPath(pre + [q] + inner + [q] + post) == inner
  {
    var quoted := [q] + inner + [q];
    assert pre + [q] + inner + [q] + post == pre + quoted + post;
    StripPadded(pre, quoted, post, Whitespace);
    StripQuotePair(q, inner);
  }

  /** Several layers of quotes all go: `""a""` cleans to `a`. */
  lemma CleanPathRemovesEveryQuoteLayer()
    ensures CleanPath("  \"\"a\"\"  ") == "a"
  {
    assert "  \"\"a\"\"  " == "  " + "\"\"a\"\"" + "  ";
    StripPadded("  ", "\"\"a\"\"", "  ", Whitespace);
    assert "\"\"a\"\"" == "\"\"" + "a" + "\"\"";
    StripPadded("\"\"", "a", "\"\"", {'"'});
    StripKeepsBareString("a", {'\''});
  }

  /** The index of the last occurrence of `c` in `s`, or -1 (Python's `str.rfind`). */
  function LastIndex(s: string, c: char): (k: int)
    ensures -1 <= k < |s|
    ensures k >= 0 ==> s[k] == c
    ensures forall i :: k < i < |s| ==> s[i] != c
  {
    if s == [] then -1
    else if s[|s| - 1] == c then |s| - 1
    else LastIndex(s[..|s| - 1], c)
  }

  /** Some character of `p[lo..hi]` is not a dot. */
  ghost predicate HasNonDot(p: string, lo: int, hi: int)
    requires 0 <= lo && hi <= |p|
  {
    exists k :: lo <= k < hi && p[k] != '.'
  }

  /** The scan `splitext` makes for a non-dot character in `p[lo..hi]`. */
  predicate NonDotAt(p: string, lo: int, hi: int)
    requires 0 <= lo && hi <= |p|
    ensures NonDotAt(p, lo, hi) <==> HasNonDot(p, lo, hi)
    decreases hi - lo
  {
    lo < hi && (p[lo] != '.' || NonDotAt(p, lo + 1, hi))
  }

  /** Where `os.path.splitext` cuts `p` (POSIX rules): at the last dot, if that dot is
      in the final path component and some non-dot character of the component precedes
      it; otherwise nowhere (at the end). So `.bashrc` and `..mp4` have no extension. */
  function ExtIndex(p: string): (k: nat)
    ensures k <= |p|
  {
    var sep := LastIndex(p, '/');
    var dot := LastIndex(p, '.');
    if dot > sep && NonDotAt(p, sep + 1, dot) then dot else |p|
  }

  /** `os.path.splitext(p)`: the pair (root, extension). */
  function SplitExt(p: string): (r: (string, string))
    ensures r.0 + r.1 == p
    ensures r.1 == [] || r.1[0] == '.'
  {
    var k := ExtIndex(p);
    (p[..k], p[k..])
  }

  /** The final path component has a dot somewhere after a non-dot character. */
  ghost predicate HasDottedSuffix(p: string)
  {
    exists j, k :: LastIndex(p, '/') < j < k < |p| && p[j] != '.' && p[k] == '.'
  }

  /** What `splitext` promises: there is an extension exactly when the final component
      has a dot after a non-dot character; the extension then runs from the last dot,
      lies within the final component, and the root's final component is not all dots. */
  lemma SplitExtCharacterized(p: string)
    ensures SplitExt(p).1 != [] <==> HasDottedSuffix(p)
    ensures var (root, ext) := SplitExt(p);
            ext != [] ==> '.' !in ext[1..] && '/' !in ext
                          && HasNonDot(root, LastIndex(root, '/') + 1, |root|)
  {
    var sep := LastIndex(p, '/');
    var dot := LastIndex(p, '.');
    if dot > sep && HasNonDot(p, sep + 1, dot) {
      var j :| sep + 1 <= j < dot && p[j] != '.';
      assert HasDottedSuffix(p);
      var root := p[..dot];
      LastIndexOfPrefix(p, dot, '/');
      assert root[j] == p[j];
      assert forall i :: 0 <= i < |p| - dot - 1 ==> p[dot..][1..][i] == p[dot + 1 + i];
    }
    if HasDottedSuffix(p) {
      var j, k :| sep < j < k < |p| && p[j] != '.' && p[k] == '.';
      assert dot >= k;
      assert HasNonDot(p, sep + 1, dot);
    }
  }

  /** `LastIndex` is fixed by its contract: any `k` with those properties is it. */
  lemma LastIndexUnique(s: string, c: char, k: int)
    requires -1 <= k < |s|
    requires k >= 0 ==> s[k] == c
    requires forall i :: k < i < |s| ==> s[i] != c
    ensures LastIndex(s, c) == k
  {
  }

  /** Looking for `c` in a prefix that keeps the last `c` finds the same index. */
  lemma LastIndexOfPrefix(p: string, n: nat, c: char)
    requires LastIndex(p, c) < n <= |p|
    ensures LastIndex(p[..n], c) == LastIndex(p, c)
  {
    var k := LastIndex(p, c);
    var q := p[..n];
    assert forall i :: k < i < n ==> q[i] == p[i] != c;
    assert k >= 0 ==> q[k] == p[k] == c;
    LastIndexUnique(q, c, k);
  }

  /** In `root + ext`, where `ext` is a dot followed by no dot or slash, the last dot
      is `ext`'s and the last slash is `root`'s. */
  lemma LastIndexOfRenamed(root: string, ext: string)
    requires ext != [] && ext[0] == '.' && '.' !in ext[1..] && '/' !in ext
    ensures LastIndex(root + ext, '.') == |root|
    ensures LastIndex(root + ext, '/') == LastIndex(root, '/')
  {
    var p := root + ext;
    assert p[|root|] == '.';
    forall i | |root| < i < |p| ensures p[i] != '.' && p[i] != '/' {
      assert p[i] == ext[i - |root|] == ext[1..][i - |root| - 1];
    }
    LastIndexUnique(p, '.', |root|);
    assert p[..|root|] == root;
    LastIndexOfPrefix(p, |root|, '/');
  }

  /** `splitext` cuts `root + ext` where `ext` begins, when `ext` is a dot followed by
      no dot or slash and the final component of `root` is not all dots. */
  lemma ExtIndexOfRenamed(root: string, ext: string)
    requires ext != [] && ext[0] == '.' && '.' !in ext[1..] && '/' !in ext
    requires HasNonDot(root, LastIndex(root, '/') + 1, |root|)
    ensures ExtIndex(root + ext) == |root|
  {
    var p := root + ext;
    var k :| LastIndex(root, '/') + 1 <= k < |root| && root[k] != '.';
    assert p[k] == root[k];
    LastIndexOfRenamed(root, ext);
  }

  /** Renaming keeps the root: `root + ext` splits back into `root` and `ext` when `ext`
      holds a single dot at its start and no slash, and the final component of `root`
      is not all dots. */
  lemma SplitExtOfRenamed(root: string, ext: string)
    requires ext != [] && ext[0] == '.' && '.' !in ext[1..] && '/' !in ext
    requires HasNonDot(root, LastIndex(root, '/') + 1, |root|)
    ensures SplitExt(root + ext) == (root, ext)
  {
    ExtIndexOfRenamed(root, ext);
    var p := root + ext;
    assert p[..|root|] == root && p[|root|..] == ext;
  }

  /** `os.path.join(a, b)` (POSIX rules): an absolute `b` replaces `a`; otherwise a `/`
      is put between them unless `a` is empty or already ends in one. */
  function Join(a: string, b: string): (r: string)
    ensures EndsWith(r, b)
    ensures (b != [] && b[0] == '/') || r[..|r| - |b|] == a || r[..|r| - |b|] == a + "/"
  {
    if b != [] && b[0] == '/' then b
    else if a == [] || a[|a| - 1] == '/' then a + b
    else a + "/" + b
  }

  /** An absolute second part (one that starts with `/`) replaces the first. */
  lemma JoinAbsolute(a: string, b: string)
    requires b != [] && b[0] == '/'
    ensures Join(a, b) == b
  {
  }

  /** A relative second part goes after the first, with one `/` between them only when the
      first is non-empty and does not already end in one. */
  lemma JoinRelative(a: string, b: string)
    requires b == [] || b[0] != '/'
    ensures var r := Join(a, b);
      StartsWith(r, a) && EndsWith(r, b) &&
      |r| == |a| + |b| + (if a == [] || a[|a| - 1] == '/' then 0 else 1) &&
      (|r| > |a| + |b| ==> r[|a|] == '/')
  {
  }

  /** The name a converted file gets: the input's root with the chosen extension. */
  function OutputName(filename: string, ext: string): string
  {
    SplitExt(filename).0 + "." + ext
  }

  /** `os.path.join(output_folder, base_name + "." + output_ext)`. */
  function OutputPath(outputFolder: string, filename: string, ext: string): string
  {
    Join(outputFolder, OutputName(filename, ext))
  }

  /** The paths one conversion works on: `input_file` and `output_file` of the loop. */
  datatype Job = Job(filename: string, input: string, output: string)

  /** The job for `filename`: the input is the file in the input folder, the output is
      in the output folder and carries the chosen extension. */
  function JobFor(inputFolder: string, outputFolder: string, ext: string, filename: string): (j: Job)
    ensures j.filename == filename
  {
    Job(filename, Join(inputFolder, filename), OutputPath(outputFolder, filename, ext))
  }

  /** A job reads a path ending in its file's name and writes one ending in the chosen
      extension. */
  lemma JobForPaths(inputFolder: string, outputFolder: string, ext: string, filename: string)
    ensures var j := JobFor(inputFolder, outputFolder, ext, filename);
      EndsWith(j.input, filename) && EndsWith(j.output, "." + ext)
  {
    OutputPathEndsWithExtension(outputFolder, filename, ext);
  }

  /** One job per file, in file order. */
  function Jobs(files: seq<string>, inputFolder: string, outputFolder: string, ext: string): (r: seq<Job>)
    ensures |r| == |files|
    ensures forall i :: 0 <= i < |files| ==> r[i] == JobFor(inputFolder, outputFolder, ext, files[i])
  {
    seq(|files|, i requires 0 <= i < |files| => JobFor(inputFolder, outputFolder, ext, files[i]))
  }

  /** The output path ends with a dot and the chosen extension. */
  lemma OutputPathEndsWithExtension(outputFolder: string, filename: string, ext: string)
    ensures EndsWith(OutputPath(outputFolder, filename, ext), "." + ext)
  {
    OutputNameEndsWithExtension(filename, ext);
    EndsWithTransitive(OutputPath(outputFolder, filename, ext), OutputName(filename, ext), "." + ext);
  }

  lemma OutputNameEndsWithExtension(filename: string, ext: string)
    ensures EndsWith(OutputName(filename, ext), "." + ext)
  {
    var root := SplitExt(filename).0;
    assert OutputName(filename, ext) == root + ("." + ext);
    EndsWithAppend(root, "." + ext);
  }

  /** The output file's own extension is the chosen one and its root is the input's root. */
  lemma OutputNameHasChosenExtension(filename: string, ext: string)
    requires SplitExt(filename).1 != []
    requires ext != [] && '.' !in ext && '/' !in ext
    ensures SplitExt(OutputName(filename, ext)) == (SplitExt(filename).0, "." + ext)
  {
    var root := SplitExt(filename).0;
    var dotExt := "." + ext;
    assert OutputName(filename, ext) == root + dotExt;
    SplitExtCharacterized(filename);
    assert dotExt[1..] == ext;
    SplitExtOfRenamed(root, dotExt);
  }

  /** A separator already at the end of the folder is not doubled, and an absolute
      second part replaces the first. */
  lemma JoinExamples()
    ensures Join("out/", "a.wav") == "out/a.wav"
    ensures Join("out", "a.wav") == "out/a.wav"
    ensures Join("out", "/abs") == "/abs"
  {
  }

  /** A file whose name is not absolute is written inside the output folder: the path is
      the folder, a `/` unless the folder is empty or already ends in one, then the output
      name. */
  lemma OutputPathInFolder(outputFolder: string, filename: string, ext: string)
    requires filename == [] || filename[0] != '/'
    ensures var r, n := OutputPath(outputFolder, filename, ext), OutputName(filename, ext);
      var gap := if outputFolder == [] || outputFolder[|outputFolder| - 1] == '/' then 0 else 1;
      StartsWith(r, outputFolder) && EndsWith(r, n) && |r| == |outputFolder| + gap + |n| &&
      (gap == 1 ==> r[|outputFolder|] == '/')
  {
    var root := SplitExt(filename).0;
    var n := OutputName(filename, ext);
    assert n == root + "." + ext;
    if root != [] {
      assert root == filename[..|root|];
      assert n[0] == root[0];
    } else {
      assert n[0] == '.';
    }
    JoinRelative(outputFolder, n);
  }

  /** Converting `a.flac` to wav in folder `out` writes `out/a.wav`. */
  lemma OutputPathExample()
    ensures OutputPath("out", "a.flac", "wav") == "out/a.wav"
  {
    var p := "a.flac";
    LastIndexUnique(p, '/', -1);
    LastIndexUnique(p, '.', 1);
    assert NonDotAt(p, 0, 1);
    assert ExtIndex(p) == 1;
    assert p[..1] == "a" && p[1..] == ".flac";
  }

  /** Two inputs that differ only in extension are written to the same output file:
      the later conversion overwrites the earlier one. */
  lemma OutputPathCollision()
    ensures OutputPath("out", "song.mp3", "flac") == OutputPath("out", "song.wav", "flac")
  {
    var p1, p2 := "song.mp3", "song.wav";
    LastIndexUnique(p1, '/', -1);
    LastIndexUnique(p2, '/', -1);
    LastIndexUnique(p1, '.', 4);
    LastIndexUnique(p2, '.', 4);
    assert HasNonDot(p1, 0, 4) by { assert p1[0] != '.'; }
    assert HasNonDot(p2, 0, 4) by { assert p2[0] != '.'; }
    assert SplitExt(p1).0 == "song" && SplitExt(p2).0 == "song";
  }
}
