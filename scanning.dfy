/**
  The folder scan shared by both scripts: a directory listing (each entry's name and
  whether `os.path.isfile` holds for it), the extension filter, and Python's `sorted`
  on names, which compares strings character by character by code point.
 */
module Scanning {
  import opened Common
  import opened Paths

  /** One entry of `os.listdir(folder)`, with the answer `os.path.isfile` gives for it. */
  datatype Entry = Entry(name: string, isFile: bool)

  /** The test both scanners apply to an entry: it is a regular file and its lower-cased
      `splitext` extension is one of `exts`. */
  predicate Keep(e: Entry, exts: seq<string>)
  {
    e.isFile && Lower(SplitExt(e.name).1) in exts
  }

  /** `lower()` leaves every character that is not an ASCII letter where it was, so the
      last `/` and the last `.` do not move. */
  lemma {:induction false} LastIndexLower(p: string, c: char)
    requires !('A' <= c <= 'Z') && !('a' <= c <= 'z')
    ensures LastIndex(Lower(p), c) == LastIndex(p, c)
    decreases |p|
  {
    if p != [] {
      assert Lower(p)[..|p| - 1] == Lower(p[..|p| - 1]);
      LastIndexLower(p[..|p| - 1], c);
    }
  }

  /** `splitext` cuts a name and its lower-cased form at the same place. */
  lemma ExtIndexLower(p: string)
    ensures ExtIndex(Lower(p)) == ExtIndex(p)
  {
    LastIndexLower(p, '/');
    LastIndexLower(p, '.');
    var sep, dot := LastIndex(p, '/'), LastIndex(p, '.');
    if dot > sep {
      if HasNonDot(p, sep + 1, dot) {
        var k :| sep + 1 <= k < dot && p[k] != '.';
        assert Lower(p)[k] != '.';
      }
      if HasNonDot(Lower(p), sep + 1, dot) {
        var k :| sep + 1 <= k < dot && Lower(p)[k] != '.';
        assert p[k] != '.';
      }
    }
  }

  /** The extension test ignores case: two names that lower-case alike are kept or left
      out together, so `CLIP.MP4` is found like `clip.mp4`. */
  lemma KeepIgnoresCase(n1: string, n2: string, isFile: bool, exts: seq<string>)
    requires Lower(n1) == Lower(n2)
    ensures Keep(Entry(n1, isFile), exts) == Keep(Entry(n2, isFile), exts)
  {
    ExtIndexLower(n1);
    ExtIndexLower(n2);
    var k := ExtIndex(n1);
    assert Lower(n1[k..]) == Lower(n1)[k..];
    assert Lower(n2[k..]) == Lower(n2)[k..];
  }

  /** A file named only by a dot and an extension, such as `.mp4`, has no extension to
      `splitext`, so no scan with a real extension list keeps it. */
  lemma DotFileHasNoExtension(exts: seq<string>)
    requires [] !in exts
    ensures !Keep(Entry(".mp4", true), exts)
  {
    LastIndexUnique(".mp4", '/', -1);
    LastIndexUnique(".mp4", '.', 0);
    assert !NonDotAt(".mp4", 0, 0);
    assert Lower(".mp4"[4..]) == [];
  }

  /** The names of the entries `keep` accepts, in listing order: what a scan appends to
      `files`. */
  function Scan(s: seq<Entry>, keep: Entry -> bool): (r: seq<string>)
    ensures |r| <= |s|
  {
    if s == [] then []
    else Scan(s[..|s| - 1], keep) + (if keep(s[|s| - 1]) then [s[|s| - 1].name] else [])
  }

  /** A two-entry listing whose entries are both kept scans to both names, in order. */
  lemma ScanTwo(e1: Entry, e2: Entry, keep: Entry -> bool)
    requires keep(e1) && keep(e2)
    ensures Scan([e1, e2], keep) == [e1.name, e2.name]
  {
    assert [e1, e2][..1] == [e1] && [e1][..0] == [];
  }

  /** The names of all entries, in listing order. */
  function Names(s: seq<Entry>): (r: seq<string>)
    ensures |r| == |s| && forall k :: 0 <= k < |s| ==> r[k] == s[k].name
  {
    seq(|s|, k requires 0 <= k < |s| => s[k].name)
  }

  /** A name is in the scan exactly when some kept entry has it. */
  lemma {:induction false} ScanMembership(s: seq<Entry>, keep: Entry -> bool, x: string)
    ensures x in Scan(s, keep) <==> exists e :: e in s && keep(e) && e.name == x
  {
    if s != [] {
      var p := s[..|s| - 1];
      ScanMembership(p, keep, x);
      assert s == p + [s[|s| - 1]];
      if exists e :: e in s && keep(e) && e.name == x {
        var e :| e in s && keep(e) && e.name == x;
        if e != s[|s| - 1] {
          assert e in p;
        }
      }
    }
  }

  /** `a` is `b` with some elements left out, the rest kept in order. */
  ghost predicate Subsequence<T>(a: seq<T>, b: seq<T>)
    decreases |b|
  {
    a == [] ||
    (b != [] &&
     ((a[|a| - 1] == b[|b| - 1] && Subsequence(a[..|a| - 1], b[..|b| - 1])) ||
      Subsequence(a, b[..|b| - 1])))
  }

  /** The scan keeps listing order: it is a subsequence of the listed names. */
  lemma {:induction false} ScanIsSubsequence(s: seq<Entry>, keep: Entry -> bool)
    ensures Subsequence(Scan(s, keep), Names(s))
  {
    if s != [] {
      var p := s[..|s| - 1];
      var a, b := Scan(s, keep), Names(s);
      ScanIsSubsequence(p, keep);
      assert b[..|b| - 1] == Names(p);
      if keep(s[|s| - 1]) {
        assert a == Scan(p, keep) + [s[|s| - 1].name];
        assert a[..|a| - 1] == Scan(p, keep) && a[|a| - 1] == b[|b| - 1];
      } else {
        assert a == Scan(p, keep);
      }
    }
  }

  lemma {:induction false} ScanAppend(a: seq<Entry>, b: seq<Entry>, keep: Entry -> bool)
    ensures Scan(a + b, keep) == Scan(a, keep) + Scan(b, keep)
    decreases |b|
  {
    if b == [] {
      assert a + b == a;
    } else {
      var b' := b[..|b| - 1];
      assert (a + b)[..|a + b| - 1] == a + b';
      ScanAppend(a, b', keep);
    }
  }

  /** Scanning two listings that hold the same entries, in any order, finds the same
      names the same number of times. */
  lemma {:induction false} ScanPermutation(a: seq<Entry>, b: seq<Entry>, keep: Entry -> bool)
    requires multiset(a) == multiset(b)
    ensures multiset(Scan(a, keep)) == multiset(Scan(b, keep))
    decreases |a|
  {
    if a != [] {
      var e := a[|a| - 1];
      var a' := a[..|a| - 1];
      assert a == a' + [e];
      assert e in multiset(b);
      var k :| 0 <= k < |b| && b[k] == e;
      var b1, b2 := b[..k], b[k + 1..];
      RemoveOne(a, b, k);
      ScanPermutation(a', b1 + b2, keep);
      ScanAppend(a', [e], keep);
      ScanAppend(b1, [e], keep);
      ScanAppend(b1 + [e], b2, keep);
      ScanAppend(b1, b2, keep);
      MovedBlock(Scan(a', keep), Scan(b1, keep), Scan(b2, keep), Scan([e], keep));
    }
  }

  /** Moving a block between the two halves of a sequence keeps its multiset. */
  lemma MovedBlock<T>(x: seq<T>, p: seq<T>, q: seq<T>, m: seq<T>)
    requires multiset(x) == multiset(p + q)
    ensures multiset(x + m) == multiset(p + m + q)
  {
  }

  lemma RemoveOne<T>(a: seq<T>, b: seq<T>, k: nat)
    requires a != [] && k < |b| && b[k] == a[|a| - 1]
    requires multiset(a) == multiset(b)
    ensures b == b[..k] + [b[k]] + b[k + 1..]
    ensures multiset(a[..|a| - 1]) == multiset(b[..k] + b[k + 1..])
  {
    var e := b[k];
    assert a == a[..|a| - 1] + [e];
    assert b == b[..k] + [e] + b[k + 1..];
    calc {
      multiset(a[..|a| - 1]);
      multiset(a) - multiset{e};
      multiset(b) - multiset{e};
      multiset(b[..k]) + multiset{e} + multiset(b[k + 1..]) - multiset{e};
      multiset(b[..k] + b[k + 1..]);
    }
  }

  /** Python's `<=` on strings: lexicographic by code point, a prefix first. */
  predicate StrLe(a: string, b: string)
    decreases |a|
  {
    a == [] || (b != [] && (if a[0] != b[0] then a[0] < b[0] else StrLe(a[1..], b[1..])))
  }

  lemma {:induction false} StrLeTotal(a: string, b: string)
    ensures StrLe(a, b) || StrLe(b, a)
    decreases |a|
  {
    if a != [] && b != [] && a[0] == b[0] {
      StrLeTotal(a[1..], b[1..]);
    }
  }

  lemma {:induction false} StrLeTransitive(a: string, b: string, c: string)
    requires StrLe(a, b) && StrLe(b, c)
    ensures StrLe(a, c)
    decreases |a|
  {
    if a != [] && a[0] == b[0] && b[0] == c[0] {
      StrLeTransitive(a[1..], b[1..], c[1..]);
    }
  }

  lemma {:induction false} StrLeAntisymmetric(a: string, b: string)
    requires StrLe(a, b) && StrLe(b, a)
    ensures a == b
    decreases |a|
  {
    if a != [] {
      StrLeAntisymmetric(a[1..], b[1..]);
      assert a == [a[0]] + a[1..] && b == [b[0]] + b[1..];
    }
  }

  ghost predicate SortedNames(s: seq<string>)
  {
    forall i, j :: 0 <= i < j < |s| ==> StrLe(s[i], s[j])
  }

  ghost predicate SortedByName(s: seq<Entry>)
  {
    forall i, j :: 0 <= i < j < |s| ==> StrLe(s[i].name, s[j].name)
  }

  /** Put `e` into `s` before the first entry whose name is not below `e`'s. */
  function Insert(e: Entry, s: seq<Entry>): (r: seq<Entry>)
    ensures multiset(r) == multiset(s) + multiset{e}
    ensures SortedByName(s) ==> SortedByName(r)
  {
    if s == [] then [e]
    else if StrLe(e.name, s[0].name) then
      InsertFrontSorted(e, s);
      [e] + s
    else
      var rest := Insert(e, s[1..]);
      assert s == [s[0]] + s[1..];
      StrLeTotal(e.name, s[0].name);
      InsertBehindSorted(e, s, rest);
      [s[0]] + rest
  }

  lemma InsertFrontSorted(e: Entry, s: seq<Entry>)
    requires s != [] && StrLe(e.name, s[0].name)
    ensures SortedByName(s) ==> SortedByName([e] + s)
  {
    if SortedByName(s) {
      forall j | 1 <= j < |s| + 1 ensures StrLe(e.name, ([e] + s)[j].name) {
        if j > 1 { StrLeTransitive(e.name, s[0].name, s[j - 1].name); }
      }
    }
  }

  lemma InsertBehindSorted(e: Entry, s: seq<Entry>, rest: seq<Entry>)
    requires s != [] && StrLe(s[0].name, e.name)
    requires multiset(rest) == multiset(s[1..]) + multiset{e}
    requires SortedByName(s[1..]) ==> SortedByName(rest)
    ensures SortedByName(s) ==> SortedByName([s[0]] + rest)
  {
    if SortedByName(s) {
      assert SortedByName(s[1..]);
      forall j | 0 <= j < |rest| ensures StrLe(s[0].name, rest[j].name) {
        assert rest[j] in multiset(rest);
        if rest[j] != e {
          assert rest[j] in multiset(s[1..]);
          var i :| 0 <= i < |s[1..]| && s[1..][i] == rest[j];
          assert s[i + 1] == rest[j];
        }
      }
    }
  }

  /** `sorted` on the listing, by name. */
  function SortByName(s: seq<Entry>): (r: seq<Entry>)
    ensures multiset(r) == multiset(s)
    ensures SortedByName(r)
  {
    if s == [] then []
    else
      assert s == [s[0]] + s[1..];
      Insert(s[0], SortByName(s[1..]))
  }

  /** Scanning a listing sorted by name gives names in sorted order. */
  lemma {:induction false} ScanOfSorted(s: seq<Entry>, keep: Entry -> bool)
    requires SortedByName(s)
    ensures SortedNames(Scan(s, keep))
  {
    if s != [] {
      var p := s[..|s| - 1];
      var last := s[|s| - 1];
      ScanOfSorted(p, keep);
      var r := Scan(p, keep);
      if keep(last) {
        forall i | 0 <= i < |r| ensures StrLe(r[i], last.name) {
          ScanMembership(p, keep, r[i]);
          var e :| e in p && keep(e) && e.name == r[i];
          var k :| 0 <= k < |p| && p[k] == e;
          assert s[k] == e;
        }
        assert forall i, j :: 0 <= i < j < |r + [last.name]| ==> StrLe((r + [last.name])[i], (r + [last.name])[j]) by {
          forall i, j | 0 <= i < j < |r| + 1 ensures StrLe((r + [last.name])[i], (r + [last.name])[j]) {
            if j < |r| { assert (r + [last.name])[i] == r[i] && (r + [last.name])[j] == r[j]; }
          }
        }
      } else {
        assert Scan(s, keep) == r;
      }
    }
  }
}
