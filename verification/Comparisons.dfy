/** The three comparisons a manifest apply decides with: sort-and-compare on strings and on
    delivered certificates, and the one-directional check on inline files. */
module Comparisons {
  import opened ManifestModel
  import opened Sorting

  lemma SortDecides(a: seq<string>, b: seq<string>)
    ensures |Sort(a)| == |a| && |Sort(b)| == |b|
    ensures Sort(a) == Sort(b) <==> multiset(a) == multiset(b)
    ensures multiset(a) == multiset(b) ==> |a| == |b|
  {
    hide Less;
    SortSorts(a);
    SortSorts(b);
    assert |Sort(a)| == |multiset(Sort(a))| && |a| == |multiset(a)|;
    assert |Sort(b)| == |multiset(Sort(b))| && |b| == |multiset(b)|;
    if multiset(a) == multiset(b) { OrderedUnique(Sort(a), Sort(b)); }
  }

  /** Two lists are compared element by element after sorting. */
  method SortedAlike(a: seq<string>, b: seq<string>) returns (same: bool)
    ensures same <==> multiset(a) == multiset(b)
  {
    hide Sort;
    SortDecides(a, b);
    if |a| != |b| { return false; }
    var x, y := Sort(a), Sort(b);
    for i := 0 to |x|
      invariant forall j :: 0 <= j < i ==> x[j] == y[j]
    {
      if x[i] != y[i] { return false; }
    }
    assert x == y;
    return true;
  }

  // ── delivered certificates ──────────────────────────────────────────────────────────

  /** Ids written out. */
  function IdText(n: nat): (s: string)
    ensures s != "" && forall i :: 0 <= i < |s| ==> s[i] in "0123456789"
  {
    if n < 10 then ["0123456789"[n]] else IdText(n / 10) + ["0123456789"[n % 10]]
  }

  /** Reading an id back. */
  function IdOf(s: string): nat
    requires forall i :: 0 <= i < |s| ==> s[i] in "0123456789"
  {
    if s == "" then 0 else IdOf(s[..|s| - 1]) * 10 + (s[|s| - 1] as int - '0' as int)
  }

  lemma {:induction false} IdReads(n: nat)
    ensures IdOf(IdText(n)) == n
  {
    var s := IdText(n);
    if n < 10 {
      assert s[..0] == "" && IdOf("") == 0;
    } else {
      IdReads(n / 10);
      assert s[..|s| - 1] == IdText(n / 10);
    }
  }

  /** The text a certificate entry is sorted by. */
  function Key(c: Carried): string { IdText(c.certID) + "|" + (if c.isDefault then "true" else "false") }

  lemma KeyInjective(a: Carried, b: Carried)
    requires Key(a) == Key(b)
    ensures a == b
  {
    var k := Key(a);
    assert k[|k| - 1] == 'e' && |k| >= 5;
    assert k[|k| - 2] == (if a.isDefault then 'u' else 's');
    assert k[|k| - 2] == (if b.isDefault then 'u' else 's');
    var tail := "|" + (if a.isDefault then "true" else "false");
    assert IdText(a.certID) == k[..|k| - |tail|] == IdText(b.certID);
    IdReads(a.certID);
    IdReads(b.certID);
  }

  function Texts<T>(s: seq<T>, key: T -> string): seq<string> { seq(|s|, i requires 0 <= i < |s| => key(s[i])) }

  /** No two entries of these lists have the same text. */
  ghost predicate Tells<T>(key: T -> string, s: seq<T>) {
    forall i, j :: 0 <= i < |s| && 0 <= j < |s| && key(s[i]) == key(s[j]) ==> s[i] == s[j]
  }

  lemma {:induction false} TextsCount<T>(s: seq<T>, key: T -> string, x: T)
    requires forall i :: 0 <= i < |s| && key(s[i]) == key(x) ==> s[i] == x
    ensures multiset(Texts(s, key))[key(x)] == multiset(s)[x]
  {
    if s != [] {
      assert forall i :: 0 <= i < |s[1..]| ==> s[1..][i] == s[i + 1];
      TextsCount(s[1..], key, x);
      assert s == [s[0]] + s[1..];
      assert Texts(s, key) == [key(s[0])] + Texts(s[1..], key);
    }
  }

  /** Comparing the texts compares the entries, if texts tell entries apart. */
  lemma TextsDecide<T>(a: seq<T>, b: seq<T>, key: T -> string)
    requires Tells(key, a + b)
    ensures multiset(Texts(a, key)) == multiset(Texts(b, key)) <==> multiset(a) == multiset(b)
  {
    forall i | 0 <= i < |a + b|
      ensures multiset(Texts(a, key))[key((a + b)[i])] == multiset(a)[(a + b)[i]]
      ensures multiset(Texts(b, key))[key((a + b)[i])] == multiset(b)[(a + b)[i]]
    {
      assert forall j :: 0 <= j < |a| ==> (a + b)[j] == a[j];
      assert forall j :: 0 <= j < |b| ==> (a + b)[|a| + j] == b[j];
      TextsCount(a, key, (a + b)[i]);
      TextsCount(b, key, (a + b)[i]);
    }
    assert forall x :: x in a || x in b ==> x in a + b;
    if multiset(Texts(a, key)) == multiset(Texts(b, key)) {
      forall x | x in a + b ensures multiset(a)[x] == multiset(b)[x] {
        var i :| 0 <= i < |a + b| && (a + b)[i] == x;
        assert multiset(Texts(a, key))[key((a + b)[i])] == multiset(a)[x];
      }
    }
    if multiset(a) == multiset(b) {
      forall k | k in Texts(a, key) || k in Texts(b, key)
        ensures multiset(Texts(a, key))[k] == multiset(Texts(b, key))[k]
      {
        if k in Texts(a, key) {
          var i :| 0 <= i < |a| && Texts(a, key)[i] == k;
          assert (a + b)[i] == a[i];
        } else {
          var i :| 0 <= i < |b| && Texts(b, key)[i] == k;
          assert (a + b)[|a| + i] == b[i];
        }
      }
    }
  }

  method CertSetEqual(a: seq<Carried>, b: seq<Carried>) returns (same: bool)
    ensures same <==> multiset(a) == multiset(b)
  {
    forall x, y | Key(x) == Key(y) ensures x == y { KeyInjective(x, y); }
    TextsDecide(a, b, Key);
    if |a| != |b| {
      assert |multiset(a)| == |a| && |multiset(b)| == |b|;
      return false;
    }
    same := SortedAlike(Texts(a, Key), Texts(b, Key));
  }

  /** The same for the CAs of a bundle, by their ids. */
  method BundleEqual(a: seq<nat>, b: seq<nat>) returns (same: bool)
    ensures same <==> multiset(a) == multiset(b)
  {
    forall x: nat, y: nat | IdText(x) == IdText(y) ensures x == y {
      IdReads(x);
      IdReads(y);
    }
    var text := (n: nat) => IdText(n);
    TextsDecide(a, b, text);
    same := SortedAlike(Texts(a, text), Texts(b, text));
  }

  // ── inline files ────────────────────────────────────────────────────────────────────

  ghost predicate DistinctPaths(s: seq<VolFile>) {
    forall i, j :: 0 <= i < j < |s| ==> s[i].path != s[j].path
  }

  /** The volume a file list describes: the last file of a path wins. */
  function Files(s: seq<VolFile>): map<string, string> {
    if s == [] then map[] else Files(s[..|s| - 1])[s[|s| - 1].path := s[|s| - 1].content]
  }

  lemma {:induction false} FilesHas(s: seq<VolFile>)
    ensures forall f :: f in s ==> f.path in Files(s)
    ensures forall p :: p in Files(s) ==> VolFile(p, Files(s)[p]) in s
    ensures DistinctPaths(s) ==> |Files(s)| == |s| && forall f :: f in s ==> Files(s)[f.path] == f.content
  {
    if s != [] {
      var init, last := s[..|s| - 1], s[|s| - 1];
      assert s == init + [last];
      FilesHas(init);
      if DistinctPaths(s) {
        assert DistinctPaths(init);
        assert last.path !in Files(init);
        assert Files(s).Keys == Files(init).Keys + {last.path};
        assert |Files(s)| == |Files(s).Keys| && |Files(init)| == |Files(init).Keys|;
      }
    }
  }

  /** Lengths, then one direction only. */
  predicate SameFiles(a: seq<VolFile>, b: seq<VolFile>) {
    |a| == |b| && forall j :: 0 <= j < |b| ==> b[j].path in Files(a) && Files(a)[b[j].path] == b[j].content
  }

  /** With distinct paths that is equality of the volumes. */
  lemma OneDirection(a: seq<VolFile>, b: seq<VolFile>)
    requires DistinctPaths(a) && DistinctPaths(b)
    ensures SameFiles(a, b) <==> Files(a) == Files(b)
  {
    FilesHas(a);
    FilesHas(b);
    hide Files;
    assert |Files(a).Keys| == |Files(a)| && |Files(b).Keys| == |Files(b)|;
    if Files(a) == Files(b) {
      forall j | 0 <= j < |b| ensures b[j].path in Files(a) && Files(a)[b[j].path] == b[j].content {
        assert b[j] in b;
      }
    }
    if SameFiles(a, b) {
      assert Files(b).Keys <= Files(a).Keys;
      SubsetSameSize(Files(b).Keys, Files(a).Keys);
      assert Files(a) == Files(b);
    }
  }

  method VolFilesEqual(a: seq<VolFile>, b: seq<VolFile>) returns (same: bool)
    ensures same <==> SameFiles(a, b)
    ensures DistinctPaths(a) && DistinctPaths(b) ==> (same <==> Files(a) == Files(b))
  {
    if DistinctPaths(a) && DistinctPaths(b) { OneDirection(a, b); }
    hide DistinctPaths;
    if |a| != |b| { return false; }
    var byPath: map<string, string> := map[];
    for i := 0 to |a|
      invariant byPath == Files(a[..i])
    {
      byPath := byPath[a[i].path := a[i].content];
      assert a[..i + 1][..i] == a[..i] && |a[..i + 1]| == i + 1;
    }
    assert a[..|a|] == a;
    for i := 0 to |b|
      invariant forall j :: 0 <= j < i ==> b[j].path in byPath && byPath[b[j].path] == b[j].content
    {
      if b[i].path !in byPath || byPath[b[i].path] != b[i].content { return false; }
    }
    return true;
  }

  lemma {:induction false} SubsetSameSize(s: set<string>, t: set<string>)
    requires s <= t && |s| == |t|
    ensures s == t
  {
    assert |t - s| == |t| - |s|;
  }
}
