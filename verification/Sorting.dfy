/** Byte order on strings, and why sorting decides set and multiset equality. */
module Sorting {

  /** Strictly before in byte order. */
  predicate Less(a: string, b: string) {
    b != "" && (a == "" || a[0] < b[0] || (a[0] == b[0] && Less(a[1..], b[1..])))
  }

  lemma {:induction false} LessTrans(a: string, b: string, c: string)
    requires Less(a, b) && Less(b, c)
    ensures Less(a, c)
  {
    if a != "" && a[0] == b[0] && b[0] == c[0] { LessTrans(a[1..], b[1..], c[1..]); }
  }

  lemma {:induction false} LessTotal(a: string, b: string)
    ensures a == b || Less(a, b) || Less(b, a)
    ensures !(Less(a, b) && Less(b, a)) && !Less(a, a)
  {
    if a != "" { LessTotal(a[1..], a[1..]); }
    if a != "" && b != "" && a[0] == b[0] {
      LessTotal(a[1..], b[1..]);
      if a[1..] == b[1..] { assert a == [a[0]] + a[1..] && b == [b[0]] + b[1..]; }
    }
  }

  predicate Ordered(s: seq<string>) {
    forall i, j :: 0 <= i < j < |s| ==> !Less(s[j], s[i])
  }

  function Insert(x: string, s: seq<string>): seq<string> {
    if s == [] || Less(x, s[0]) then [x] + s else [s[0]] + Insert(x, s[1..])
  }

  /** What the sorting library leaves: the same strings in byte order. */
  function Sort(s: seq<string>): seq<string> {
    if s == [] then [] else Insert(s[0], Sort(s[1..]))
  }

  lemma {:induction false} InsertSorts(x: string, s: seq<string>)
    requires Ordered(s)
    ensures Ordered(Insert(x, s)) && multiset(Insert(x, s)) == multiset(s) + multiset{x}
  {
    if s == [] {
    } else if Less(x, s[0]) {
      forall j | 0 <= j < |s| ensures !Less(s[j], x) {
        LessTotal(s[0], s[j]);
        if s[0] != s[j] { LessTrans(x, s[0], s[j]); }
        LessTotal(x, s[j]);
      }
    } else {
      var rest := Insert(x, s[1..]);
      InsertSorts(x, s[1..]);
      assert s == [s[0]] + s[1..];
      forall j | 0 <= j < |rest| ensures !Less(rest[j], s[0]) {
        assert rest[j] in multiset(rest);
        assert rest[j] == x || rest[j] in s[1..];
      }
    }
  }

  lemma {:induction false} SortSorts(s: seq<string>)
    ensures Ordered(Sort(s)) && multiset(Sort(s)) == multiset(s)
  {
    if s != [] {
      SortSorts(s[1..]);
      InsertSorts(s[0], Sort(s[1..]));
      assert s == [s[0]] + s[1..];
    }
  }

  lemma HeadIsFirst(a: seq<string>, x: string)
    requires Ordered(a) && x in a
    ensures !Less(x, a[0])
  {
    LessTotal(x, x);
  }

  lemma SameHead(a: seq<string>, b: seq<string>)
    requires Ordered(a) && Ordered(b) && a != [] && b != [] && a[0] in b && b[0] in a
    ensures a[0] == b[0]
  {
    HeadIsFirst(a, b[0]);
    HeadIsFirst(b, a[0]);
    LessTotal(a[0], b[0]);
  }

  /** Sorted lists of the same strings are the same list. */
  lemma {:induction false} OrderedUnique(a: seq<string>, b: seq<string>)
    requires Ordered(a) && Ordered(b) && multiset(a) == multiset(b)
    ensures a == b
  {
    hide Less;
    assert |a| == |multiset(a)| == |multiset(b)| == |b|;
    if a != [] {
      assert a[0] in multiset(b) && b[0] in multiset(a);
      SameHead(a, b);
      assert a == [a[0]] + a[1..] && b == [b[0]] + b[1..];
      assert multiset(a[1..]) == multiset(a) - multiset{a[0]};
      assert multiset(b[1..]) == multiset(b) - multiset{a[0]};
      OrderedUnique(a[1..], b[1..]);
    }
  }

  // ── sets of names ───────────────────────────────────────────────────────────────────

  lemma {:induction false} FirstExists(s: set<string>) returns (m: string)
    requires s != {}
    ensures m in s && forall x :: x in s ==> !Less(x, m)
  {
    m :| m in s;
    LessTotal(m, m);
    if s != {m} {
      var rest := s - {m};
      var n := FirstExists(rest);
      LessTotal(m, n);
      if Less(n, m) {
        m := n;
      } else {
        forall x | x in s ensures !Less(x, m) {
          LessTotal(x, m);
          if x != m && Less(x, m) {
            if m != n { LessTrans(x, m, n); }
          }
        }
      }
    }
  }

  function First(s: set<string>): (m: string)
    requires s != {}
    ensures m in s && forall x :: x in s ==> !Less(x, m)
  {
    assert exists m :: m in s && forall x :: x in s ==> !Less(x, m) by {
      var m := FirstExists(s);
    }
    assert forall m, n ::
        m in s && n in s && (forall x :: x in s ==> !Less(x, m)) && (forall x :: x in s ==> !Less(x, n)) ==> m == n
    by {
      forall m, n | m in s && n in s && (forall x :: x in s ==> !Less(x, m)) && (forall x :: x in s ==> !Less(x, n))
        ensures m == n
      {
        LessTotal(m, n);
      }
    }
    var m :| m in s && forall x :: x in s ==> !Less(x, m);
    m
  }

  /** The names of a set in byte order, each once. */
  function Listed(s: set<string>): (r: seq<string>)
    ensures |r| == |s| && forall x :: x in s <==> x in r
    decreases |s|
  {
    if s == {} then [] else [First(s)] + Listed(s - {First(s)})
  }

  lemma {:induction false} ListedOrdered(s: set<string>)
    ensures Ordered(Listed(s))
    ensures forall i, j :: 0 <= i < j < |Listed(s)| ==> Listed(s)[i] != Listed(s)[j]
    decreases |s|
  {
    if s != {} {
      var rest := Listed(s - {First(s)});
      ListedOrdered(s - {First(s)});
      forall j | 0 <= j < |rest| ensures !Less(rest[j], First(s)) && rest[j] != First(s) {
        assert rest[j] in rest;
      }
    }
  }

  lemma {:induction false} ListedMultiset(s: set<string>)
    ensures multiset(Listed(s)) == multiset(s)
    decreases |s|
  {
    if s != {} {
      ListedMultiset(s - {First(s)});
      assert multiset(s) == multiset(s - {First(s)}) + multiset{First(s)};
    }
  }

  /** Collecting a map's keys in any order and sorting them lists them. */
  method SortedKeys<V>(m: map<string, V>) returns (names: seq<string>)
    ensures names == Listed(m.Keys)
  {
    var left, some := m.Keys, [];
    while left != {}
      invariant left <= m.Keys && multiset(some) == multiset(m.Keys - left)
      decreases |left|
    {
      var n :| n in left;
      assert m.Keys - (left - {n}) == (m.Keys - left) + {n};
      some, left := some + [n], left - {n};
    }
    assert m.Keys - {} == m.Keys;
    SortSorts(some);
    ListedOrdered(m.Keys);
    ListedMultiset(m.Keys);
    OrderedUnique(Sort(some), Listed(m.Keys));
    names := Sort(some);
  }
}
