/** A fleet delivery's groups: which requests are accepted, which paths an accepted delivery
    writes, and which names it owns on the volume. */
module FleetGroups {
  import opened Wrappers

  datatype Requested = Requested(subdir: string, bundle: seq<string>, certs: seq<string>)
  datatype Group = Group(subdir: string, bundle: seq<string>, certs: seq<string>)

  /** The certificates and authorities the store knows: id to name, id to whether it is staged. */
  datatype Known = Known(certs: map<string, string>, staged: map<string, bool>)

  datatype Answer = Accepted(groups: seq<Group>) | Refused(code: string)

  predicate SubdirChar(c: char) { 'a' <= c <= 'z' || '0' <= c <= '9' || c == '-' }

  predicate ValidSubdir(s: string) {
    1 <= |s| <= 64 && (forall i :: 0 <= i < |s| ==> SubdirChar(s[i])) && s[0] != '-' && s[|s| - 1] != '-'
  }

  // ── acceptance ──────────────────────────────────────────────────────────────────────

  /** The certificates a group carries: empty slots and repeats within the group drop out. */
  function Carried(certs: seq<string>): (r: seq<string>)
    ensures forall c :: c in r <==> c in certs && c != ""
    ensures forall i, j :: 0 <= i < j < |r| ==> r[i] != r[j]
  {
    if certs == [] then []
    else
      var init, last := Carried(certs[..|certs| - 1]), certs[|certs| - 1];
      assert certs == certs[..|certs| - 1] + [last];
      if last == "" || last in init then init else init + [last]
  }

  function GroupOf(r: Requested): Group { Group(r.subdir, r.bundle, Carried(r.certs)) }

  function GroupsOf(reqs: seq<Requested>): seq<Group> {
    seq(|reqs|, i requires 0 <= i < |reqs| => GroupOf(reqs[i]))
  }

  /** One group on its own: a legal place, selectable roots, known certificates with distinct names. */
  ghost predicate GroupOK(k: Known, g: Group) {
    && (g.subdir == "" || ValidSubdir(g.subdir))
    && (forall a :: a in g.bundle ==> a in k.staged && !k.staged[a])
    && (forall c :: c in g.certs ==> c in k.certs)
    && (forall i, j :: 0 <= i < j < |g.certs| ==> k.certs[g.certs[i]] != k.certs[g.certs[j]])
  }

  /** And against each other: one list per directory, one place per certificate. */
  ghost predicate Apart(gs: seq<Group>) {
    && (forall i, j :: 0 <= i < j < |gs| ==> gs[i].subdir != gs[j].subdir)
    && (forall i, j, c :: 0 <= i < j < |gs| && c in gs[i].certs ==> c !in gs[j].certs)
  }

  ghost predicate AllOK(k: Known, gs: seq<Group>) {
    Apart(gs) && forall i :: 0 <= i < |gs| ==> GroupOK(k, gs[i])
  }

  /** What the loop remembers of the groups accepted so far. */
  ghost predicate Remembers(gs: seq<Group>, subdirs: set<string>, placed: map<string, string>) {
    && (forall d :: d in subdirs <==> exists g :: g in gs && g.subdir == d)
    && (forall c :: c in placed <==> exists g :: g in gs && c in g.certs)
  }

  /** What a refusal's code says of the request, at its i-th group. */
  ghost predicate Because(k: Known, reqs: seq<Requested>, i: nat, code: string)
    requires i < |reqs|
  {
    var r := reqs[i];
    match code
    case "bad_subdir" => r.subdir != "" && !ValidSubdir(r.subdir)
    case "duplicate_subdir" => exists j :: 0 <= j < i && reqs[j].subdir == r.subdir
    case "no_such_ca" => exists a :: a in r.bundle && a !in k.staged
    case "staged_ca" => exists a :: a in r.bundle && a in k.staged && k.staged[a]
    case "cert_in_two_groups" => exists j, c :: 0 <= j < i && c in reqs[j].certs && c in r.certs && c != ""
    case "no_such_cert" => exists c :: c in r.certs && c != "" && c !in k.certs
    case "name_collision" =>
      exists c, d :: c in r.certs && d in r.certs && c != "" && d != "" && c != d && c in k.certs && d in k.certs
                     && k.certs[c] == k.certs[d]
    case _ => false
  }

  /** Validates a requested group set, stopping at the first refusal. */
  method Resolve(k: Known, reqs: seq<Requested>) returns (a: Answer)
    ensures a.Accepted? <==> reqs != [] && AllOK(k, GroupsOf(reqs))
    ensures a.Accepted? ==> a.groups == GroupsOf(reqs)
    ensures a.Refused? ==> if reqs == [] then a.code == "no_groups"
                           else exists i: nat :: i < |reqs| && Because(k, reqs, i, a.code)
  {
    hide Carried, CertsOK, AllOK, GroupOK, Remembers, ValidSubdir;
    if reqs == [] { return Refused("no_groups"); }
    var out: seq<Group>, subdirs: set<string>, placed: map<string, string> := [], {}, map[];
    ghost var all := GroupsOf(reqs);
    NoneYet(k);
    for i := 0 to |reqs|
      invariant out == all[..i] && AllOK(k, out) && Remembers(out, subdirs, placed)
    {
      var rg := reqs[i];
      var g := GroupOf(rg);
      assert all[i] == g;
      OneMore(k, all, i, subdirs, placed);
      if rg.subdir != "" && !ValidSubdir(rg.subdir) {
        assert Because(k, reqs, i, "bad_subdir");
        return Refused("bad_subdir");
      }
      if rg.subdir in subdirs {
        SubdirTaken(k, reqs, i, subdirs, placed);
        return Refused("duplicate_subdir");
      }
      var refusal := CheckBundle(k, rg.bundle);
      if refusal.Some? {
        assert Because(k, reqs, i, refusal.value);
        return Refused(refusal.value);
      }
      var certs, code := CheckCerts(k, rg.certs, placed);
      if code != "" {
        CertTaken(k, reqs, i, subdirs, placed, code);
        return Refused(code);
      }
      subdirs := subdirs + {rg.subdir};
      placed := placed + map c | c in certs :: rg.subdir;
      out := out + [Group(rg.subdir, rg.bundle, certs)];
      assert all[..i + 1] == all[..i] + [g];
    }
    assert all[..|reqs|] == all;
    a := Accepted(out);
  }

  lemma SubdirTaken(k: Known, reqs: seq<Requested>, i: nat, subdirs: set<string>, placed: map<string, string>)
    requires i < |reqs| && Remembers(GroupsOf(reqs)[..i], subdirs, placed) && reqs[i].subdir in subdirs
    ensures Because(k, reqs, i, "duplicate_subdir")
  {
    var g :| g in GroupsOf(reqs)[..i] && g.subdir == reqs[i].subdir;
    var j :| 0 <= j < i && GroupsOf(reqs)[j] == g;
    assert reqs[j].subdir == reqs[i].subdir;
  }

  lemma CertTaken(k: Known, reqs: seq<Requested>, i: nat, subdirs: set<string>, placed: map<string, string>,
                  code: string)
    requires i < |reqs| && Remembers(GroupsOf(reqs)[..i], subdirs, placed)
    requires CertsBecause(k, reqs[i].certs, placed, code)
    ensures Because(k, reqs, i, code)
  {
    if code == "cert_in_two_groups" {
      var c :| c in reqs[i].certs && c != "" && c in placed;
      var g :| g in GroupsOf(reqs)[..i] && c in g.certs;
      var j :| 0 <= j < i && GroupsOf(reqs)[j] == g;
      assert c in reqs[j].certs;
    }
  }

  lemma NoneYet(k: Known)
    ensures AllOK(k, []) && Remembers([], {}, map[])
  {
  }

  /** One more group is acceptable exactly when the loop's four questions are answered well;
      and no later group can make up for one that is not. */
  lemma OneMore(k: Known, all: seq<Group>, i: nat, subdirs: set<string>, placed: map<string, string>)
    requires i < |all| && AllOK(k, all[..i]) && Remembers(all[..i], subdirs, placed)
    ensures var g := all[i];
      var good := (g.subdir == "" || ValidSubdir(g.subdir)) && g.subdir !in subdirs
                  && (forall a :: a in g.bundle ==> a in k.staged && !k.staged[a]) && CertsOK(k, g.certs, placed);
      && (!good ==> !AllOK(k, all))
      && (good ==>
           && AllOK(k, all[..i] + [g])
           && Remembers(all[..i] + [g], subdirs + {g.subdir}, placed + map c | c in g.certs :: g.subdir))
  {
    var g, out := all[i], all[..i];
    if CertsOK(k, g.certs, placed) && g.subdir !in subdirs {
      if (g.subdir == "" || ValidSubdir(g.subdir)) && forall a :: a in g.bundle ==> a in k.staged && !k.staged[a] {
        Extends(k, out, out + [g]);
        RemembersMore(out, g, subdirs, placed);
      } else {
        assert !GroupOK(k, g);
      }
    } else if !CertsOK(k, g.certs, placed) {
      Misplaced(k, all, i, out, placed);
    } else {
      var h :| h in out && h.subdir == g.subdir;
      var j :| 0 <= j < i && all[j] == h;
      assert all[j].subdir == all[i].subdir;
    }
  }

  lemma RemembersMore(out: seq<Group>, g: Group, subdirs: set<string>, placed: map<string, string>)
    requires Remembers(out, subdirs, placed)
    ensures Remembers(out + [g], subdirs + {g.subdir}, placed + map c | c in g.certs :: g.subdir)
  {
    var next := out + [g];
    assert forall h :: h in next <==> h in out || h == g;
  }

  method CheckBundle(k: Known, bundle: seq<string>) returns (refusal: Option<string>)
    ensures refusal.None? <==> forall a :: a in bundle ==> a in k.staged && !k.staged[a]
    ensures refusal.Some? ==> refusal.value in {"no_such_ca", "staged_ca"}
    ensures refusal == Some("no_such_ca") ==> exists a :: a in bundle && a !in k.staged
    ensures refusal == Some("staged_ca") ==> exists a :: a in bundle && a in k.staged && k.staged[a]
  {
    for i := 0 to |bundle|
      invariant forall j :: 0 <= j < i ==> bundle[j] in k.staged && !k.staged[bundle[j]]
    {
      if bundle[i] !in k.staged { return Some("no_such_ca"); }
      if k.staged[bundle[i]] { return Some("staged_ca"); }
    }
    refusal := None;
  }

  /** The certificates of one group in order, against those already placed elsewhere. */
  method CheckCerts(k: Known, certs: seq<string>, placed: map<string, string>) returns (out: seq<string>, code: string)
    ensures code == "" <==> CertsOK(k, Carried(certs), placed)
    ensures code == "" ==> out == Carried(certs)
    ensures code != "" ==> CertsBecause(k, certs, placed, code)
  {
    var byFilename: map<string, string> := map[];
    out := [];
    for i := 0 to |certs|
      invariant out == Carried(certs[..i]) && CertsOK(k, out, placed)
      invariant forall n :: n in byFilename <==> exists c :: c in out && k.certs[c] == n
    {
      var id := certs[i];
      assert certs[..i + 1][..i] == certs[..i] && |certs[..i + 1]| == i + 1;
      if id == "" || id in out { continue; }
      CarriedGrows(certs, i);
      if id in placed { return out, "cert_in_two_groups"; }
      if id !in k.certs { return out, "no_such_cert"; }
      if k.certs[id] in byFilename {
        Clash(k, out, id, Carried(certs), placed);
        return out, "name_collision";
      }
      byFilename := byFilename[k.certs[id] := id];
      out := out + [id];
    }
    assert certs[..|certs|] == certs;
    code := "";
  }

  ghost predicate CertsBecause(k: Known, certs: seq<string>, placed: map<string, string>, code: string) {
    match code
    case "cert_in_two_groups" => exists c :: c in certs && c != "" && c in placed
    case "no_such_cert" => exists c :: c in certs && c != "" && c !in k.certs
    case "name_collision" =>
      exists c, d :: c in certs && d in certs && c != "" && d != "" && c != d && c in k.certs && d in k.certs
                     && k.certs[c] == k.certs[d]
    case _ => false
  }

  ghost predicate CertsOK(k: Known, certs: seq<string>, placed: map<string, string>) {
    && (forall c :: c in certs ==> c in k.certs && c !in placed)
    && (forall i, j :: 0 <= i < j < |certs| ==> k.certs[certs[i]] != k.certs[certs[j]])
  }

  lemma {:induction false} CarriedGrows(certs: seq<string>, i: nat)
    requires i < |certs|
    ensures Carried(certs[..i]) <= Carried(certs) && Carried(certs[..i + 1]) <= Carried(certs)
    decreases |certs| - i
  {
    assert certs[..i + 1][..i] == certs[..i];
    if i + 1 < |certs| {
      CarriedGrows(certs, i + 1);
    } else {
      assert certs[..i + 1] == certs;
    }
  }

  lemma Clash(k: Known, out: seq<string>, id: string, all: seq<string>, placed: map<string, string>)
    requires out + [id] <= all && id in k.certs && id !in out
    requires (forall c :: c in out ==> c in k.certs) && exists c :: c in out && k.certs[c] == k.certs[id]
    ensures !CertsOK(k, all, placed)
  {
    var c :| c in out && k.certs[c] == k.certs[id];
    var i :| 0 <= i < |out| && out[i] == c;
    assert all[i] == c && all[|out|] == id;
  }

  lemma Misplaced(k: Known, all: seq<Group>, i: nat, out: seq<Group>, placed: map<string, string>)
    requires i < |all| && out == all[..i] && forall c :: c in placed <==> exists g :: g in out && c in g.certs
    requires !CertsOK(k, all[i].certs, placed)
    ensures !AllOK(k, all)
  {
    assert forall g :: g in out ==> exists j :: 0 <= j < i && all[j] == g;
  }

  lemma Extends(k: Known, out: seq<Group>, next: seq<Group>)
    requires AllOK(k, out) && |next| == |out| + 1 && next[..|out|] == out
    requires GroupOK(k, next[|out|]) && (forall g :: g in out ==> g.subdir != next[|out|].subdir)
    requires forall g, c :: g in out && c in g.certs ==> c !in next[|out|].certs
    ensures AllOK(k, next)
  {
    assert forall i :: 0 <= i < |out| ==> next[i] == out[i] && out[i] in out;
  }

  // ── acceptance, said of the request itself ──────────────────────────────────────────

  /** One level of lower-case letters, digits and inner hyphens, or the top. */
  predicate Directory(s: string) {
    s == "" || (|s| <= 64 && s[0] != '-' && s[|s| - 1] != '-'
                && forall i :: 0 <= i < |s| ==> 'a' <= s[i] <= 'z' || '0' <= s[i] <= '9' || s[i] == '-')
  }

  /** What one requested group asks for is there and can be had, no two certificates of one name. */
  ghost predicate Available(k: Known, r: Requested) {
    && Directory(r.subdir)
    && (forall a :: a in r.bundle ==> a in k.staged && !k.staged[a])
    && (forall c :: c in r.certs && c != "" ==> c in k.certs)
    && (forall c, d :: c in r.certs && d in r.certs && c != "" && d != "" && c != d ==> k.certs[c] != k.certs[d])
  }

  ghost predicate Conflict(r: Requested, q: Requested) {
    r.subdir == q.subdir || exists c :: c in r.certs && c in q.certs && c != ""
  }

  /** A request is acceptable exactly when each group is available and no two conflict. */
  lemma AcceptedExactly(k: Known, reqs: seq<Requested>)
    ensures AllOK(k, GroupsOf(reqs)) <==>
            && (forall i :: 0 <= i < |reqs| ==> Available(k, reqs[i]))
            && (forall i, j :: 0 <= i < j < |reqs| ==> !Conflict(reqs[i], reqs[j]))
  {
    var gs := GroupsOf(reqs);
    forall i | 0 <= i < |reqs| ensures GroupOK(k, gs[i]) <==> Available(k, reqs[i]) { AvailableExactly(k, reqs[i]); }
    hide GroupOK, Available;
    if Apart(gs) {
      forall i, j | 0 <= i < j < |reqs| ensures !Conflict(reqs[i], reqs[j]) {
        assert gs[i].subdir != gs[j].subdir && forall c :: c in gs[i].certs ==> c !in gs[j].certs;
      }
    }
    if forall i, j :: 0 <= i < j < |reqs| ==> !Conflict(reqs[i], reqs[j]) {
      forall i, j | 0 <= i < j < |gs|
        ensures gs[i].subdir != gs[j].subdir && forall c :: c in gs[i].certs ==> c !in gs[j].certs
      {
        assert !Conflict(reqs[i], reqs[j]);
      }
    }
  }

  lemma AvailableExactly(k: Known, r: Requested)
    ensures GroupOK(k, GroupOf(r)) <==> Available(k, r)
  {
    hide Carried;
    var g := GroupOf(r);
    assert forall c :: c in g.certs <==> c in r.certs && c != "";
    if GroupOK(k, g) {
      forall c, d | c in r.certs && d in r.certs && c != "" && d != "" && c != d ensures k.certs[c] != k.certs[d] {
        var i :| 0 <= i < |g.certs| && g.certs[i] == c;
        var j :| 0 <= j < |g.certs| && g.certs[j] == d;
        assert i < j || j < i;
      }
    }
    if Available(k, r) {
      assert forall c :: c in g.certs ==> c in k.certs;
      forall i, j | 0 <= i < j < |g.certs| ensures k.certs[g.certs[i]] != k.certs[g.certs[j]] {
        assert g.certs[i] in g.certs && g.certs[j] in g.certs && g.certs[i] != g.certs[j];
      }
    }
  }

  /** And it is accepted as asked for: each group's directory and its own bundle, and its certificates
      once each, in the order they were first named. */
  lemma AcceptedAsAsked(reqs: seq<Requested>, i: nat, p: nat, q: nat)
    requires i < |reqs|
    ensures var g := GroupsOf(reqs)[i];
      && |GroupsOf(reqs)| == |reqs| && g.subdir == reqs[i].subdir && g.bundle == reqs[i].bundle
      && (forall c :: c in g.certs <==> c in reqs[i].certs && c != "")
      && (p < q < |g.certs| ==> FirstNamed(reqs[i].certs, g.certs[p], g.certs[q]))
  {
    if p < q < |Carried(reqs[i].certs)| { CarriedOrder(reqs[i].certs, p, q); }
  }

  /** c is named before d ever is. */
  ghost predicate FirstNamed(certs: seq<string>, c: string, d: string) {
    exists n :: 0 <= n <= |certs| && c in certs[..n] && d !in certs[..n]
  }

  lemma {:induction false} CarriedOrder(certs: seq<string>, p: nat, q: nat)
    requires p < q < |Carried(certs)|
    ensures FirstNamed(certs, Carried(certs)[p], Carried(certs)[q])
    decreases |certs|
  {
    var most := certs[..|certs| - 1];
    var r := Carried(certs);
    if q < |Carried(most)| {
      CarriedOrder(most, p, q);
      var n :| 0 <= n <= |most| && r[p] in most[..n] && r[q] !in most[..n];
      assert most[..n] == certs[..n];
    } else {
      assert r[q] !in most && certs[..|most|] == most;
      assert r[p] == Carried(most)[p] && r[p] in most;
    }
  }

  // ── the paths an accepted delivery writes ───────────────────────────────────────────

  function Prefix(g: Group): string { if g.subdir == "" then "" else g.subdir + "/" }

  /** One file of a delivery: the group's bundle, or one half of a carried certificate. */
  datatype Slot = Bundle(group: nat) | Crt(group: nat, cert: string) | Key(group: nat, cert: string)

  ghost predicate SlotIn(gs: seq<Group>, s: Slot) {
    s.group < |gs| && (s.Bundle? || s.cert in gs[s.group].certs)
  }

  function PathOf(k: Known, gs: seq<Group>, s: Slot): string
    requires s.group < |gs| && (!s.Bundle? ==> s.cert in k.certs)
  {
    Prefix(gs[s.group]) + FileOf(k, s)
  }

  /** A certificate's name is one path element. */
  ghost predicate PlainNames(k: Known) {
    forall c :: c in k.certs ==> k.certs[c] != "" && '/' !in k.certs[c]
  }

  lemma SubdirIsPlain(g: Group)
    requires g.subdir == "" || ValidSubdir(g.subdir)
    ensures '/' !in g.subdir
  {
    assert !SubdirChar('/');
  }

  function Slash(p: string): (i: nat)
    ensures i <= |p| && (forall j :: 0 <= j < i ==> p[j] != '/') && (i < |p| ==> p[i] == '/')
  {
    if p == "" || p[0] == '/' then 0 else 1 + Slash(p[1..])
  }

  function Joined(dir: string, file: string): string { (if dir == "" then "" else dir + "/") + file }

  lemma SlashAt(dir: string, file: string)
    requires '/' !in dir && '/' !in file
    ensures Slash(Joined(dir, file)) == if dir == "" then |file| else |dir|
  {
    var p := Joined(dir, file);
    if dir == "" { assert p == file; } else { assert p[..|dir|] == dir && p[|dir|] == '/'; }
  }

  /** A path splits in one way into a directory and a file name. */
  lemma SplitOnce(a: string, x: string, b: string, y: string)
    requires '/' !in a && '/' !in b && '/' !in x && '/' !in y && Joined(a, x) == Joined(b, y)
    ensures a == b && x == y
  {
    SlashAt(a, x);
    SlashAt(b, y);
    var p := Joined(a, x);
    assert a == "" <==> |p| == Slash(p);
    assert b == "" <==> |p| == Slash(p);
    if a != "" { assert a == p[..Slash(p)] == b && x == p[Slash(p) + 1..] == y; } else { assert x == p == y; }
  }

  function FileOf(k: Known, s: Slot): string
    requires !s.Bundle? ==> s.cert in k.certs
  {
    match s
    case Bundle(_) => "ca-bundle.crt"
    case Crt(_, c) => k.certs[c] + ".crt"
    case Key(_, c) => k.certs[c] + ".key"
  }

  lemma SameFile(k: Known, s: Slot, t: Slot)
    requires (!s.Bundle? ==> s.cert in k.certs) && (!t.Bundle? ==> t.cert in k.certs)
    requires FileOf(k, s) == FileOf(k, t)
    ensures s.Key? <==> t.Key?
    ensures !s.Bundle? && !t.Bundle? ==> k.certs[s.cert] == k.certs[t.cert]
    ensures s.Crt? && t.Bundle? ==> k.certs[s.cert] == "ca-bundle"
    ensures t.Crt? && s.Bundle? ==> k.certs[t.cert] == "ca-bundle"
  {
    var f := FileOf(k, s);
    assert "ca-bundle.crt" == "ca-bundle" + ".crt";
    var n := |f| - 4;
    assert f[n..] == if s.Key? then ".key" else ".crt";
    assert f[n..] == if t.Key? then ".key" else ".crt";
    assert f[..n] == if s.Bundle? then "ca-bundle" else k.certs[s.cert];
    assert f[..n] == if t.Bundle? then "ca-bundle" else k.certs[t.cert];
  }

  /** Accepted groups write every path once, unless a carried certificate is called ca-bundle. */
  lemma PathsDistinct(k: Known, gs: seq<Group>, s: Slot, t: Slot)
    requires AllOK(k, gs) && PlainNames(k) && SlotIn(gs, s) && SlotIn(gs, t) && s != t
    requires PathOf(k, gs, s) == PathOf(k, gs, t)
    ensures s.group == t.group
    ensures (s.Bundle? && t.Crt? && k.certs[t.cert] == "ca-bundle")
            || (t.Bundle? && s.Crt? && k.certs[s.cert] == "ca-bundle")
  {
    hide FileOf, PlainNames, ValidSubdir;
    var g, h := gs[s.group], gs[t.group];
    SubdirIsPlain(g);
    SubdirIsPlain(h);
    FileIsPlain(k, s);
    FileIsPlain(k, t);
    SplitOnce(g.subdir, FileOf(k, s), h.subdir, FileOf(k, t));
    SameFile(k, s, t);
    assert GroupOK(k, g);
  }

  lemma FileIsPlain(k: Known, s: Slot)
    requires PlainNames(k) && (!s.Bundle? ==> s.cert in k.certs)
    ensures '/' !in FileOf(k, s)
  {
  }

  /** Conversely a certificate called ca-bundle and its group's bundle want the same path. */
  lemma BundleClash(k: Known, gs: seq<Group>, i: nat, c: string)
    requires i < |gs| && c in gs[i].certs && c in k.certs && k.certs[c] == "ca-bundle"
    ensures PathOf(k, gs, Bundle(i)) == PathOf(k, gs, Crt(i, c))
  {
    assert "ca-bundle" + ".crt" == "ca-bundle.crt";
  }

  // ── the names it owns ───────────────────────────────────────────────────────────────

  const MANIFEST := ".daffa-fleet-manifest"

  function OwnedBy(k: Known, g: Group, certs: seq<string>): set<string> {
    if certs == [] then {Prefix(g) + "ca-bundle.crt"}
    else OwnedBy(k, g, certs[1..]) +
         if certs[0] in k.certs then {Prefix(g) + k.certs[certs[0]] + ".crt", Prefix(g) + k.certs[certs[0]] + ".key"}
            else {}
  }

  /** What a volume source sharing the volume must not touch. */
  function Owned(k: Known, gs: seq<Group>): set<string> {
    if gs == [] then {MANIFEST} else OwnedBy(k, gs[0], gs[0].certs) + Owned(k, gs[1..])
  }

  lemma {:induction false} OwnsCert(k: Known, g: Group, certs: seq<string>, c: string)
    requires c in certs && c in k.certs
    ensures Prefix(g) + (k.certs[c] + ".crt") in OwnedBy(k, g, certs)
            && Prefix(g) + (k.certs[c] + ".key") in OwnedBy(k, g, certs)
  {
    if certs[0] == c {
      assert Prefix(g) + (k.certs[c] + ".crt") == Prefix(g) + k.certs[c] + ".crt";
      assert Prefix(g) + (k.certs[c] + ".key") == Prefix(g) + k.certs[c] + ".key";
    } else {
      OwnsCert(k, g, certs[1..], c);
    }
  }

  lemma {:induction false} OwnsBundle(k: Known, g: Group, certs: seq<string>)
    ensures Prefix(g) + "ca-bundle.crt" in OwnedBy(k, g, certs)
  {
    if certs != [] { OwnsBundle(k, g, certs[1..]); }
  }

  lemma {:induction false} OwnsGroup(k: Known, gs: seq<Group>, i: nat)
    requires i < |gs|
    ensures OwnedBy(k, gs[i], gs[i].certs) <= Owned(k, gs)
  {
    if i > 0 { OwnsGroup(k, gs[1..], i - 1); }
  }

  /** Every path an accepted delivery can write is one it owns. */
  lemma WritesOwned(k: Known, gs: seq<Group>, s: Slot)
    requires SlotIn(gs, s) && (!s.Bundle? ==> s.cert in k.certs)
    ensures PathOf(k, gs, s) in Owned(k, gs) && MANIFEST in Owned(k, gs)
  {
    var g := gs[s.group];
    OwnsGroup(k, gs, s.group);
    OwnsBundle(k, g, g.certs);
    if !s.Bundle? { OwnsCert(k, g, g.certs, s.cert); }
    OwnsManifest(k, gs);
  }

  /** And it owns nothing else: every owned name is its manifest or the path of one of its files. */
  lemma OwnedIsWritten(k: Known, gs: seq<Group>, p: string)
    requires p in Owned(k, gs)
    ensures p == ".daffa-fleet-manifest"
            || exists s :: SlotIn(gs, s) && (!s.Bundle? ==> s.cert in k.certs) && p == PathOf(k, gs, s)
  {
    if p != MANIFEST {
      var i := OwnedSomewhere(k, gs, p);
      var f := FileOwned(k, gs[i], gs[i].certs, p);
      var s := if f.None? then Bundle(i)
               else if p == Prefix(gs[i]) + (k.certs[f.value] + ".crt") then Crt(i, f.value) else Key(i, f.value);
      assert SlotIn(gs, s) && p == PathOf(k, gs, s);
    }
  }

  lemma {:induction false} OwnedSomewhere(k: Known, gs: seq<Group>, p: string) returns (i: nat)
    requires p in Owned(k, gs) && p != MANIFEST
    ensures i < |gs| && p in OwnedBy(k, gs[i], gs[i].certs)
  {
    if p in OwnedBy(k, gs[0], gs[0].certs) { return 0; }
    i := OwnedSomewhere(k, gs[1..], p);
    i := i + 1;
  }

  /** The certificate an owned name belongs to; none for the bundle. */
  lemma {:induction false} FileOwned(k: Known, g: Group, certs: seq<string>, p: string) returns (c: Option<string>)
    requires p in OwnedBy(k, g, certs)
    ensures if c.None? then p == Prefix(g) + "ca-bundle.crt"
            else c.value in certs && c.value in k.certs
                 && (p == Prefix(g) + (k.certs[c.value] + ".crt") || p == Prefix(g) + (k.certs[c.value] + ".key"))
  {
    if certs == [] { return None; }
    if p in OwnedBy(k, g, certs[1..]) {
      c := FileOwned(k, g, certs[1..], p);
    } else {
      c := Some(certs[0]);
      assert Prefix(g) + (k.certs[certs[0]] + ".crt") == Prefix(g) + k.certs[certs[0]] + ".crt";
      assert Prefix(g) + (k.certs[certs[0]] + ".key") == Prefix(g) + k.certs[certs[0]] + ".key";
    }
  }

  lemma {:induction false} OwnsManifest(k: Known, gs: seq<Group>)
    ensures MANIFEST in Owned(k, gs)
  {
    if gs != [] { OwnsManifest(k, gs[1..]); }
  }
}
