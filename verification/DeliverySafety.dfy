/** What a delivery promises a volume over whole runs: no orphaned key files, and no harm to writers
    whose manifest and files are others. */
module DeliverySafety {
  import opened Wrappers
  import opened Sorting
  import opened VolumeManifest
  import opened Delivery

  // ── what a list of steps does, path by path ─────────────────────────────────────────

  /** The last thing the steps did to a path, or what was there. */
  function At(before: Option<string>, steps: seq<Step>, p: string): Option<string>
    decreases steps
  {
    if steps == [] then before
    else
      var s := steps[0];
      At(if s.path != p then before else if s.Put? then Some(s.data) else None, steps[1..], p)
  }

  function Get(v: Volume, p: string): Option<string> { if p in v then Some(v[p]) else None }

  lemma {:induction false} PathByPath(v: Volume, steps: seq<Step>, p: string)
    ensures Get(DoAll(v, steps), p) == At(Get(v, p), steps, p)
    decreases |steps|
  {
    if steps != [] { PathByPath(Do(v, steps[0]), steps[1..], p); }
  }

  lemma {:induction false} AtSplit(before: Option<string>, a: seq<Step>, b: seq<Step>, p: string)
    ensures At(before, a + b, p) == At(At(before, a, p), b, p)
    decreases |a|
  {
    if a == [] {
      assert a + b == b;
    } else {
      assert (a + b)[0] == a[0] && (a + b)[1..] == a[1..] + b;
      AtSplit(if a[0].path != p then before else if a[0].Put? then Some(a[0].data) else None, a[1..], b, p);
    }
  }

  lemma {:induction false} AtUntouched(before: Option<string>, steps: seq<Step>, p: string)
    requires forall s :: s in steps ==> s.path != p
    ensures At(before, steps, p) == before
    decreases |steps|
  {
    if steps != [] { AtUntouched(before, steps[1..], p); }
  }

  lemma {:induction false} AtPuts(before: Option<string>, order: seq<string>, files: Volume, p: string)
    requires forall n :: n in order ==> n in files
    ensures At(before, Puts(order, files), p) == if p in order then Some(files[p]) else before
    decreases |order|
  {
    if order != [] {
      assert Puts(order, files)[1..] == Puts(order[1..], files);
      AtPuts(if order[0] == p then Some(files[p]) else before, order[1..], files, p);
    }
  }

  lemma {:induction false} AtDels(before: Option<string>, names: seq<string>, p: string)
    ensures At(before, Dels(names), p) == if p in names then None else before
    decreases |names|
  {
    if names != [] {
      assert Dels(names)[1..] == Dels(names[1..]);
      AtDels(if names[0] == p then None else before, names[1..], p);
    }
  }

  lemma {:induction false} StaleAre(prev: seq<string>, files: Volume, p: string)
    ensures p in Stale(prev, files) <==> p in prev && p !in files
  {
    if prev != [] { StaleAre(prev[1..], files, p); }
  }

  /** One successful sync, path by path: what is wanted, the new manifest, nothing that only the
      old manifest names, and everything else as it was. */
  lemma SuccessAt(v: Volume, own: string, text: string, order: seq<string>, files: Volume, f: Fault, p: string)
    requires Lists(order, files) && own !in files
    requires Succeeds(Steps(v, own, text, order, files), f)
    ensures Get(Synced(v, own, text, order, files, f), p) ==
            if p == own then Some(text)
            else if p in files then Some(files[p])
            else if p in Previous(v, own) then None
            else Get(v, p)
  {
    hide Parse;
    var a, b, c := Puts(order, files), Dels(Stale(Previous(v, own), files)), [Put(own, text)];
    PathByPath(v, a + b + c, p);
    AtSplit(Get(v, p), a + b, c, p);
    AtSplit(Get(v, p), a, b, p);
    AtPuts(Get(v, p), order, files, p);
    AtDels(At(Get(v, p), a, p), Stale(Previous(v, own), files), p);
    StaleAre(Previous(v, own), files, p);
    assert forall x: Option<string> :: At(x, c, p) == (if p == own then Some(text) else x) by {
      assert c[1..] == [];
    }
  }

  // ── every attempt, successful or not ────────────────────────────────────────────────

  function Written(steps: seq<Step>, own: string): set<string> {
    set s | s in steps && s.Put? && s.path != own :: s.path
  }

  lemma ExecutedAre(v: Volume, own: string, text: string, order: seq<string>, files: Volume, f: Fault)
    requires Lists(order, files)
    ensures var done := Executed(Steps(v, own, text, order, files), own, f);
      && (forall s :: s in done && s.Put? ==> s.path in files || s.path == own)
      && (forall s :: s in done && s.Del? ==> (s.path in Previous(v, own) && s.path !in files) || s.path == own)
  {
    hide Parse;
    var steps := Steps(v, own, text, order, files);
    forall s | s in steps
      ensures if s.Put? then s.path in files || s.path == own else s.path in Previous(v, own) && s.path !in files
    {
      if s.Del? { StaleAre(Previous(v, own), files, s.path); }
    }
    if f.readable && f.done < |steps| {
      assert steps[f.done] in steps;
      assert forall s :: s in steps[..f.done] ==> s in steps;
    }
  }

  /** Non-interference: an attempt, however it ends, changes only the manifest of its own, the
      files it is to write, and those its last manifest names. */
  lemma TouchesOwn(v: Volume, own: string, text: string, order: seq<string>, files: Volume, f: Fault, p: string)
    requires Lists(order, files) && p != own && p !in files && p !in Previous(v, own)
    ensures Get(Synced(v, own, text, order, files, f), p) == Get(v, p)
  {
    hide Parse, Steps;
    ExecutedAre(v, own, text, order, files, f);
    var done := Executed(Steps(v, own, text, order, files), own, f);
    PathByPath(v, done, p);
    AtUntouched(Get(v, p), done, p);
  }

  lemma EarlySteps(v: Volume, own: string, text: string, order: seq<string>, files: Volume, f: Fault)
    requires Lists(order, files) && own !in files && (f.readable ==> f.done < |order|)
    ensures forall s :: s in Executed(Steps(v, own, text, order, files), own, f) ==> s.path in files
  {
    hide Parse, Stale;
    if f.readable {
      var steps := Steps(v, own, text, order, files);
      assert forall i :: 0 <= i < |order| ==> steps[i] == Put(order[i], files[order[i]]) && order[i] in order;
    }
  }

  lemma LateSteps(v: Volume, own: string, text: string, order: seq<string>, files: Volume, f: Fault, n: string)
    requires Lists(order, files) && own !in files && f.readable && f.done >= |order| && n in files
    ensures Get(Synced(v, own, text, order, files, f), n) == Some(files[n])
  {
    hide Parse;
    var a := Puts(order, files);
    var b := Dels(Stale(Previous(v, own), files)) + [Put(own, text)];
    var steps := Steps(v, own, text, order, files);
    assert steps == a + b;
    var done := Executed(steps, own, f);
    var rest := done[|a|..];
    assert steps[..|a|] == a && done == a + rest;
    PathByPath(v, done, n);
    AtSplit(Get(v, n), a, rest, n);
    AtPuts(Get(v, n), order, files, n);
    hide Puts, Dels, Stale, Previous;
    assert forall s :: s in rest ==> s in b || s == Del(own);
    RestLeaves(rest, b, own, Previous(v, own), files, f, n);
    AtUntouched(At(Get(v, n), a, n), rest, n);
  }

  /** Content first: before every wanted file is there complete, an attempt has touched nothing but
      wanted files. */
  lemma ContentFirst(v: Volume, own: string, text: string, order: seq<string>, files: Volume, f: Fault, p: string,
                     n: string)
    requires Lists(order, files) && own !in files
    requires p !in files && n in files
    requires Get(Synced(v, own, text, order, files, f), p) != Get(v, p)
    ensures Get(Synced(v, own, text, order, files, f), n) == Some(files[n])
  {
    if f.readable && f.done >= |order| {
      LateSteps(v, own, text, order, files, f, n);
    } else {
      var done := Executed(Steps(v, own, text, order, files), own, f);
      EarlySteps(v, own, text, order, files, f);
      PathByPath(v, done, p);
      AtUntouched(Get(v, p), done, p);
    }
    hide Steps, Executed;
  }

  lemma RestLeaves(rest: seq<Step>, tail: seq<Step>, own: string, prev: seq<string>, files: Volume, f: Fault, n: string)
    requires n in files && own !in files && exists text :: tail == Dels(Stale(prev, files)) + [Put(own, text)]
    requires forall s :: s in rest ==> s in tail || s == Del(own)
    ensures forall s :: s in rest ==> s.path != n
  {
    var text :| tail == Dels(Stale(prev, files)) + [Put(own, text)];
    forall s | s in tail ensures s.path != n {
      if s != Put(own, text) { StaleAre(prev, files, s.path); }
    }
  }

  /** The manifest last: while a file only the old one names is still there, an attempt has left the
      manifest as it was. */
  lemma ManifestLast(v: Volume, own: string, text: string, order: seq<string>, files: Volume, f: Fault, p: string)
    requires Lists(order, files) && own !in files && own !in Previous(v, own)
    requires p in Previous(v, own) && p !in files
    requires Get(Synced(v, own, text, order, files, f), own) != Get(v, own)
    ensures p !in Synced(v, own, text, order, files, f)
  {
    hide Parse;
    var prev := Previous(v, own);
    var a, b, c := Puts(order, files), Dels(Stale(prev, files)), [Put(own, text)];
    var steps := a + b + c;
    var done := Executed(steps, own, f);
    PathByPath(v, done, own);
    PathByPath(v, done, p);
    assert |steps| == |a| + |b| + 1;
    if f.readable && f.done >= |a| + |b| {
      var rest := done[|a| + |b|..];
      assert steps[..|a| + |b|] == a + b && done == a + b + rest;
      assert forall s :: s in rest ==> s.path == own;
      AtSplit(Get(v, p), a + b, rest, p);
      AtSplit(Get(v, p), a, b, p);
      AtDels(At(Get(v, p), a, p), Stale(prev, files), p);
      StaleAre(prev, files, p);
      AtUntouched(None, rest, p);
    } else {
      BeforeTheEnd(v, own, text, order, files, f);
      AtUntouched(Get(v, own), done, own);
    }
  }

  lemma BeforeTheEnd(v: Volume, own: string, text: string, order: seq<string>, files: Volume, f: Fault)
    requires Lists(order, files) && own !in files && own !in Previous(v, own)
    requires f.readable ==> f.done + 1 < |Steps(v, own, text, order, files)|
    ensures forall s :: s in Executed(Steps(v, own, text, order, files), own, f) ==> s.path != own
  {
    hide Parse;
    var steps := Steps(v, own, text, order, files);
    forall i | 0 <= i < |steps| - 1 ensures steps[i].path != own {
      if i >= |order| { StaleAre(Previous(v, own), files, steps[i].path); } else { assert order[i] in order; }
    }
  }

  // ── interleaved writers ─────────────────────────────────────────────────────────────

  datatype Tagged = Tagged(mine: bool, step: Step)

  function Plain(all: seq<Tagged>): seq<Step> { seq(|all|, i requires 0 <= i < |all| => all[i].step) }

  function Mine(all: seq<Tagged>, mine: bool): seq<Step> {
    if all == [] then [] else (if all[0].mine == mine then [all[0].step] else []) + Mine(all[1..], mine)
  }

  /** Two writers whose paths are disjoint: in any interleaving of their steps, each finds every
      path of its own exactly as if the other had not run. */
  lemma {:induction false} InterleavingIsApart(before: Option<string>, all: seq<Tagged>, mine: bool, p: string)
    requires forall t :: t in all && t.mine != mine ==> t.step.path != p
    ensures At(before, Plain(all), p) == At(before, Mine(all, mine), p)
    decreases |all|
  {
    if all != [] {
      var t := all[0];
      assert Plain(all)[1..] == Plain(all[1..]);
      var next := if t.step.path != p then before else if t.step.Put? then Some(t.step.data) else None;
      InterleavingIsApart(next, all[1..], mine, p);
      assert Plain(all)[0] == t.step;
      if t.mine == mine {
        assert Mine(all, mine) == [t.step] + Mine(all[1..], mine);
        assert Mine(all, mine)[1..] == Mine(all[1..], mine);
      } else {
        assert Mine(all, mine) == Mine(all[1..], mine);
      }
    }
  }

  /** Hence any two interleavings of the same two writers leave the same volume. */
  lemma InterleavingsCommute(v: Volume, x: seq<Tagged>, y: seq<Tagged>, ours: set<string>, theirs: set<string>)
    requires ours !! theirs
    requires forall t :: t in x || t in y ==> t.step.path in (if t.mine then ours else theirs)
    requires Mine(x, true) == Mine(y, true) && Mine(x, false) == Mine(y, false)
    ensures DoAll(v, Plain(x)) == DoAll(v, Plain(y))
  {
    forall p: string ensures Get(DoAll(v, Plain(x)), p) == Get(DoAll(v, Plain(y)), p) {
      PathByPath(v, Plain(x), p);
      PathByPath(v, Plain(y), p);
      var mine := p !in theirs;
      InterleavingIsApart(Get(v, p), x, mine, p);
      InterleavingIsApart(Get(v, p), y, mine, p);
    }
    SameGets(DoAll(v, Plain(x)), DoAll(v, Plain(y)));
  }

  lemma SameGets(a: Volume, b: Volume)
    requires forall p :: Get(a, p) == Get(b, p)
    ensures a == b
  {
    assert forall p :: p in a <==> Get(a, p).Some?;
    assert forall p :: p in b <==> Get(b, p).Some?;
    assert forall p :: p in a ==> Get(a, p) == Some(a[p]);
  }

  // ── runs on one node ────────────────────────────────────────────────────────────────

  /** A sync of some desired files, or somebody else changing a file. */
  datatype Event =
    | Sync(files: Volume, hash: string, order: seq<string>, fault: Fault)
    | Outside(step: Step)

  /** The volume; what was written since the last commit; and everything ever written. */
  datatype Hist = Hist(v: Volume, pending: set<string>, written: set<string>)

  function ManifestText(e: Event): string
    requires e.Sync?
  {
    Render("", e.hash, Listed(e.files.Keys))
  }

  predicate Formed(own: string, e: Event) {
    e.Sync? ==> Lists(e.order, e.files) && own !in e.files && '\n' !in e.hash && forall n :: n in e.files ==> Proper(n)
  }

  function EventSteps(own: string, v: Volume, e: Event): seq<Step>
    requires Formed(own, e) && e.Sync?
  {
    Steps(v, own, ManifestText(e), e.order, e.files)
  }

  function Next(own: string, h: Hist, e: Event): Hist
    requires Formed(own, e)
  {
    match e
    case Outside(s) => h.(v := Do(h.v, s))
    case Sync(files, hash, order, fault) =>
      var steps := EventSteps(own, h.v, e);
      var done := Executed(steps, own, fault);
      var w := Written(done, own);
      Hist(DoAll(h.v, done), if Succeeds(steps, fault) then {} else h.pending + w, h.written + w)
  }

  /** Nothing written since the last commit is dropped before the next one, and nobody else touches
      what this delivery wrote or its manifest, as another certificate delivery on the volume would. */
  predicate Growing(own: string, h: Hist, e: Event) {
    match e
    case Sync(files, _, _, fault) => fault.readable ==> h.pending <= files.Keys
    case Outside(s) => s.path != own && s.path !in h.written
  }

  predicate Allowed(own: string, h: Hist, events: seq<Event>)
    decreases events
  {
    events == [] || (Formed(own, events[0]) && Growing(own, h, events[0])
                     && Allowed(own, Next(own, h, events[0]), events[1..]))
  }

  function Run(own: string, h: Hist, events: seq<Event>): Hist
    requires Allowed(own, h, events)
    decreases events
  {
    if events == [] then h else Run(own, Next(own, h, events[0]), events[1..])
  }

  /** Every file this delivery wrote and that is still there is either in the committed
      manifest or was written since. */
  ghost predicate Accounted(own: string, h: Hist) {
    && own !in h.written && h.pending <= h.written
    && (forall n :: n in Previous(h.v, own) ==> n in h.written)
    && (forall p :: p in h.v && p in h.written ==> p in Previous(h.v, own) || p in h.pending)
  }

  lemma {:induction false} AtNoPut(before: Option<string>, steps: seq<Step>, p: string)
    requires forall s :: s in steps && s.path == p ==> s.Del?
    ensures At(before, steps, p) == before || At(before, steps, p) == None
    decreases steps
  {
    if steps != [] { AtNoPut(if steps[0].path != p then before else None, steps[1..], p); }
  }

  lemma AllWritten(own: string, v: Volume, e: Event)
    requires Formed(own, e) && e.Sync?
    ensures forall n :: n in e.files ==> Put(n, e.files[n]) in Puts(e.order, e.files)
    ensures Written(EventSteps(own, v, e), own) == e.files.Keys
  {
    hide Parse, Render, Listed;
    var a, b, steps := Puts(e.order, e.files), Dels(Stale(Previous(v, own), e.files)), EventSteps(own, v, e);
    forall n | n in e.files ensures Put(n, e.files[n]) in a {
      var i :| 0 <= i < |e.order| && e.order[i] == n;
      assert a[i] == Put(n, e.files[n]);
    }
    assert forall s :: s in steps <==> s in a || s in b || s == Put(own, ManifestText(e));
    assert forall n :: n in e.files ==> Put(n, e.files[n]) in steps;
  }

  lemma CommittedNames(own: string, e: Event)
    requires Formed(own, e) && e.Sync?
    ensures forall n :: n in Parse(ManifestText(e)) <==> n in e.files
  {
    RoundTrip("", e.hash, Listed(e.files.Keys));
  }

  /** The files of a volume this delivery had nothing to do with. */
  function Foreign(own: string, v: Volume, written: set<string>): Volume {
    map p | p in v && p !in written && p != own :: v[p]
  }

  /** What a successful sync is to leave. */
  function Exactly(own: string, v: Volume, written: set<string>, e: Event): Volume
    requires e.Sync?
  {
    Foreign(own, v, written) + e.files + map[own := ManifestText(e)]
  }

  lemma ExactlyAt(own: string, v: Volume, written: set<string>, e: Event, p: string)
    requires e.Sync? && own !in e.files
    ensures Get(Exactly(own, v, written, e), p) ==
            if p == own then Some(ManifestText(e)) else if p in e.files then Some(e.files[p])
            else if p in written then None else Get(v, p)
  {
    hide Render, Listed;
  }

  /** After a sync that succeeded, exactly: the desired files, the manifest, and what this
      delivery never wrote. */
  lemma SuccessIsExact(own: string, h: Hist, e: Event)
    requires Accounted(own, h) && Formed(own, e) && e.Sync? && Succeeds(EventSteps(own, h.v, e), e.fault)
    requires h.pending <= e.files.Keys
    ensures Next(own, h, e) == Hist(Exactly(own, h.v, h.written + e.files.Keys, e), {}, h.written + e.files.Keys)
  {
    AllWritten(own, h.v, e);
    var h', written := Next(own, h, e), h.written + e.files.Keys;
    assert h'.v == Synced(h.v, own, ManifestText(e), e.order, e.files, e.fault);
    hide ManifestText, Exactly, Synced, Steps, Parse;
    forall p: string ensures Get(h'.v, p) == Get(Exactly(own, h.v, written, e), p) {
      SuccessAt(h.v, own, ManifestText(e), e.order, e.files, e.fault, p);
      ExactlyAt(own, h.v, written, e, p);
      NowhereElse(own, h, e.files.Keys, p);
    }
    SameGets(h'.v, Exactly(own, h.v, written, e));
  }

  /** Outside the desired names, what this delivery wrote and is still there is in its manifest. */
  lemma NowhereElse(own: string, h: Hist, names: set<string>, p: string)
    requires Accounted(own, h) && h.pending <= names
    ensures p !in names && p in h.written && p !in Previous(h.v, own) ==> Get(h.v, p) == None
    ensures p !in names && p in Previous(h.v, own) ==> p in h.written
  {
    hide Parse;
  }

  lemma SuccessAccounts(own: string, h: Hist, e: Event)
    requires Accounted(own, h) && Formed(own, e) && e.Sync? && Succeeds(EventSteps(own, h.v, e), e.fault)
    requires h.pending <= e.files.Keys
    ensures Accounted(own, Next(own, h, e))
  {
    hide Parse, Render, Listed;
    SuccessIsExact(own, h, e);
    CommittedNames(own, e);
  }

  lemma FailureAccounts(own: string, h: Hist, e: Event)
    requires Accounted(own, h) && Formed(own, e) && e.Sync? && !Succeeds(EventSteps(own, h.v, e), e.fault)
    requires e.fault.readable && h.pending <= e.files.Keys
    ensures Accounted(own, Next(own, h, e))
  {
    hide Parse, Render, Listed;
    var steps, h' := EventSteps(own, h.v, e), Next(own, h, e);
    var done := Executed(steps, own, e.fault);
    ExecutedAre(h.v, own, ManifestText(e), e.order, e.files, e.fault);
    PathByPath(h.v, done, own);
    if e.fault.done + 1 < |steps| {
      BeforeCommit(own, h.v, e);
      AtUntouched(Get(h.v, own), done, own);
      assert Previous(h'.v, own) == Previous(h.v, own);
      forall p | p in h'.v && p in h'.written ensures p in Previous(h'.v, own) || p in h'.pending {
        PathByPath(h.v, done, p);
        if p !in Written(done, own) { AtNoPut(Get(h.v, p), done, p); }
      }
    } else {
      CommitTorn(own, h, e);
    }
  }

  lemma BeforeCommit(own: string, v: Volume, e: Event)
    requires Formed(own, e) && e.Sync? && e.fault.readable && own !in Previous(v, own)
    requires e.fault.done + 1 < |EventSteps(own, v, e)|
    ensures forall s :: s in Executed(EventSteps(own, v, e), own, e.fault) ==> s.path != own
  {
    hide Parse, Render, Listed;
    var steps := EventSteps(own, v, e);
    forall i | 0 <= i < |steps| - 1 ensures steps[i].path != own {
      if i >= |e.order| {
        StaleAre(Previous(v, own), e.files, steps[i].path);
      } else {
        assert e.order[i] in e.order;
      }
    }
  }

  /** Interrupted at the very commit, path by path: the content is complete, the stale files
      are gone, the manifest is the old one or gone. */
  lemma CommitTornAt(own: string, v: Volume, e: Event, p: string)
    requires Formed(own, e) && e.Sync? && e.fault.readable && e.fault.done + 1 == |EventSteps(own, v, e)|
    ensures var r := DoAll(v, Executed(EventSteps(own, v, e), own, e.fault));
      p != own ==>
        Get(r, p) == if p in e.files then Some(e.files[p]) else if p in Previous(v, own) then None else Get(v, p)
    ensures own !in Previous(v, own) ==>
      var r := DoAll(v, Executed(EventSteps(own, v, e), own, e.fault));
      Get(r, own) == Get(v, own) || Get(r, own) == None
  {
    hide Parse, Render, Listed;
    var prev := Previous(v, own);
    var a, b, c := Puts(e.order, e.files), Dels(Stale(prev, e.files)),
        Torn(Put(own, ManifestText(e)), own, e.fault.cut);
    var steps := EventSteps(own, v, e);
    assert steps[..e.fault.done] == a + b && steps[e.fault.done] == Put(own, ManifestText(e));
    assert Executed(steps, own, e.fault) == a + b + c;
    assert c == [] || (c == [Del(own)] && c[1..] == []);
    hide DoAll, Executed, EventSteps, Puts, Dels, Stale, Torn;
    TableAt(v, a, b, c, e.order, prev, e.files, p);
    TableAt(v, a, b, c, e.order, prev, e.files, own);
  }

  lemma TableAt(v: Volume, a: seq<Step>, b: seq<Step>, c: seq<Step>, order: seq<string>, prev: seq<string>,
                files: Volume, p: string)
    requires Lists(order, files) && a == Puts(order, files) && b == Dels(Stale(prev, files))
    ensures Get(DoAll(v, a + b + c), p)
            == At(if p in files then Some(files[p]) else if p in prev then None else Get(v, p), c, p)
  {
    PathByPath(v, a + b + c, p);
    AtSplit(Get(v, p), a + b, c, p);
    AtSplit(Get(v, p), a, b, p);
    AtPuts(Get(v, p), order, files, p);
    AtDels(At(Get(v, p), a, p), Stale(prev, files), p);
    StaleAre(prev, files, p);
  }

  lemma CommitTornWritten(own: string, v: Volume, e: Event)
    requires Formed(own, e) && e.Sync? && e.fault.readable && e.fault.done + 1 == |EventSteps(own, v, e)|
    ensures Written(Executed(EventSteps(own, v, e), own, e.fault), own) == e.files.Keys
  {
    hide Parse, Render, Listed;
    var steps := EventSteps(own, v, e);
    var done := Executed(steps, own, e.fault);
    AllWritten(own, v, e);
    assert forall s :: s in steps && s.path != own ==> s in done by {
      assert steps == steps[..e.fault.done] + [steps[e.fault.done]];
    }
    assert forall s :: s in done && s.Put? && s.path != own ==> s in steps;
    assert Written(done, own) == Written(steps, own);
  }

  lemma CommitTorn(own: string, h: Hist, e: Event)
    requires Accounted(own, h) && Formed(own, e) && e.Sync? && e.fault.readable && h.pending <= e.files.Keys
    requires e.fault.done + 1 == |EventSteps(own, h.v, e)|
    ensures Accounted(own, Next(own, h, e))
  {
    CommitTornWritten(own, h.v, e);
    hide Parse, Executed, EventSteps, DoAll;
    var h' := Next(own, h, e);
    CommitTornAt(own, h.v, e, own);
    forall p | p in h'.v && p in h'.written ensures p in h'.pending || p in Previous(h'.v, own) {
      CommitTornAt(own, h.v, e, p);
    }
  }

  lemma {:induction false} RunAccounts(own: string, h: Hist, events: seq<Event>)
    requires Accounted(own, h) && Allowed(own, h, events)
    ensures Accounted(own, Run(own, h, events))
    decreases events
  {
    hide Parse, Render, Listed;
    if events != [] {
      var e := events[0];
      if e.Sync? {
        if Succeeds(EventSteps(own, h.v, e), e.fault) {
          SuccessAccounts(own, h, e);
        } else if e.fault.readable {
          FailureAccounts(own, h, e);
        } else {
          assert Executed(EventSteps(own, h.v, e), own, e.fault) == [] && DoAll(h.v, []) == h.v;
        }
      }
      RunAccounts(own, Next(own, h, e), events[1..]);
    }
  }

  /** No orphaned key files: over any run in which the desired names only grow between commits and
      nobody else writes a manifest of this name, with failures at any step, a sync that succeeds
      leaves on the node exactly the files it was to deliver, its manifest, and the files this
      delivery never wrote. */
  lemma NoOrphans(own: string, v: Volume, events: seq<Event>, last: Event)
    requires own !in v && last.Sync? && Formed(own, last)
    requires Allowed(own, Hist(v, {}, {}), events) && Allowed(own, Hist(v, {}, {}), events + [last])
    requires Succeeds(EventSteps(own, Run(own, Hist(v, {}, {}), events).v, last), last.fault)
    ensures var before, after := Run(own, Hist(v, {}, {}), events), Run(own, Hist(v, {}, {}), events + [last]);
      after.written == before.written + last.files.Keys && after.v == Exactly(own, before.v, after.written, last)
  {
    var start := Hist(v, {}, {});
    assert Previous(v, own) == [];
    hide Formed, Allowed, Run, Next, EventSteps, Succeeds, Exactly, Previous;
    RunSplits(own, start, events, last);
    RunAccounts(own, start, events);
    GrownSync(own, Run(own, start, events), last);
    SuccessIsExact(own, Run(own, start, events), last);
  }

  lemma GrownSync(own: string, h: Hist, e: Event)
    requires Growing(own, h, e) && e.Sync? && Formed(own, e) && Succeeds(EventSteps(own, h.v, e), e.fault)
    ensures h.pending <= e.files.Keys
  {
  }

  lemma {:induction false} RunSplits(own: string, h: Hist, events: seq<Event>, last: Event)
    requires Allowed(own, h, events + [last]) && Allowed(own, h, events)
    ensures Formed(own, last) && Growing(own, Run(own, h, events), last)
    ensures Run(own, h, events + [last]) == Next(own, Run(own, h, events), last)
    decreases events
  {
    hide Formed, Growing, Next;
    if events == [] {
      assert events + [last] == [last] && [last][1..] == [];
      assert Run(own, Next(own, h, last), []) == Next(own, h, last);
    } else {
      assert (events + [last])[0] == events[0] && (events + [last])[1..] == events[1..] + [last];
      RunSplits(own, Next(own, h, events[0]), events[1..], last);
    }
  }

  // ── exactly when a key is stranded ──────────────────────────────────────────────────

  /** With no promise about what was dropped meanwhile: a successful sync leaves no orphan
      exactly when every file written since the last commit, and not in the old manifest, is
      still wanted. */
  lemma OrphansExactly(own: string, h: Hist, e: Event)
    requires Accounted(own, h) && Formed(own, e) && e.Sync? && Succeeds(EventSteps(own, h.v, e), e.fault)
    ensures var h' := Next(own, h, e);
      (forall p :: p in h'.v && p in h'.written ==> p in e.files)
      <==> (forall p :: p in h.v && p in h.pending && p !in Previous(h.v, own) ==> p in e.files)
  {
    AllWritten(own, h.v, e);
    var h' := Next(own, h, e);
    assert h'.v == Synced(h.v, own, ManifestText(e), e.order, e.files, e.fault);
    hide ManifestText, Synced, Steps, Parse, EventSteps;
    forall p: string
      ensures Get(h'.v, p) == if p == own then Some(ManifestText(e)) else if p in e.files then Some(e.files[p])
                                     else if p in Previous(h.v, own) then None else Get(h.v, p) {
      SuccessAt(h.v, own, ManifestText(e), e.order, e.files, e.fault, p);
    }
    forall p: string ensures p in h'.v <==> p == own || p in e.files || (p !in Previous(h.v, own) && p in h.v) {
      assert Get(h'.v, p).Some? <==> p in h'.v;
    }
  }

  /** Two files written, then cut off before the manifest. */
  function Broken(kept: string, dropped: string): Event {
    Sync(map[kept := "k", dropped := "d"], "h", [kept, dropped], Fault(true, 2, None))
  }

  lemma BrokenLeaves(own: string, kept: string, dropped: string)
    requires Proper(kept) && Proper(dropped) && kept != dropped && own != kept && own != dropped
    ensures Formed(own, Broken(kept, dropped))
    ensures Next(own, Hist(map[], {}, {}), Broken(kept, dropped))
            == Hist(map[kept := "k", dropped := "d"], {kept, dropped}, {kept, dropped})
  {
    var none: Volume := map[];
    var e := Broken(kept, dropped);
    var two := [Put(kept, "k"), Put(dropped, "d")];
    hide Parse, Render, Listed, Proper, DoAll, ManifestText;
    assert Previous(none, own) == [];
    var steps := EventSteps(own, none, e);
    assert |steps| == 3 && steps[0] == two[0] && steps[1] == two[1];
    assert Executed(steps, own, e.fault) == two;
    DoTwo(none, two[0], two[1]);
    WrittenTwo(own, two[0], two[1]);
  }

  lemma DoTwo(v: Volume, a: Step, b: Step)
    ensures DoAll(v, [a, b]) == Do(Do(v, a), b)
  {
    var two, one := [a, b], [b];
    assert two[1..] == one && one[1..] == [];
    assert DoAll(v, two) == DoAll(Do(v, a), one) == DoAll(Do(Do(v, a), b), []);
  }

  lemma WrittenTwo(own: string, a: Step, b: Step)
    requires a.Put? && b.Put? && a.path != own && b.path != own
    ensures Written([a, b], own) == {a.path, b.path}
  {
    assert [a, b][0] in [a, b] && [a, b][1] in [a, b];
  }

  /** A key dropped after a sync that failed before its commit is never removed: the next sync,
      though it succeeds, does not know the file is its own. */
  lemma StrandedKey(own: string, kept: string, dropped: string, good: Event)
    requires Proper(kept) && Proper(dropped) && kept != dropped && own != kept && own != dropped
    requires good.Sync? && good.files == map[kept := "k"] && Formed(own, good)
    requires Formed(own, Broken(kept, dropped))
    requires var h := Next(own, Hist(map[], {}, {}), Broken(kept, dropped));
      Succeeds(EventSteps(own, h.v, good), good.fault)
    ensures var h := Next(own, Hist(map[], {}, {}), Broken(kept, dropped)); var h' := Next(own, h, good);
      dropped in h'.v && dropped !in good.files && dropped !in Previous(h'.v, own)
  {
    BrokenLeaves(own, kept, dropped);
    var h := Next(own, Hist(map[], {}, {}), Broken(kept, dropped));
    var h' := Next(own, h, good);
    assert h'.v == Synced(h.v, own, ManifestText(good), good.order, good.files, good.fault);
    CommittedNames(own, good);
    hide ManifestText, Synced, Steps, Parse, Broken, Next;
    SuccessAt(h.v, own, ManifestText(good), good.order, good.files, good.fault, dropped);
    SuccessAt(h.v, own, ManifestText(good), good.order, good.files, good.fault, own);
    assert Get(h'.v, dropped) == Some("d") && Get(h'.v, own) == Some(ManifestText(good));
  }
}
