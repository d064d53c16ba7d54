/** Delivering files into a volume, one node at a time: content first, stale files second, the
    manifest last as the commit point. Any step may fail, and a failed write may leave part of
    a file. */
module Delivery {
  import opened Wrappers
  import opened Sorting
  import opened VolumeManifest

  type Volume = map<string, string>

  datatype Step = Put(path: string, data: string) | Del(path: string)

  function Do(v: Volume, s: Step): Volume {
    match s
    case Put(p, d) => v[p := d]
    case Del(p) => v - {p}
  }

  function DoAll(v: Volume, steps: seq<Step>): Volume
    decreases |steps|
  {
    if steps == [] then v else DoAll(Do(v, steps[0]), steps[1..])
  }

  /** What the manifest found under this name records, whichever delivery wrote it; a volume or
      manifest that is not there records nothing. */
  function Previous(v: Volume, own: string): seq<string> {
    if own in v then Parse(v[own]) else []
  }

  function Stale(prev: seq<string>, files: Volume): seq<string> {
    if prev == [] then [] else (if prev[0] in files then [] else [prev[0]]) + Stale(prev[1..], files)
  }

  function Puts(order: seq<string>, files: Volume): seq<Step>
    requires forall n :: n in order ==> n in files
  {
    seq(|order|, i requires 0 <= i < |order| => Put(order[i], files[order[i]]))
  }

  function Dels(names: seq<string>): seq<Step> {
    seq(|names|, i requires 0 <= i < |names| => Del(names[i]))
  }

  /** The order files are written in is the map's own, hence any. */
  predicate Lists(order: seq<string>, files: Volume) {
    (forall n :: n in order ==> n in files) && (forall n :: n in files ==> n in order)
  }

  function Steps(v: Volume, own: string, text: string, order: seq<string>, files: Volume): seq<Step>
    requires Lists(order, files)
  {
    Puts(order, files) + Dels(Stale(Previous(v, own), files)) + [Put(own, text)]
  }

  /** How far an attempt gets: whether the old manifest could be read, how many steps complete,
      and what the interrupted write left of its file. */
  datatype Fault = Fault(readable: bool, done: nat, cut: Option<string>)

  /** An interrupted content write leaves a part, or nothing new; an interrupted manifest write
      leaves the old one or none. */
  function Torn(s: Step, own: string, cut: Option<string>): seq<Step> {
    if cut.None? || s.Del? then []
    else if s.path == own then [Del(own)]
    else [Put(s.path, cut.value)]
  }

  function Executed(steps: seq<Step>, own: string, f: Fault): seq<Step> {
    if !f.readable then []
    else if f.done >= |steps| then steps
    else steps[..f.done] + Torn(steps[f.done], own, f.cut)
  }

  predicate Succeeds(steps: seq<Step>, f: Fault) { f.readable && f.done >= |steps| }

  function Synced(v: Volume, own: string, text: string, order: seq<string>, files: Volume, f: Fault): Volume
    requires Lists(order, files)
  {
    DoAll(v, Executed(Steps(v, own, text, order, files), own, f))
  }

  // ── one node, as the server does it ─────────────────────────────────────────────────

  class Node {
    var files: Volume
    var left: nat                  // how many more volume operations succeed
    const readable: bool
    const cut: Option<string>

    constructor (files: Volume, f: Fault)
      ensures this.files == files && left == f.done && readable == f.readable && cut == f.cut
    {
      this.files, left, readable, cut := files, f.done, f.readable, f.cut;
    }

    /** One write or removal: done, or torn. */
    method Operate(s: Step, own: string) returns (ok: bool)
      modifies this
      ensures ok == (old(left) > 0)
      ensures if ok then files == Do(old(files), s) && left == old(left) - 1
              else files == DoAll(old(files), Torn(s, own, cut)) && left == old(left)
    {
      if left == 0 {
        if s.Put? && cut.Some? {
          files := if s.path == own then files - {own} else files[s.path := cut.value];
        }
        return false;
      }
      files, left := Do(files, s), left - 1;
      return true;
    }

    /** A batch of operations, stopping at the first that fails. */
    method Operations(batch: seq<Step>, own: string) returns (ok: bool)
      modifies this
      ensures ok == (old(left) >= |batch|)
      ensures if ok then files == DoAll(old(files), batch) && left == old(left) - |batch|
              else files == DoAll(old(files), Partly(batch, own, old(left), cut)) && left == 0
    {
      hide Torn, Do;
      ghost var v, budget := files, left;
      for i := 0 to |batch|
        invariant files == DoAll(v, batch[..i]) && left + i == budget
      {
        ok := Operate(batch[i], own);
        DoneSoFar(v, batch, i, own, cut);
        if !ok { return; }
      }
      assert batch[..|batch|] == batch;
      ok := true;
    }

    method StaleNames(own: string, desired: Volume) returns (stale: seq<string>)
      ensures stale == Stale(Previous(files, own), desired)
    {
      hide Parse;
      stale := [];
      if own !in files { return; }
      var prev := ParseManifest(files[own]);
      for i := 0 to |prev|
        invariant Stale(prev, desired) == stale + Stale(prev[i..], desired)
      {
        assert prev[i..][0] == prev[i] && prev[i..][1..] == prev[i + 1..];
        if prev[i] !in desired { stale := stale + [prev[i]]; }
      }
    }

    /** Reads the old manifest, writes the content, removes what only the old manifest names,
        and commits by writing the new one. */
    method Sync(own: string, text: string, order: seq<string>, desired: Volume) returns (ok: bool)
      requires Lists(order, desired)
      modifies this
      ensures var steps := Steps(old(files), own, text, order, desired); var f := Fault(readable, old(left), cut);
        ok == Succeeds(steps, f) && files == Synced(old(files), own, text, order, desired, f)
    {
      hide Torn, Do, Puts, Dels, DoAll, Stale;
      if !readable {
        NothingDone(files);
        return false;
      }
      ghost var v, budget := files, left;
      var stale := StaleNames(own, desired);
      var a, b, c := Puts(order, desired), Dels(stale), [Put(own, text)];
      ThreeBatches(v, a, b, c, own, budget, cut);
      ok := Operations(a, own);
      if !ok { return; }
      ok := Operations(b, own);
      if !ok { return; }
      ok := Operations(c, own);
    }
  }

  /** A batch cut off after some operations. */
  function Partly(batch: seq<Step>, own: string, done: nat, cut: Option<string>): seq<Step>
    requires done < |batch|
  {
    batch[..done] + Torn(batch[done], own, cut)
  }

  lemma NothingDone(v: Volume)
    ensures DoAll(v, []) == v
  {
  }

  /** Three batches in turn are one list of steps cut off at the same place. */
  lemma ThreeBatches(v: Volume, a: seq<Step>, b: seq<Step>, c: seq<Step>, own: string, done: nat, cut: Option<string>)
    requires |c| == 1
    ensures var r := DoAll(v, Executed(a + b + c, own, Fault(true, done, cut)));
      if done < |a| then r == DoAll(v, Partly(a, own, done, cut))
      else if done < |a| + |b| then r == DoAll(DoAll(v, a), Partly(b, own, done - |a|, cut))
      else if done == |a| + |b| then r == DoAll(DoAll(DoAll(v, a), b), Partly(c, own, 0, cut))
      else r == DoAll(DoAll(DoAll(v, a), b), c)
  {
    hide Torn, Do, DoAll;
    var steps := a + b + c;
    if done < |a| {
      assert steps[..done] == a[..done] && steps[done] == a[done];
    } else if done < |a| + |b| {
      var p := Partly(b, own, done - |a|, cut);
      assert steps[..done] + Torn(steps[done], own, cut) == a + p;
      DoAllSplit(v, a, p);
    } else {
      var p := if done == |a| + |b| then Partly(c, own, 0, cut) else c;
      if done == |a| + |b| { assert steps[..done] + Torn(steps[done], own, cut) == a + b + p; }
      DoAllSplit(v, a + b, p);
      DoAllSplit(v, a, b);
    }
  }

  lemma {:induction false} DoAllSplit(v: Volume, a: seq<Step>, b: seq<Step>)
    ensures DoAll(v, a + b) == DoAll(DoAll(v, a), b)
    decreases |a|
  {
    if a == [] {
      assert a + b == b;
    } else {
      assert (a + b)[1..] == a[1..] + b;
      DoAllSplit(Do(v, a[0]), a[1..], b);
    }
  }

  lemma DoneSoFar(v: Volume, steps: seq<Step>, i: nat, own: string, cut: Option<string>)
    requires i < |steps|
    ensures DoAll(v, steps[..i + 1]) == Do(DoAll(v, steps[..i]), steps[i])
    ensures DoAll(v, steps[..i] + Torn(steps[i], own, cut)) == DoAll(DoAll(v, steps[..i]), Torn(steps[i], own, cut))
    ensures i + 1 == |steps| ==> steps[..i + 1] == steps
  {
    assert steps[..i + 1] == steps[..i] + [steps[i]];
    DoAllSplit(v, steps[..i], [steps[i]]);
    DoAllSplit(v, steps[..i], Torn(steps[i], own, cut));
  }
}
