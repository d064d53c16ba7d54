/** What is live against what was last recorded OK. The verdict, the notification and the live hash
    are three writes: the server may die between them, and the claim is free after the first. */
module LiveHash {
  import opened Wrappers
  import opened Pipeline
  import opened PipelineSafety
  import opened StackRuns

  /** The last deployment recorded OK is neither being finished nor cut off by a crash, and nothing
      was written after its own mark: no adoption, and no mark of one recorded before it. */
  predicate Current(s: Stack) {
    match LastOK(s.deps, s.closed)
    case None => s.writes == []
    case Some(i) =>
      !Finishing(s.deps[i]) && !s.deps[i].cut && forall k :: 0 <= k < |s.writes| - 1 ==> s.writes[k] != Shipped(i)
  }

  /** Somebody else wrote last, and wrote the same hash. */
  predicate Coincides(s: Stack) {
    var i := LastOK(s.deps, s.closed);
    && i.Some? && s.writes != []
    && var last := s.writes[|s.writes| - 1];
    last != Shipped(i.value) && HashOf(s.deps, last) == Some(s.deps[i.value].hash)
  }

  lemma CurrentExactly(s: Stack)
    requires Sound(s)
    ensures s.live == LiveOf(s.deps, s.closed) <==> Current(s) || Coincides(s)
  {
    hide Causes, OneRunning, PhaseOK, Bookkeeping, Closings;
    var last := LastOK(s.deps, s.closed);
    if s.writes != [] && s.writes[|s.writes| - 1].Shipped? {
      assert Marked(s.deps, s.writes[|s.writes| - 1].i);
    }
    if last.Some? {
      var i := last.value;
      assert Inv(s.deps[i]);
      if Current(s) {
        assert Marked(s.deps, i);
        var k :| 0 <= k < |s.writes| && s.writes[k] == Shipped(i);
      }
      if s.writes != [] && s.writes[|s.writes| - 1] == Shipped(i) {
        assert Marked(s.deps, i);
      }
    }
  }

  /** The live hash is that of the last up or pull recorded OK exactly when that one has been
      marked and nothing was written since, or what was written since is the same hash. */
  lemma LiveIsLastOK(acts: seq<Act>)
    requires Careful(NEW, acts)
    ensures var t := DoAll(NEW, acts);
      && (t.live == LiveOf(t.deps, t.closed) <==> Current(t) || Coincides(t))
      && (forall i :: 0 <= i < |t.deps| ==> (t.deps[i].verdict.Some? <==> i in t.closed))
      && (forall i, j :: 0 <= i < j < |t.closed| ==> t.closed[i] != t.closed[j])
  {
    RunSound(NEW, acts);
    var t := DoAll(NEW, acts);
    CurrentExactly(t);
    forall i | 0 <= i < |t.deps| && i in t.closed ensures t.deps[i].verdict.Some? {
      var k :| 0 <= k < |t.closed| && t.closed[k] == i;
    }
  }

  /** Whoever else marked last was recorded OK earlier, and marked late. */
  lemma OvertakenBySlower(acts: seq<Act>, i: nat, j: nat)
    requires Careful(NEW, acts) && i != j
    requires var t := DoAll(NEW, acts);
      LastOK(t.deps, t.closed) == Some(i) && t.writes != [] && t.writes[|t.writes| - 1] == Shipped(j)
    ensures var t := DoAll(NEW, acts); exists a, b :: 0 <= a < b < |t.closed| && t.closed[a] == j && t.closed[b] == i
  {
    RunSound(NEW, acts);
    var t := DoAll(NEW, acts);
    assert Marked(t.deps, j);
    assert ShippedOK(t.deps[j]) by { hide Causes, Closings, Writings, PhaseOK, Bookkeeping; }
    assert j in t.closed;
    LastOKIsLast(t.deps, t.closed, j);
  }

  lemma {:induction false} LastOKIsLast(deps: seq<Deployment>, closed: seq<nat>, j: nat)
    requires j in closed && j < |deps| && ShippedOK(deps[j])
    ensures LastOK(deps, closed).Some?
    ensures var i := LastOK(deps, closed).value;
      i == j || exists a, b :: 0 <= a < b < |closed| && closed[a] == j && closed[b] == i
    decreases |closed|
  {
    var n := |closed| - 1;
    if closed[n] < |deps| && ShippedOK(deps[closed[n]]) {
      var a :| 0 <= a < |closed| && closed[a] == j;
      assert a < n || closed[n] == j;
    } else {
      assert closed == closed[..n] + [closed[n]];
      LastOKIsLast(deps, closed[..n], j);
    }
  }

  // ── write by write ──────────────────────────────────────────────────────────────────

  /** The last write is that of the last deployment recorded OK. */
  predicate InStep(s: Stack) {
    match LastOK(s.deps, s.closed)
    case None => s.writes == []
    case Some(i) => s.writes != [] && s.writes[|s.writes| - 1] == Shipped(i)
  }

  predicate RecordsOK(d: Deployment, r: Deployment) { d.verdict.None? && ShippedOK(r) }

  /** One deployment's step: recording an OK always leaves the live hash behind, marking catches up
      exactly when nobody was recorded OK since, and no other step changes whether it is behind. */
  lemma StepInStep(s: Stack, i: nat, e: Event)
    requires Sound(s) && i < |s.deps|
    ensures var r := Step(s.deps[i], e);
      var t := Recorded(s, i, r);
      InStep(t) <==>
        if RecordsOK(s.deps[i], r) then false
        else if e.Mark? && s.deps[i].phase == Some(Marking) then LastOK(s.deps, s.closed) == Some(i)
        else InStep(s)
  {
    hide OneRunning, Causes;
    var d, r := s.deps[i], Step(s.deps[i], e);
    StepStands(d, e);
    MarksWhenMarking(d, e);
    LastAfter(s, i, r);
    WritesStep(s, i, r);
    hide Inv, Step, Writings, Closings, Recorded, Stands, LastOK;
  }

  /** Recording an OK makes a deployment the last one; nothing else changes which is. */
  lemma LastAfter(s: Stack, i: nat, r: Deployment)
    requires Closings(s) && i < |s.deps| && Stands(s.deps[i], r)
    ensures var t := Recorded(s, i, r);
      LastOK(t.deps, t.closed) == if RecordsOK(s.deps[i], r) then Some(i) else LastOK(s.deps, s.closed)
  {
    var t := Recorded(s, i, r);
    forall k | 0 <= k < |s.closed|
      ensures Shut(s.deps, s.closed[k]) && Stands(s.deps[s.closed[k]], t.deps[s.closed[k]])
    {
      assert Shut(s.deps, s.closed[k]);
    }
    LastOKStands(s.deps, t.deps, s.closed);
    if s.deps[i].verdict.None? && r.verdict.Some? { assert t.closed[..|s.closed|] == s.closed; }
  }

  /** A step writes the live hash exactly when it marks, and what was never marked was never written. */
  lemma WritesStep(s: Stack, i: nat, r: Deployment)
    requires Writings(s) && i < |s.deps| && (s.deps[i].verdict.None? && r.verdict.Some? ==> !r.marked)
    ensures Recorded(s, i, r).writes == if !s.deps[i].marked && r.marked then s.writes + [Shipped(i)] else s.writes
    ensures !s.deps[i].marked ==> Shipped(i) !in s.writes
  {
    if Shipped(i) in s.writes {
      var k :| 0 <= k < |s.writes| && s.writes[k] == Shipped(i);
      assert Marked(s.deps, s.writes[k].i);
    }
  }

  lemma MarksWhenMarking(d: Deployment, e: Event)
    requires Inv(d)
    ensures !d.marked && Step(d, e).marked <==> e.Mark? && d.phase == Some(Marking)
    ensures e.Mark? && d.phase == Some(Marking) ==> d.verdict.Some?
  {
    hide BeginStep, StartHookStep, HookStep, StartEngineStep, EngineStep, WatchStep, NotifyStep, ReattachStep;
  }

  // ── three ways to fall behind ───────────────────────────────────────────────────────

  /** An up that goes through, up to its verdict and no further. */
  function Up(i: nat, hash: string): seq<Act> {
    [Deploy(true), On(i, Begin(NOPLAN, "f", hash, true, true)), On(i, Exit(0, 0)), On(i, WatchDone)]
  }

  function Tell(i: nat): seq<Act> { [On(i, Notify), On(i, Mark)] }

  function Judged(hash: string): Deployment {
    Claimed(true, false).(file := "f", hash := hash, status := OK, verdict := Some(OK), closes := 1,
                          phase := Some(Noticing(false)), runner := Some(0), next := 1, main := Some(0))
  }

  lemma UpRuns(hash: string)
    ensures var d1 := Step(Claimed(true, false), Begin(NOPLAN, "f", hash, true, true));
      && d1.verdict.None? && !d1.marked && Step(d1, Exit(0, 0)).verdict.None? && !Step(d1, Exit(0, 0)).marked
      && Step(Step(d1, Exit(0, 0)), WatchDone) == Judged(hash)
  {
    hide StartHookStep, HookStep, StartEngineStep, EngineStep, NotifyStep, ReattachStep;
    var d1 := Step(Claimed(true, false), Begin(NOPLAN, "f", hash, true, true));
    assert d1 == Claimed(true, false).(file := "f", hash := hash, ctrs := map[0 := Ctr(Main, None)], next := 1,
                                       runner := Some(0), phase := Some(Watching(0)));
    var d2 := Step(d1, Exit(0, 0));
    assert d2 == d1.(ctrs := map[0 := Ctr(Main, Some(0))]);
    assert d2.ctrs - {0} == map[];
  }

  lemma UpLands(s: Stack, hash: string)
    requires !Busy(s) && |s.causes| == |s.deps|
    ensures DoAll(s, Up(|s.deps|, hash))
            == s.(deps := s.deps + [Judged(hash)], causes := s.causes + [Asked], closed := s.closed + [|s.deps|])
  {
    var n, acts, d0 := |s.deps|, Up(|s.deps|, hash), Claimed(true, false);
    UpRuns(hash);
    FourActs(s, acts);
    var d1 := Step(d0, acts[1].event);
    var d2 := Step(d1, acts[2].event);
    var t := s.(deps := s.deps + [d0], causes := s.causes + [Asked]);
    hide Step, Busy, DoAll, Recorded, Judged, Shipping;
    assert Do(s, acts[0]) == t;
    NewestMoves(s, t, d0, acts[1].event);
    var t1 := t.(deps := s.deps + [d1]);
    NewestMoves(s, t1, d1, acts[2].event);
    NewestMoves(s, t.(deps := s.deps + [d2]), d2, acts[3].event);
  }

  /** A step of the newest deployment, asked for by hand. */
  lemma NewestMoves(s: Stack, t: Stack, d: Deployment, e: Event)
    requires t.deps == s.deps + [d] && |s.causes| == |s.deps| && t.causes == s.causes + [Asked]
    requires d.verdict.None? && !d.marked && !Step(d, e).marked && !e.Crash? && !e.Repair?
    ensures var r := Step(d, e);
      Do(t, On(|s.deps|, e))
      == t.(deps := s.deps + [r], closed := if r.verdict.Some? then t.closed + [|s.deps|] else t.closed)
  {
    hide Step;
    assert t.deps[|s.deps| := Step(d, e)] == s.deps + [Step(d, e)];
  }

  lemma FourActs(s: Stack, acts: seq<Act>)
    requires |acts| == 4
    ensures DoAll(s, acts) == Do(Do(Do(Do(s, acts[0]), acts[1]), acts[2]), acts[3])
  {
    hide Do;
    TwoActs(s, acts);
    TwoActs(Do(Do(s, acts[0]), acts[1]), acts[2..]);
    assert DoAll(Do(Do(Do(Do(s, acts[0]), acts[1]), acts[2]), acts[3]), acts[2..][2..])
           == Do(Do(Do(Do(s, acts[0]), acts[1]), acts[2]), acts[3]);
  }

  lemma TwoActs(s: Stack, acts: seq<Act>)
    requires |acts| >= 2
    ensures DoAll(s, acts) == DoAll(Do(Do(s, acts[0]), acts[1]), acts[2..])
  {
    hide Do;
    assert acts[1..][0] == acts[1] && acts[1..][1..] == acts[2..];
  }

  lemma TellLands(s: Stack, i: nat)
    requires i < |s.deps| && ShippedOK(s.deps[i]) && !s.deps[i].marked && s.deps[i].phase == Some(Noticing(false))
    ensures var d := s.deps[i].(notices := s.deps[i].notices + 1, marked := true, phase := None);
      DoAll(s, Tell(i)) == s.(deps := s.deps[i := d], writes := s.writes + [Shipped(i)], live := Some(d.hash))
  {
    var d := s.deps[i];
    var d1 := d.(notices := d.notices + 1, phase := Some(Marking));
    TellSteps(d);
    TwoActs(s, Tell(i));
    assert Tell(i)[2..] == [];
    assert Shipping(s, i, Notify) == Notify;
    assert Recorded(s, i, d1) == s.(deps := s.deps[i := d1]);
    var t := s.(deps := s.deps[i := d1]);
    assert Shipping(t, i, Mark) == Mark;
    assert t.deps[i := d1.(marked := true, phase := None)] == s.deps[i := d1.(marked := true, phase := None)];
    hide Step, Shipping, Recorded;
    assert Do(s, On(i, Notify)) == t;
    assert Do(t, On(i, Mark)) == Recorded(t, i, d1.(marked := true, phase := None));
  }

  lemma TellSteps(d: Deployment)
    requires ShippedOK(d) && d.phase == Some(Noticing(false))
    ensures var d1 := d.(notices := d.notices + 1, phase := Some(Marking));
      Step(d, Notify) == d1 && Step(d1, Mark) == d1.(marked := true, phase := None)
  {
    hide BeginStep, StartHookStep, HookStep, StartEngineStep, EngineStep, WatchStep, ReattachStep;
  }

  lemma {:induction false} DoAllSplit(s: Stack, a: seq<Act>, b: seq<Act>)
    ensures DoAll(s, a + b) == DoAll(DoAll(s, a), b)
    decreases |a|
  {
    hide Do;
    if a == [] {
      assert a + b == b;
    } else {
      assert (a + b)[0] == a[0] && (a + b)[1..] == a[1..] + b;
      DoAllSplit(Do(s, a[0]), a[1..], b);
    }
  }

  predicate Quiet(acts: seq<Act>) { forall a :: a in acts ==> !(a.On? && a.event.Reattach?) }

  lemma {:induction false} NoRestarts(s: Stack, acts: seq<Act>)
    requires Quiet(acts)
    ensures Careful(s, acts)
    decreases acts
  {
    hide Do;
    if acts != [] { NoRestarts(Do(s, acts[0]), acts[1..]); }
  }

  lemma QuietParts(i: nat, hash: string)
    ensures Quiet(Up(i, hash)) && Quiet(Tell(i)) && Quiet([ServerCrash]) && Quiet([Adopt(hash)])
  {
  }

  lemma QuietBoth(a: seq<Act>, b: seq<Act>)
    requires Quiet(a) && Quiet(b)
    ensures Quiet(a + b)
  {
  }

  /** The server dies after an OK was recorded and before it was marked: the verdict stands, the
      live hash is that of before, here none. */
  lemma CutOff()
    ensures var acts := Up(0, "h") + [ServerCrash];
      var t := DoAll(NEW, acts);
      && Careful(NEW, acts) && |t.deps| == 1 && t.deps[0].verdict == Some(OK) && t.deps[0].cut
      && t.live == None && LiveOf(t.deps, t.closed) == Some("h") && !Current(t)
  {
    var acts := Up(0, "h") + [ServerCrash];
    hide DoAll, Careful, Quiet, Up, Do, LiveOf, Current;
    QuietParts(0, "h");
    QuietBoth(Up(0, "h"), [ServerCrash]);
    NoRestarts(NEW, acts);
    UpLands(NEW, "h");
    DoAllSplit(NEW, Up(0, "h"), [ServerCrash]);
    var s := DoAll(NEW, Up(0, "h"));
    assert s.deps == [Judged("h")] && s.closed == [0] && s.live == None;
    OneAct(s, ServerCrash);
    CrashCutsOne(s);
    CutIsBehind(Do(s, ServerCrash));
  }

  lemma CutIsBehind(t: Stack)
    requires t.deps == [Judged("h").(phase := None, cut := true)] && t.closed == [0] && t.live == None
    ensures LiveOf(t.deps, t.closed) == Some("h") && !Current(t)
  {
  }

  lemma CrashCutsOne(s: Stack)
    requires |s.deps| == 1 && Finishing(s.deps[0]) && s.deps[0].status != Running
    ensures Do(s, ServerCrash) == s.(deps := [s.deps[0].(phase := None, cut := true)])
  {
    CrashCuts(s.deps[0]);
    hide Step;
  }

  lemma CrashCuts(d: Deployment)
    requires Finishing(d) && d.status != Running
    ensures Step(d, Crash) == d.(phase := None, cut := true)
  {
    hide BeginStep, StartHookStep, HookStep, StartEngineStep, EngineStep, WatchStep, NotifyStep, ReattachStep;
  }

  /** And for good: nothing takes a deployment up again once its verdict is written. */
  lemma {:induction false} CutForGood(d: Deployment, events: seq<Event>)
    requires d.cut && !d.marked && d.phase.None? && d.status != Running
    ensures var r := Run(d, events); r.cut && !r.marked && r.phase.None? && r.status != Running
    decreases events
  {
    if events != [] {
      NobodyBack(d, events[0]);
      hide Step;
      CutForGood(Step(d, events[0]), events[1..]);
    }
  }

  lemma NobodyBack(d: Deployment, e: Event)
    requires d.phase.None? && d.status != Running
    ensures var r := Step(d, e); r.cut == d.cut && r.marked == d.marked && r.phase.None? && r.status != Running
  {
    IdleOnly(d, true, true, true);
    IdleOnly(d, false, true, false);
    IdleOnly(d, true, false, true);
    IdleOnly(d, false, false, false);
    hide BeginStep, StartHookStep, HookStep, StartEngineStep, EngineStep, WatchStep;
  }

  /** Two deployments whose marks come in the other order than their verdicts: the first one's
      goroutine stops between the two writes while the second is claimed, recorded and marked. */
  lemma SlowMarkWins()
    ensures var acts := Up(0, "a") + Up(1, "b") + Tell(1) + Tell(0);
      var t := DoAll(NEW, acts);
      && Careful(NEW, acts) && t.closed == [0, 1] && t.writes == [Shipped(1), Shipped(0)]
      && t.live == Some("a") && LiveOf(t.deps, t.closed) == Some("b") && !Current(t)
  {
    hide DoAll, Careful, Up, Tell, LiveOf, Current;
    SlowIsCareful();
    DoAllSplit(NEW, Up(0, "a") + Up(1, "b") + Tell(1), Tell(0));
    DoAllSplit(NEW, Up(0, "a") + Up(1, "b"), Tell(1));
    DoAllSplit(NEW, Up(0, "a"), Up(1, "b"));
    UpLands(NEW, "a");
    TwoUp(DoAll(NEW, Up(0, "a")));
  }

  lemma SlowIsCareful()
    ensures Careful(NEW, Up(0, "a") + Up(1, "b") + Tell(1) + Tell(0))
  {
    hide Careful, Quiet, Up, Tell;
    QuietParts(0, "a");
    QuietParts(1, "b");
    QuietBoth(Up(0, "a"), Up(1, "b"));
    QuietBoth(Up(0, "a") + Up(1, "b"), Tell(1));
    QuietBoth(Up(0, "a") + Up(1, "b") + Tell(1), Tell(0));
    NoRestarts(NEW, Up(0, "a") + Up(1, "b") + Tell(1) + Tell(0));
  }

  lemma TwoUp(s1: Stack)
    requires s1 == Stack([Judged("a")], [Asked], None, [0], [])
    ensures var t := DoAll(DoAll(DoAll(s1, Up(1, "b")), Tell(1)), Tell(0));
      && t.closed == [0, 1] && t.writes == [Shipped(1), Shipped(0)]
      && t.live == Some("a") && LiveOf(t.deps, t.closed) == Some("b") && !Current(t)
  {
    hide DoAll, Up, Tell;
    UpLands(s1, "b");
    var s2 := DoAll(s1, Up(1, "b"));
    assert s2 == Stack([Judged("a"), Judged("b")], [Asked, Asked], None, [0, 1], []);
    TellLands(s2, 1);
    var s3 := DoAll(s2, Tell(1));
    assert s3.deps[0] == Judged("a") && s3.deps[1].hash == "b" && ShippedOK(s3.deps[1]) && s3.writes == [Shipped(1)];
    TellLands(s3, 0);
    hide Judged;
    var t := DoAll(s3, Tell(0));
    assert t.closed == [0, 1] && ShippedOK(t.deps[1]) && t.deps[1].hash == "b";
    assert t.writes == [Shipped(1), Shipped(0)];
    WrittenSince(t, 1, 0);
  }

  lemma WrittenSince(s: Stack, i: nat, k: nat)
    requires LastOK(s.deps, s.closed) == Some(i) && k < |s.writes| - 1 && s.writes[k] == Shipped(i)
    ensures !Current(s)
  {
  }

  /** An adoption moves the live hash with no deployment at all. */
  lemma AdoptionWins()
    ensures var acts := Up(0, "a") + Tell(0) + [Adopt("x")];
      var t := DoAll(NEW, acts);
      && Careful(NEW, acts) && t.live == Some("x") && LiveOf(t.deps, t.closed) == Some("a") && !Current(t)
  {
    var acts := Up(0, "a") + Tell(0) + [Adopt("x")];
    hide DoAll, Careful, Quiet, Up, Tell;
    QuietParts(0, "a");
    QuietParts(0, "x");
    QuietBoth(Up(0, "a"), Tell(0));
    QuietBoth(Up(0, "a") + Tell(0), [Adopt("x")]);
    NoRestarts(NEW, acts);
    UpLands(NEW, "a");
    DoAllSplit(NEW, Up(0, "a") + Tell(0), [Adopt("x")]);
    DoAllSplit(NEW, Up(0, "a"), Tell(0));
    OneAct(DoAll(DoAll(NEW, Up(0, "a")), Tell(0)), Adopt("x"));
    ThenAdopted(DoAll(NEW, Up(0, "a")));
  }

  lemma ThenAdopted(s1: Stack)
    requires s1 == Stack([Judged("a")], [Asked], None, [0], [])
    ensures var t := Do(DoAll(s1, Tell(0)), Adopt("x"));
      t.live == Some("x") && LiveOf(t.deps, t.closed) == Some("a") && !Current(t)
  {
    hide DoAll, Tell;
    TellLands(s1, 0);
    var s2 := DoAll(s1, Tell(0));
    assert s2.writes == [Shipped(0)] && s2.closed == [0] && s2.deps[0].hash == "a" && ShippedOK(s2.deps[0]);
    hide Judged;
    var t := Do(s2, Adopt("x"));
    assert t == s2.(live := Some("x"), writes := [Shipped(0), Adopted("x")]);
    assert LastOK(t.deps, t.closed) == Some(0);
    WrittenSince(t, 0, 0);
  }

  lemma OneAct(s: Stack, a: Act)
    ensures DoAll(s, [a]) == Do(s, a)
  {
    assert [a][1..] == [];
  }

  // ── a claim nobody releases ─────────────────────────────────────────────────────────

  predicate Reached(a: Act, i: nat) { a.On? && a.i == i && Reaches(a.event) }

  lemma LockedStep(s: Stack, a: Act, i: nat)
    requires i < |s.deps| && Stranded(s.deps[i]) && !Reached(a, i)
    ensures var t := Do(s, a); |t.deps| == |s.deps| && Stranded(t.deps[i])
  {
    assert Busy(s);
    if a.On? && a.i == i { StrandedStep(s.deps[i], Shipping(s, i, a.event)); }
    if a.ServerCrash? { StrandedStep(s.deps[i], Crash); }
    hide Step, LastGood, Good;
    if a.AutoRollback? && a.i < |s.deps| && s.deps[a.i].phase == Some(Repairing) {
      var t := s.(deps := s.deps[a.i := Step(s.deps[a.i], Repair)]);
      assert t.deps[i] == s.deps[i] && Busy(t);
    }
  }

  /** A deployment that a restart could not reach holds its stack's claim: until one reaches it no
      deployment of that stack is claimed, by hand or by itself. */
  lemma {:induction false} LockedOut(s: Stack, acts: seq<Act>, i: nat)
    requires i < |s.deps| && Stranded(s.deps[i]) && forall a :: a in acts ==> !Reached(a, i)
    ensures var t := DoAll(s, acts); |t.deps| == |s.deps| && Stranded(t.deps[i]) && Busy(t)
    decreases acts
  {
    hide Do;
    if acts != [] {
      LockedStep(s, acts[0], i);
      LockedOut(Do(s, acts[0]), acts[1..], i);
    }
  }
}
