/** The server's own code around a deployment: the claim, the one funnel every outcome goes
    through, the search for what to restore, and the sweep after a restart. */
module DeployServer {
  import opened Wrappers
  import opened Pipeline
  import opened PipelineSafety
  import opened StackRuns
  import opened LiveHash

  class Server {
    var deps: seq<Deployment>
    var causes: seq<Cause>
    var live: Option<string>
    var closed: seq<nat>
    var writes: seq<Write>

    constructor ()
      ensures Holds() == NEW
    {
      deps, causes, live, closed, writes := [], [], None, [], [];
    }

    function Holds(): Stack reads this { Stack(deps, causes, live, closed, writes) }

    /** Counts what runs and inserts in one transaction. */
    method ClaimDeployment(deploying: bool, cause: Cause) returns (id: Option<nat>)
      modifies this
      ensures Holds() == Claim(old(Holds()), deploying, cause)
      ensures id == if Busy(old(Holds())) then None else Some(|old(deps)|)
    {
      var n := 0;
      for i := 0 to |deps|
        invariant n >= 0 && (n > 0 <==> exists j :: 0 <= j < i && deps[j].status == Running)
      {
        if deps[i].status == Running { n := n + 1; }
      }
      if n > 0 { return None; }
      id := Some(|deps|);
      deps, causes := deps + [Claimed(deploying, cause != Asked)], causes + [cause];
    }

    /** Decides the status and writes it, releasing the claim: the only place that can. */
    method FinishDeployment(i: nat, exit: int) returns (status: Status)
      requires i < |deps|
      modifies this`deps, this`closed
      ensures deps == old(deps)[i := Close(old(deps[i]), exit)] && status == deps[i].status
      ensures closed == if old(deps[i]).verdict.None? then old(closed) + [i] else old(closed)
    {
      var d := deps[i];
      status := OK;
      if d.cancel {
        status := Cancelled;
      } else if exit != 0 {
        status := Failed;
      }
      if d.verdict.None? { closed := closed + [i]; }
      deps := deps[i := d.(status := status, verdict := Some(status), closes := d.closes + 1, phase := None)];
    }

    method NotifyDeploy(i: nat)
      requires i < |deps| && deps[i].phase.Some? && deps[i].phase.value.Noticing?
      modifies this`deps
      ensures Holds() == Do(old(Holds()), On(i, Notify)) && deps == old(deps)[i := Step(old(deps[i]), Notify)]
    {
      NoticeOnly(deps[i]);
      deps := deps[i := NotifyStep(deps[i])];
    }

    /** A write of its own: the claim has long been free. */
    method MarkStackDeployed(i: nat)
      requires i < |deps| && deps[i].phase == Some(Marking) && !deps[i].marked
      modifies this`deps, this`writes, this`live
      ensures Holds() == Do(old(Holds()), On(i, Mark)) && live == Some(old(deps[i]).hash)
    {
      MarkOnly(deps[i]);
      deps := deps[i := deps[i].(phase := None, marked := true)];
      writes, live := writes + [Shipped(i)], Some(deps[i].hash);
    }

    /** The funnel: the verdict, then a notification unless cancelled, then what is live. lives:
        how many of these the server lives to write. */
    method FinishDeploy(i: nat, exit: int, repair: bool, lives: nat) returns (status: Status)
      requires i < |deps| && deps[i].verdict.None? && !deps[i].marked && lives > 0
      modifies this`deps, this`closed, this`writes, this`live
      ensures status == Verdict(old(deps[i]).cancel, exit)
      ensures var s := Recorded(old(Holds()), i, Finish(old(deps[i]), exit, repair));
        var told := Do(s, On(i, Notify));
        Holds() == if lives == 1 then s else if lives == 2 then told else Do(told, On(i, Mark))
    {
      ghost var d := deps[i];
      FinishedThen(Recorded(Holds(), i, Finish(d, exit, repair)), i, d, exit, repair);
      status := FinishDeployment(i, exit);
      if status != Cancelled { deps := deps[i := deps[i].(phase := Some(Noticing(repair && status == Failed)))]; }
      assert Holds() == Recorded(old(Holds()), i, Finish(d, exit, repair));
      hide Do, Recorded, Finish;
      if lives == 1 || status == Cancelled { return; }
      NotifyDeploy(i);
      if lives == 2 || status != OK || !deps[i].deploying { return; }
      MarkStackDeployed(i);
    }

    /** A deployment that never reached a runner, made to look like one that did. */
    method FailDeployment(i: nat, lives: nat)
      requires i < |deps| && deps[i].verdict.None? && lives > 0
      modifies this`deps, this`closed
      ensures var s := Recorded(old(Holds()), i, FailEarly(old(deps[i])));
        Holds() == if lives == 1 then s else Do(s, On(i, Notify))
    {
      var _ := FinishDeployment(i, 1);
      deps := deps[i := deps[i].(phase := Some(Noticing(false)), stillborn := true)];
      if lives == 1 { return; }
      hide Do, FailEarly;
      NotifyDeploy(i);
    }

    method RequestCancel(i: nat) returns (flagged: bool)
      requires i < |deps|
      modifies this`deps
      ensures flagged == (old(deps[i]).status == Running)
      ensures deps == old(deps)[i := Step(old(deps[i]), Event.RequestCancel)]
    {
      flagged := deps[i].status == Running;
      if flagged { deps := deps[i := deps[i].(cancel := true)]; }
    }

    /** The newest of the last fifty that stands as OK, shipped something, and is not the one that failed. */
    method LastGoodDeployment(exclude: nat) returns (found: Option<nat>)
      ensures found == LastGood(deps, exclude, DEPTH)
    {
      var depth, i := DEPTH, |deps|;
      assert deps[..|deps|] == deps;
      while i > 0 && depth > 0
        invariant 0 <= i <= |deps| && depth >= 0
        invariant LastGood(deps, exclude, DEPTH) == LastGood(deps[..i], exclude, depth)
        decreases i
      {
        assert deps[..i][..i - 1] == deps[..i - 1] && deps[..i][i - 1] == deps[i - 1];
        if i - 1 != exclude && Good(deps[i - 1]) { return Some(i - 1); }
        i, depth := i - 1, depth - 1;
      }
      found := None;
    }

    /** Removes a deployment's hook runners one by one, if the daemon answers. */
    method RemoveHookRunners(i: nat, swept: bool)
      requires i < |deps|
      modifies this`deps
      ensures deps == old(deps)[i := TrySweep(old(deps[i]), swept)]
    {
      ghost var was, d := deps, deps[i];
      if !swept {
        assert was[i := d] == was;
        return;
      }
      var ctrs := deps[i].ctrs;
      var left := set c | c in ctrs && IsHook(ctrs[c]);
      SweepSoFar(d, left);
      while left != {}
        invariant forall c :: c in left ==> c in d.ctrs && IsHook(d.ctrs[c])
        invariant deps == was && ctrs == Remaining(d.ctrs, left)
        decreases |left|
      {
        var c :| c in left;
        SweepNext(d.ctrs, left, c);
        ctrs, left := ctrs - {c}, left - {c};
      }
      SweepSoFar(d, left);
      deps := deps[i := deps[i].(ctrs := ctrs)];
    }

    /** A main runner of this deployment by its label; found: what the daemon lists. */
    method FindRunner(i: nat, found: Option<nat>) returns (runner: Option<nat>)
      requires i < |deps|
      ensures runner.Some? <==> found.Some? && found.value in deps[i].ctrs && !IsHook(deps[i].ctrs[found.value])
      ensures runner.Some? ==> runner == found
    {
      if found.None? || found.value !in deps[i].ctrs { return None; }
      if IsHook(deps[i].ctrs[found.value]) { return None; }
      runner := found;
    }

    /** One unfinished deployment: skipped when its stack or environment cannot be reached, else its
        runner found again, or the deployment failed for the lack of one. */
    method ReattachOne(i: nat, reachable: bool, swept: bool, found: Option<nat>)
      requires i < |deps|
      modifies this`deps, this`closed
      ensures Holds() == Do(old(Holds()), On(i, Reattach(reachable, swept, found)))
      ensures deps == old(deps)[i := ReattachStep(old(deps[i]), reachable, swept, found)]
    {
      ghost var was, d := deps, deps[i];
      ReattachMarksNothing(d, reachable, swept, found);
      hide Step;
      if !Stranded(deps[i]) || !reachable {
        assert deps[i := deps[i]] == deps;
        return;
      }
      RemoveHookRunners(i, swept);
      SweepLeaves(d);
      hide SweepHooks;
      var runner := deps[i].runner;
      if runner.None? {
        runner := FindRunner(i, found);
        if runner.None? {
          var _ := FinishDeployment(i, 1);
          assert deps == was[i := ReattachStep(d, reachable, swept, found)];
          return;
        }
      }
      deps := deps[i := deps[i].(phase := Some(Watching(runner.value)))];
      assert deps == was[i := ReattachStep(d, reachable, swept, found)];
    }

    /** After a restart: every unfinished deployment that can be reached is reattached or failed, and
        those that cannot, and only those, go on running with nobody in charge. */
    method ReapOrphanedRuns(reachable: seq<bool>, swept: seq<bool>, found: seq<Option<nat>>)
      requires |reachable| == |swept| == |found| == |deps|
      modifies this`deps, this`closed
      ensures Holds() == DoAll(old(Holds()), Reattachments(reachable, swept, found))
      ensures |deps| == |old(deps)|
      ensures forall i :: 0 <= i < |deps| ==> (Stranded(deps[i]) <==> Stranded(old(deps[i])) && !reachable[i])
    {
      hide ReattachStep, Do;
      ghost var s, acts := Holds(), Reattachments(reachable, swept, found);
      for i := 0 to |deps|
        invariant |deps| == |found| == |s.deps|
        invariant Holds() == DoAll(s, acts[..i])
        invariant forall j :: 0 <= j < i ==> (Stranded(deps[j]) <==> Stranded(s.deps[j]) && !reachable[j])
        invariant forall j :: i <= j < |deps| ==> deps[j] == s.deps[j]
      {
        DoAllNext(s, acts, i);
        StrandedUnlessReached(deps[i], reachable[i], swept[i], found[i]);
        ReattachOne(i, reachable[i], swept[i], found[i]);
      }
      assert acts[..|deps|] == acts;
    }

    /** A new process: whoever was in charge died with the old one, and the sweep comes first. Left
        with nobody are exactly the deployments that were unfinished and cannot be reached now. */
    method Start(reachable: seq<bool>, swept: seq<bool>, found: seq<Option<nat>>)
      requires |reachable| == |swept| == |found| == |deps|
      modifies this`deps, this`closed
      ensures Holds() == DoAll(Do(old(Holds()), ServerCrash), Reattachments(reachable, swept, found))
      ensures |deps| == |old(deps)|
      ensures forall i :: 0 <= i < |deps| ==>
        (Stranded(deps[i]) <==> old(deps[i]).status == Running && !reachable[i])
    {
      var before := deps;
      deps := seq(|before|, i requires 0 <= i < |before| => Step(before[i], Crash));
      assert Holds() == Do(old(Holds()), ServerCrash);
      forall i | 0 <= i < |deps| ensures Stranded(deps[i]) <==> before[i].status == Running {
        CrashStrands(before[i]);
      }
      hide Step, Do;
      ReapOrphanedRuns(reachable, swept, found);
    }
  }

  /** The containers of a deployment while these hook runners are still to be removed. */
  function Remaining(ctrs: map<nat, Ctr>, left: set<nat>): map<nat, Ctr> {
    map c | c in ctrs && (!IsHook(ctrs[c]) || c in left) :: ctrs[c]
  }

  lemma SweepNext(ctrs: map<nat, Ctr>, left: set<nat>, c: nat)
    requires c in ctrs && IsHook(ctrs[c])
    ensures Remaining(ctrs, left) - {c} == Remaining(ctrs, left - {c})
  {
  }

  lemma SweepSoFar(d: Deployment, left: set<nat>)
    ensures (forall c :: c in d.ctrs && IsHook(d.ctrs[c]) ==> c in left) ==> Remaining(d.ctrs, left) == d.ctrs
    ensures left == {} ==> d.(ctrs := Remaining(d.ctrs, left)) == SweepHooks(d)
  {
    if left == {} { assert Remaining(d.ctrs, left) == SweepHooks(d).ctrs; }
  }

  function Reattachments(reachable: seq<bool>, swept: seq<bool>, found: seq<Option<nat>>): seq<Act>
    requires |reachable| == |swept| == |found|
  {
    seq(|found|, i requires 0 <= i < |found| => On(i, Reattach(reachable[i], swept[i], found[i])))
  }

  /** What a restart cannot reach stays claimed: as long as no later restart reaches it either,
      whatever else happens, no deployment of its stack is ever claimed again. */
  lemma SkippedHoldsClaim(s: Stack, reachable: seq<bool>, swept: seq<bool>, found: seq<Option<nat>>, i: nat,
                          acts: seq<Act>, deploying: bool, cause: Cause)
    requires |reachable| == |swept| == |found| == |s.deps| && i < |s.deps|
    requires s.deps[i].status == Running && !reachable[i] && forall a :: a in acts ==> !Reached(a, i)
    ensures var t := DoAll(DoAll(Do(s, ServerCrash), Reattachments(reachable, swept, found)), acts);
      |t.deps| == |s.deps| && t.deps[i].status == Running && Claim(t, deploying, cause) == t
  {
    var sweep := Reattachments(reachable, swept, found);
    CrashStrands(s.deps[i]);
    var down := Do(s, ServerCrash);
    assert forall a :: a in sweep ==> !Reached(a, i);
    hide Do, Reattachments;
    LockedOut(down, sweep, i);
    LockedOut(DoAll(down, sweep), acts, i);
  }

  lemma CrashStrands(d: Deployment)
    ensures Stranded(Step(d, Crash)) <==> d.status == Running
  {
    hide BeginStep, StartHookStep, HookStep, StartEngineStep, EngineStep, WatchStep, NotifyStep, ReattachStep;
  }

  lemma {:induction false} DoAllNext(s: Stack, acts: seq<Act>, i: nat)
    requires i < |acts|
    ensures DoAll(s, acts[..i + 1]) == Do(DoAll(s, acts[..i]), acts[i])
    decreases i
  {
    hide Do;
    if i == 0 {
      assert acts[..1][1..] == [] && acts[..0] == [];
    } else {
      assert acts[..i + 1][1..] == acts[1..][..i] && acts[..i][1..] == acts[1..][..i - 1];
      DoAllNext(Do(s, acts[0]), acts[1..], i - 1);
    }
  }

  lemma ReattachMarksNothing(d: Deployment, reachable: bool, swept: bool, found: Option<nat>)
    ensures var e := Reattach(reachable, swept, found);
      Step(d, e) == ReattachStep(d, reachable, swept, found) && Step(d, e).marked == d.marked
  {
    hide BeginStep, StartHookStep, HookStep, StartEngineStep, EngineStep, WatchStep, NotifyStep, ReattachStep;
  }

  lemma StrandedUnlessReached(d: Deployment, reachable: bool, swept: bool, found: Option<nat>)
    ensures Stranded(ReattachStep(d, reachable, swept, found)) <==> Stranded(d) && !reachable
  {
    if Stranded(d) { ReattachReaches(d, reachable, swept, found); }
  }

  lemma NoticeOnly(d: Deployment)
    requires d.phase.Some? && d.phase.value.Noticing?
    ensures Step(d, Notify) == NotifyStep(d) && NotifyStep(d).verdict == d.verdict && NotifyStep(d).marked == d.marked
  {
    hide BeginStep, StartHookStep, HookStep, StartEngineStep, EngineStep, WatchStep, ReattachStep;
  }

  lemma MarkOnly(d: Deployment)
    requires d.phase == Some(Marking)
    ensures Step(d, Mark) == d.(phase := None, marked := true)
  {
    hide BeginStep, StartHookStep, HookStep, StartEngineStep, EngineStep, WatchStep, NotifyStep, ReattachStep;
  }

  /** What a recorded verdict is followed by. */
  lemma FinishedThen(s: Stack, i: nat, d: Deployment, exit: int, repair: bool)
    requires i < |s.deps| && s.deps[i] == Finish(d, exit, repair) && !d.marked
    ensures var f := s.deps[i];
      && f.status == Verdict(d.cancel, exit) && f.deploying == d.deploying && !f.marked
      && (f.status != Cancelled ==> f.phase == Some(Noticing(repair && f.status == Failed)))
      && (f.status == Cancelled ==> Do(s, On(i, Notify)) == s && Do(s, On(i, Mark)) == s)
      && (f.status != Cancelled ==>
           var n := Step(f, Notify);
           && !n.marked && n.deploying == d.deploying
           && (if f.status == OK && d.deploying then n.phase == Some(Marking)
               else Do(Do(s, On(i, Notify)), On(i, Mark)) == Do(s, On(i, Notify))))
  {
    var f := s.deps[i];
    assert f.verdict == Some(f.status);
    NotifyIdle(f);
    hide Step, Finish;
    assert s.deps[i := f] == s.deps;
    var t := Do(s, On(i, Notify));
    assert t.deps[i := t.deps[i]] == t.deps;
  }

  lemma NotifyIdle(f: Deployment)
    requires f.phase.None? || f.phase.value.Noticing?
    ensures f.phase.None? ==> Step(f, Notify) == f && Step(f, Mark) == f
    ensures f.phase.Some? ==>
      var n := Step(f, Notify);
      && n.verdict == f.verdict && n.marked == f.marked && n.deploying == f.deploying
      && (if f.phase.value.repair then n.phase == Some(Repairing)
          else if f.verdict == Some(OK) && f.deploying then n.phase == Some(Marking) else n.phase.None?)
      && (n.phase != Some(Marking) ==> Step(n, Mark) == n)
  {
    hide BeginStep, StartHookStep, HookStep, StartEngineStep, EngineStep, WatchStep, ReattachStep;
  }
}
