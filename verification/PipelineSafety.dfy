/** What a deployment's verdict guarantees, for any interleaving of hooks, engine, cancellation,
    crashes and restarts. */
module PipelineSafety {
  import opened Wrappers
  import opened Pipeline

  lemma ClaimedInv(deploying: bool, restores: bool)
    ensures Inv(Claimed(deploying, restores))
  {
  }

  lemma FinishInv(d: Deployment, exit: int, repair: bool)
    requires Inv(d) && d.status == Running && (repair ==> d.plan.rollback && HasHooks(d))
    requires exit == 0 ==> EngineAllowed(d) && d.main == Some(0)
    requires exit == 0 && HasHooks(d) && !d.crashed ==> PostPassed(d, |d.plan.post|)
    ensures Inv(Finish(d, exit, repair)) && (exit != 0 ==> Inv(Close(d, exit)))
  {
  }

  lemma BeginInv(d: Deployment, e: Event)
    requires Inv(d) && e.Begin? && d.phase == Some(Preparing)
    ensures Inv(BeginStep(d, e))
  {
    var b := d.(plan := Tamed(e.plan, d.restores), file := e.file, hash := e.hash);
    BegunInv(d, b);
    if !(e.plan.hooked && d.deploying) {
      if e.started {
        PlainInv(b, e.recorded);
      } else {
        hide Inv;
        BegunFails(b);
      }
    }
  }

  /** Prepared: the plan is known, nothing has been started. */
  predicate Begun(b: Deployment) {
    b.status == Running && b.phase == Some(Preparing) && b.ctrs == map[] && b.runner.None?
    && (b.restores && b.plan.hooked ==> !b.plan.rollback)
  }

  /** The invariant but for the phase's own claim that no plan is known. */
  ghost predicate Unphased(b: Deployment) { Inv(b.(phase := None, crashed := true)) }

  lemma BegunInv(d: Deployment, b: Deployment)
    requires Inv(d) && d.phase == Some(Preparing) && Tamed(b.plan, b.restores) == b.plan
    requires b == d.(plan := b.plan, file := b.file, hash := b.hash)
    ensures Begun(b) && Unphased(b)
    ensures HasHooks(b) ==> Inv(b.(phase := Some(Provisioning)))
  {
  }

  lemma BegunFails(b: Deployment)
    requires Begun(b) && Unphased(b)
    ensures Inv(FailEarly(b))
  {
  }

  lemma PlainInv(b: Deployment, recorded: bool)
    requires Begun(b) && Unphased(b) && !HasHooks(b)
    ensures Inv(Launch(b, Main, recorded).(phase := Some(Watching(b.next))))
  {
  }

  /** Losing containers loses nothing else. */
  lemma FewerInv(d: Deployment, left: map<nat, Ctr>)
    requires Inv(d) && forall c :: c in left ==> c in d.ctrs && left[c] == d.ctrs[c]
    ensures Inv(d.(ctrs := left))
  {
    if d.ctrs == map[] { assert left == map[]; }
    FewerPhase(d, left);
  }

  lemma FewerPhase(d: Deployment, left: map<nat, Ctr>)
    requires PhaseOK(d) && (d.ctrs == map[] ==> left == map[])
    requires forall c :: c in left ==> c in d.ctrs && left[c] == d.ctrs[c]
    ensures PhaseOK(d.(ctrs := left))
  {
  }

  lemma DropInv(d: Deployment, c: nat)
    requires Inv(d)
    ensures Inv(Drop(d, c)) && Inv(SweepHooks(d))
  {
    FewerInv(d, Drop(d, c).ctrs);
    FewerInv(d, SweepHooks(d).ctrs);
  }

  lemma AfterPreInv(d: Deployment, i: nat, passed: bool)
    requires Inv(d) && d.status == Running && HasHooks(d) && i < |d.plan.pre| && PrePassed(d, i)
    ensures Inv(AfterPre(d, i, passed))
  {
    if !passed && d.plan.pre[i].blocking { FinishInv(d, 1, false); }
  }

  lemma AfterPostInv(d: Deployment, i: nat, passed: bool)
    requires Inv(d) && d.status == Running && HasHooks(d) && i < |d.plan.post| && PostPassed(d, i)
    requires EngineAllowed(d) && d.main == Some(0)
    ensures Inv(AfterPost(d, i, passed))
  {
    if !passed && d.plan.post[i].blocking { FinishInv(d, 1, d.plan.rollback); }
  }

  lemma LaunchHookInv(d: Deployment, role: Role, recorded: bool, phase: Phase)
    requires Inv(d) && d.status == Running && HasHooks(d) && role != Main
    requires d.phase.Some? && (d.phase.value.PreAt? || d.phase.value.PostAt?)
    requires var i := d.phase.value.i;
      if d.phase.value.PreAt? then i < |d.plan.pre| && role == PreHook(i) && phase == PreWait(i, d.next)
      else i < |d.plan.post| && role == PostHook(i) && phase == PostWait(i, d.next)
    ensures Inv(Launch(d, role, recorded).(phase := Some(phase)))
  {
    var r := Launch(d, role, recorded).(phase := Some(phase));
    assert forall c :: c in r.ctrs ==> c == d.next || (c in d.ctrs && r.ctrs[c] == d.ctrs[c]);
  }

  lemma StartHookInv(d: Deployment, started: bool, recorded: bool)
    requires Inv(d)
    ensures Inv(StartHookStep(d, started, recorded))
  {
    match d.phase {
      case Some(PreAt(i)) =>
        if i < |d.plan.pre| {
          if started {
            LaunchHookInv(d, PreHook(i), recorded, PreWait(i, d.next));
          } else {
            AfterPreInv(d, i, false);
          }
        }
      case Some(PostAt(i)) =>
        if i < |d.plan.post| {
          if started {
            LaunchHookInv(d, PostHook(i), recorded, PostWait(i, d.next));
          } else {
            AfterPostInv(d, i, false);
          }
        }
      case _ =>
    }
  }

  lemma PreHookInv(d: Deployment, i: nat, c: nat, lost: bool, swept: bool)
    requires Inv(d) && d.phase == Some(PreWait(i, c)) && i < |d.plan.pre|
    ensures Inv(PreHookStep(d, i, c, lost, swept))
  {
    hide Inv, AfterPre;
    WaitingIs(d);
    DropInv(d, c);
    if lost {
      AfterPreInv(TrySweep(d, swept), i, false);
    } else if Exited(d, c) {
      AfterPreInv(Drop(d, c), i, d.ctrs[c].exit.value == 0);
    }
  }

  lemma PostHookInv(d: Deployment, i: nat, c: nat, lost: bool, swept: bool)
    requires Inv(d) && d.phase == Some(PostWait(i, c)) && i < |d.plan.post|
    ensures Inv(PostHookStep(d, i, c, lost, swept))
  {
    hide Inv, AfterPost;
    WaitingIs(d);
    DropInv(d, c);
    if lost {
      AfterPostInv(TrySweep(d, swept), i, false);
    } else if Exited(d, c) {
      AfterPostInv(Drop(d, c), i, d.ctrs[c].exit.value == 0);
    }
  }

  lemma WaitingIs(d: Deployment)
    requires Inv(d) && d.phase.Some? && (d.phase.value.PreWait? || d.phase.value.PostWait?)
    ensures d.status == Running && PhaseOK(d)
  {
  }

  lemma HookInv(d: Deployment, lost: bool, swept: bool)
    requires Inv(d)
    ensures Inv(HookStep(d, lost, swept))
  {
    hide PreHookStep, PostHookStep;
    match d.phase {
      case Some(PreWait(i, c)) => PreHookInv(d, i, c, lost, swept);
      case Some(PostWait(i, c)) => PostHookInv(d, i, c, lost, swept);
      case _ =>
    }
  }

  /** Noting the main runner's exit code while the verdict is still open. */
  lemma MainInv(d: Deployment, code: Option<int>)
    requires Inv(d) && d.phase.Some? && (d.phase.value.EngineWait? || d.phase.value.Watching?)
    ensures Inv(d.(main := code)) && d.status == Running
  {
  }

  lemma EngineExit(d: Deployment, c: nat)
    requires Inv(d) && d.phase == Some(EngineWait(c)) && Exited(d, c)
    ensures Inv(EngineStep(d, false))
  {
    var code := d.ctrs[c].exit.value;
    var w := Drop(d, c).(main := Some(code));
    DropInv(d, c);
    MainInv(Drop(d, c), Some(code));
    if code != 0 {
      hide Inv;
      FinishInv(w, code, false);
    }
  }

  lemma EngineInv(d: Deployment, lost: bool)
    requires Inv(d)
    ensures Inv(EngineStep(d, lost))
  {
    match d.phase {
      case Some(EngineWait(c)) =>
        if lost {
          DropInv(d, c);
          MainInv(d, None);
          hide Inv;
          FinishInv(Drop(d, c), 1, false);
        } else if Exited(d, c) {
          EngineExit(d, c);
        }
      case _ =>
    }
  }

  lemma WatchExit(d: Deployment, c: nat)
    requires Inv(d) && d.phase == Some(Watching(c)) && Exited(d, c)
    ensures Inv(WatchStep(d, false))
  {
    var code := d.ctrs[c].exit;
    var w := Drop(d, c).(main := code);
    assert d.ctrs[c].role == Main && EngineAllowed(d) && (HasHooks(d) ==> d.crashed);
    DropInv(d, c);
    MainInv(Drop(d, c), code);
    hide Inv, PhaseOK;
    FinishInv(w, code.value, false);
  }

  lemma WatchInv(d: Deployment, lost: bool)
    requires Inv(d)
    ensures Inv(WatchStep(d, lost))
  {
    match d.phase {
      case Some(Watching(c)) =>
        if lost {
          DropInv(d, c);
          MainInv(d, None);
          hide Inv;
          FinishInv(Drop(d, c), 1, false);
        } else if Exited(d, c) {
          WatchExit(d, c);
        }
      case _ =>
    }
  }

  lemma ReattachSound(d: Deployment, e: Event)
    requires Inv(d) && e.Reattach? && e.reachable && Stranded(d) && !AdoptsHook(d, e)
    ensures Inv(ReattachStep(d, e.reachable, e.swept, e.found))
  {
    DropInv(d, 0);
    SweepLeaves(d);
    SweepClears(d);
    TakeUpInv(TrySweep(d, e.swept), e.found);
    hide Inv, SweepHooks, TakeUp;
  }

  /** Taking up a deployment whose row does not name a hook's container that is still there. */
  lemma TakeUpInv(d: Deployment, found: Option<nat>)
    requires Inv(d) && Stranded(d)
    requires d.runner.Some? && d.runner.value in d.ctrs ==> !IsHook(d.ctrs[d.runner.value])
    ensures Inv(TakeUp(d, found))
  {
    FinishInv(d, 1, false);
    assert d.runner.Some? ==> d.runner.value < d.next;
    assert found.Some? && found.value in d.ctrs ==> found.value < d.next;
    hide Inv, Close, Finish;
    if d.runner.Some? {
      WatchedInv(d, d.runner.value);
    } else if found.Some? && found.value in d.ctrs && !IsHook(d.ctrs[found.value]) {
      WatchedInv(d, found.value);
    }
  }

  lemma SweepClears(d: Deployment)
    ensures forall c :: c in SweepHooks(d).ctrs ==> !IsHook(SweepHooks(d).ctrs[c])
  {
  }

  /** Watching a container that is gone or the main one. */
  lemma WatchedInv(d: Deployment, c: nat)
    requires Inv(d) && Stranded(d) && (c in d.ctrs ==> !IsHook(d.ctrs[c]))
    ensures Inv(d.(phase := Some(Watching(c))))
  {
  }

  lemma AdoptionBreaks(d: Deployment, e: Event)
    requires AdoptsHook(d, e)
    ensures !Inv(ReattachStep(d, e.reachable, e.swept, e.found))
  {
    hide Bookkeeping, Markings;
    assert ReattachStep(d, e.reachable, e.swept, e.found).phase == Some(Watching(d.runner.value));
  }

  /** A reattachment keeps the invariant exactly when it does not take up a hook's runner. */
  lemma ReattachExactly(d: Deployment, e: Event)
    requires Inv(d) && e.Reattach?
    ensures Inv(ReattachStep(d, e.reachable, e.swept, e.found)) <==> !AdoptsHook(d, e)
  {
    hide Inv, SweepHooks;
    if AdoptsHook(d, e) {
      AdoptionBreaks(d, e);
    } else if Stranded(d) && e.reachable {
      ReattachSound(d, e);
    }
  }

  lemma StepInv(d: Deployment, e: Event)
    requires Inv(d)
    ensures Inv(Step(d, e)) <==> !AdoptsHook(d, e)
  {
    hide BeginStep, StartHookStep, HookStep, StartEngineStep, EngineStep, WatchStep, NotifyStep, ReattachStep;
    match e
    case Begin(_, _, _, _, _) => if d.phase == Some(Preparing) { BeginInv(d, e); }
    case StartHook(started, recorded) => StartHookInv(d, started, recorded);
    case HookDone => HookInv(d, false, false);
    case HookLost(swept) => HookInv(d, true, swept);
    case StartEngine(started, recorded) => StartEngineInv(d, started, recorded);
    case EngineDone => EngineInv(d, false);
    case EngineLost => EngineInv(d, true);
    case WatchDone => WatchInv(d, false);
    case WatchLost => WatchInv(d, true);
    case Reattach(_, _, _) => ReattachExactly(d, e);
    case _ => SmallStepInv(d, e);
  }

  lemma StartEngineInv(d: Deployment, started: bool, recorded: bool)
    requires Inv(d)
    ensures Inv(StartEngineStep(d, started, recorded))
  {
    if d.phase == Some(PreAt(|d.plan.pre|)) && !started { FinishInv(d, 1, false); }
  }

  lemma ExitInv(d: Deployment, c: nat, code: int)
    requires Inv(d)
    ensures Inv(Step(d, Exit(c, code)))
  {
    hide BeginStep, StartHookStep, HookStep, StartEngineStep, EngineStep, WatchStep, NotifyStep, ReattachStep;
  }

  lemma PrepareFailsInv(d: Deployment)
    requires Inv(d) && d.phase == Some(Preparing)
    ensures Inv(FailEarly(d))
  {
  }

  lemma ProvisionInv(d: Deployment, done: bool)
    requires Inv(d)
    ensures Inv(Step(d, Provision(done)))
  {
    if d.phase == Some(Provisioning) { FinishInv(d, 1, false); }
  }

  lemma ConcludeInv(d: Deployment)
    requires Inv(d)
    ensures Inv(Step(d, Conclude))
  {
    if d.phase == Some(PostAt(|d.plan.post|)) { FinishInv(d, 0, false); }
  }

  lemma CancelInv(d: Deployment)
    requires Inv(d)
    ensures Inv(Step(d, RequestCancel))
  {
  }

  lemma CrashInv(d: Deployment)
    requires Inv(d)
    ensures Inv(Step(d, Crash))
  {
  }

  lemma NotifyInv(d: Deployment)
    requires Inv(d)
    ensures Inv(NotifyStep(d))
  {
  }

  lemma MarkInv(d: Deployment)
    requires Inv(d)
    ensures Inv(Step(d, Mark))
  {
    hide BeginStep, StartHookStep, HookStep, StartEngineStep, EngineStep, WatchStep, NotifyStep, ReattachStep;
  }

  lemma ReconfirmInv(d: Deployment, notified: bool)
    requires Inv(d)
    ensures Inv(Step(d, Reconfirm(notified)))
  {
  }

  lemma RepairInv(d: Deployment)
    requires Inv(d)
    ensures Inv(Step(d, Repair))
  {
  }

  lemma SmallStepInv(d: Deployment, e: Event)
    requires Inv(d)
    requires e.PrepareFails? || e.Provision? || e.Exit? || e.Conclude? || e.Notify? || e.Mark? || e.RequestCancel?
             || e.Crash? || e.Reconfirm? || e.Repair?
    ensures Inv(Step(d, e))
  {
    hide Inv, Finish, FailEarly, NotifyStep;
    match e
    case PrepareFails => if d.phase == Some(Preparing) { PrepareFailsInv(d); }
    case Provision(done) => ProvisionInv(d, done);
    case Exit(c, code) => ExitInv(d, c, code);
    case Conclude => ConcludeInv(d);
    case Notify => NotifyInv(d);
    case Mark => MarkInv(d);
    case RequestCancel => CancelInv(d);
    case Crash => CrashInv(d);
    case Reconfirm(notified) => ReconfirmInv(d, notified);
    case Repair => RepairInv(d);
  }

  lemma {:induction false} RunInv(d: Deployment, events: seq<Event>)
    requires Inv(d) && NeverAdopts(d, events)
    ensures Inv(Run(d, events))
    decreases events
  {
    hide Inv, Step, AdoptsHook;
    if events != [] {
      StepInv(d, events[0]);
      RunInv(Step(d, events[0]), events[1..]);
    }
  }

  /** The invariant holds all along a run exactly when no reattachment takes up a hook's runner. */
  lemma {:induction false} RunExactly(d: Deployment, events: seq<Event>)
    requires Inv(d)
    ensures NeverAdopts(d, events) <==> forall k :: 0 <= k <= |events| ==> Inv(Run(d, events[..k]))
    decreases events
  {
    hide Inv, Step, AdoptsHook;
    assert Run(d, events[..0]) == d;
    if events != [] {
      var next, rest := Step(d, events[0]), events[1..];
      StepInv(d, events[0]);
      forall k | 0 <= k < |events| ensures Run(d, events[..k + 1]) == Run(next, rest[..k]) {
        assert events[..k + 1][0] == events[0] && events[..k + 1][1..] == rest[..k];
      }
      assert Run(next, rest[..0]) == next;
      if Inv(next) { RunExactly(next, rest); }
      if forall k :: 0 <= k <= |rest| ==> Inv(Run(next, rest[..k])) {
        forall k | 0 <= k <= |events| ensures Inv(Run(d, events[..k])) {
          if k > 0 { assert Inv(Run(next, rest[..k - 1])); }
        }
      }
      if forall k :: 0 <= k <= |events| ==> Inv(Run(d, events[..k])) {
        forall k | 0 <= k <= |rest| ensures Inv(Run(next, rest[..k])) {
          assert Inv(Run(d, events[..k + 1]));
        }
      }
    }
  }

  /** Pipeline safety: however often the server crashed and reattached, a deployment that
      finished OK had every blocking pre hook pass before its main runner exited 0; and when it
      did not crash, every blocking post hook passed as well. */
  lemma OKMeansPassed(deploying: bool, restores: bool, events: seq<Event>)
    requires NeverAdopts(Claimed(deploying, restores), events)
    ensures var d := Run(Claimed(deploying, restores), events);
      d.verdict == Some(OK) ==>
        && d.main == Some(0) && !d.cancel
        && (HasHooks(d) ==> forall i :: 0 <= i < |d.plan.pre| && d.plan.pre[i].blocking ==> i in d.pre)
        && (HasHooks(d) && !d.crashed ==>
              forall i :: 0 <= i < |d.plan.post| && d.plan.post[i].blocking ==> i in d.post)
  {
    ClaimedInv(deploying, restores);
    RunInv(Claimed(deploying, restores), events);
  }

  /** Claim discipline: the claim is closed once, and while it is open somebody is in charge of
      closing it, unless the server has crashed. */
  lemma ClosedOnce(deploying: bool, restores: bool, events: seq<Event>)
    requires NeverAdopts(Claimed(deploying, restores), events)
    ensures var d := Run(Claimed(deploying, restores), events);
      && d.closes == (if d.status == Running then 0 else 1)
      && (d.status == Running && !d.crashed ==> d.phase.Some?)
      && (d.phase.Some? && !Finishing(d) && d.phase != Some(Repairing) ==> d.status == Running)
  {
    ClaimedInv(deploying, restores);
    RunInv(Claimed(deploying, restores), events);
  }

  /** What a verdict implies is done once it is written, step by step, exactly unless the server
      died in between: an OK up or pull that nobody is finishing any more moved the live hash
      if and only if it was not cut off. */
  lemma MarkedUnlessCut(deploying: bool, restores: bool, events: seq<Event>)
    requires NeverAdopts(Claimed(deploying, restores), events)
    ensures var d := Run(Claimed(deploying, restores), events);
      && (d.marked ==> d.verdict == Some(OK) && deploying)
      && (d.verdict == Some(OK) && deploying && !Finishing(d) ==> (d.marked <==> !d.cut))
  {
    ClaimedInv(deploying, restores);
    RunInv(Claimed(deploying, restores), events);
    RunKeepsKind(Claimed(deploying, restores), events);
  }

  // ── crashes and restarts ────────────────────────────────────────────────────────────

  /** A crash leaves an unfinished deployment to nobody. A restart puts somebody in charge of it
      or closes its claim exactly when its stack and environment can be reached then. */
  lemma ReattachRecovers(d: Deployment, reachable: bool, swept: bool, found: Option<nat>)
    requires d.status == Running
    ensures var r := Step(Step(d, Crash), Reattach(reachable, swept, found)); Stranded(r) <==> !reachable
  {
    CrashLeaves(d);
    hide Step;
    ReattachReaches(Step(d, Crash), reachable, swept, found);
  }

  lemma CrashLeaves(d: Deployment)
    ensures d.status == Running ==> Stranded(Step(d, Crash))
  {
    hide BeginStep, StartHookStep, HookStep, StartEngineStep, EngineStep, WatchStep, NotifyStep, ReattachStep;
  }

  lemma ReattachReaches(d: Deployment, reachable: bool, swept: bool, found: Option<nat>)
    requires Stranded(d)
    ensures Step(d, Reattach(reachable, swept, found)) == ReattachStep(d, reachable, swept, found)
    ensures Stranded(ReattachStep(d, reachable, swept, found)) <==> !reachable
  {
    ReattachTakesUp(d, reachable, swept, found);
    hide BeginStep, StartHookStep, HookStep, StartEngineStep, EngineStep, WatchStep, NotifyStep, ReattachStep;
  }

  lemma ReattachTakesUp(d: Deployment, reachable: bool, swept: bool, found: Option<nat>)
    requires Stranded(d)
    ensures Stranded(ReattachStep(d, reachable, swept, found)) <==> !reachable
  {
    SweepLeaves(d);
    TakesUp(TrySweep(d, swept), found);
    hide SweepHooks, TakeUp;
  }

  lemma TakesUp(d: Deployment, found: Option<nat>)
    requires d.status == Running
    ensures !Stranded(TakeUp(d, found))
  {
  }

  lemma SweepLeaves(d: Deployment)
    ensures SweepHooks(d).status == d.status && SweepHooks(d).phase == d.phase && SweepHooks(d).verdict == d.verdict
  {
  }

  predicate Reaches(e: Event) { e.Reattach? && e.reachable }

  /** And it stays with nobody, holding its stack's claim, until a restart that reaches it: no
      exit of its containers, no cancellation and no further restart changes that. */
  lemma {:induction false} StrandedStays(d: Deployment, events: seq<Event>)
    requires Stranded(d) && forall e :: e in events ==> !Reaches(e)
    ensures var r := Run(d, events); Stranded(r) && r.verdict == d.verdict
    decreases events
  {
    hide Step;
    if events != [] {
      StrandedStep(d, events[0]);
      StrandedStays(Step(d, events[0]), events[1..]);
    }
  }

  lemma StrandedStep(d: Deployment, e: Event)
    requires Stranded(d)
    ensures !Reaches(e) ==> Stranded(Step(d, e)) && Step(d, e).verdict == d.verdict
    ensures Reaches(e) ==> !Stranded(Step(d, e))
  {
    if e.Reattach? {
      ReattachReaches(d, e.reachable, e.swept, e.found);
    } else {
      hide BeginStep, ReattachStep;
    }
  }

  /** Bounded repair: at most one rollback, only after a verification that failed and asked for
      it, and none from a deployment that itself puts one back. */
  lemma RepairedOnce(deploying: bool, restores: bool, events: seq<Event>)
    requires NeverAdopts(Claimed(deploying, restores), events)
    ensures var d := Run(Claimed(deploying, restores), events);
      && d.repairs <= 1
      && (d.repairs == 1 ==> d.verdict == Some(Failed) && d.plan.rollback && !restores)
  {
    ClaimedInv(deploying, restores);
    RunInv(Claimed(deploying, restores), events);
    RunKeepsKind(Claimed(deploying, restores), events);
  }

  lemma {:induction false} RunKeepsKind(d: Deployment, events: seq<Event>)
    ensures Run(d, events).restores == d.restores && Run(d, events).deploying == d.deploying
    decreases events
  {
    if events != [] {
      RunKeepsKind(Step(d, events[0]), events[1..]);
    }
  }

  /** Once cancellation is asked for, the only verdict left is cancelled; and a cancelled
      deployment never rolls back, and notifies only if it failed while being prepared. */
  lemma {:induction false} CancelHolds(d: Deployment, events: seq<Event>)
    requires Inv(d) && NeverAdopts(d, events) && d.cancel
    ensures var r := Run(d, events);
      && (r.status == Running || r.status == Cancelled)
      && (r.status == Cancelled ==>
            r.repairs == 0 && r.notices == if r.stillborn && !Finishing(r) && !r.cut then 1 else 0)
    decreases events
  {
    hide Inv, Step, AdoptsHook;
    if events != [] {
      StepInv(d, events[0]);
      CancelHolds(Step(d, events[0]), events[1..]);
    } else {
      CancelledIs(d);
    }
  }

  lemma CancelledIs(d: Deployment)
    requires Inv(d) && d.cancel
    ensures d.status == Running || d.status == Cancelled
    ensures d.status == Cancelled ==>
      d.repairs == 0 && d.notices == if d.stillborn && !Finishing(d) && !d.cut then 1 else 0
  {
  }

  // ── why the sweep matters ───────────────────────────────────────────────────────────

  /** Waiting on its first pre hook, whose runner the row already names. */
  predicate OnFirstHook(d: Deployment) {
    d.phase == Some(PreWait(0, 0)) && d.runner == Some(0) && d.ctrs == map[0 := Ctr(PreHook(0), None)]
    && d.status == Running && !d.cancel && d.main == None && d.pre == {}
  }

  lemma ReachesFirstHook(plan: Plan)
    requires plan == Plan(true, [Hook(true)], [], false)
    ensures var d2 := Step(Step(Claimed(true, false), Begin(plan, "f", "h", true, true)), Provision(true));
      OnFirstHook(Step(d2, StartHook(true, true)))
  {
    var d1 := Step(Claimed(true, false), Begin(plan, "f", "h", true, true));
    assert d1 == Claimed(true, false).(plan := plan, file := "f", hash := "h", phase := Some(Provisioning));
    var d2 := Step(d1, Provision(true));
    assert d2 == d1.(phase := Some(PreAt(0)));
  }

  lemma CrashOnHook(d: Deployment, e: Event)
    requires OnFirstHook(d) && e == Reattach(true, false, None)
    ensures AdoptsHook(Step(d, Crash), e) && Unmoved(d, Step(d, Crash))
  {
    hide BeginStep, StartHookStep, HookStep, StartEngineStep, EngineStep, NotifyStep, WatchStep, ReattachStep;
  }

  /** The verdicts of its hooks and of its engine, its containers and its flag, as they were. */
  predicate Unmoved(d: Deployment, r: Deployment) {
    r.main == d.main && r.pre == d.pre && r.post == d.post && r.ctrs == d.ctrs && r.runner == d.runner
      && r.cancel == d.cancel
  }

  /** Whenever a reattachment takes up the runner of a hook still running, and nobody cancels, the
      hook's exit 0 is recorded as the deployment's, whatever became of engine and hooks. */
  lemma HookAdopted(d: Deployment, e: Event)
    requires AdoptsHook(d, e) && !d.cancel && d.ctrs[d.runner.value].exit.None?
    ensures var r := Step(Step(Step(d, e), Exit(d.runner.value, 0)), WatchDone);
      r.verdict == Some(OK) && r.status == OK && r.main == d.main && r.pre == d.pre && r.post == d.post
  {
    var c := d.runner.value;
    var d1 := Step(d, e);
    assert d1 == d.(phase := Some(Watching(c))) by {
      hide BeginStep, StartHookStep, HookStep, StartEngineStep, EngineStep, NotifyStep, WatchStep;
    }
    var d2 := d1.(ctrs := d1.ctrs[c := d1.ctrs[c].(exit := Some(0))]);
    assert Step(d1, Exit(c, 0)) == d2 by {
      hide BeginStep, StartHookStep, HookStep, StartEngineStep, EngineStep, NotifyStep, WatchStep, ReattachStep;
    }
    hide BeginStep, StartHookStep, HookStep, StartEngineStep, EngineStep, NotifyStep, ReattachStep;
    assert d2.phase == Some(Watching(c)) && Exited(d2, c) && IsHook(d2.ctrs[c]);
  }

  function AdoptingRun(plan: Plan): seq<Event> {
    [Begin(plan, "f", "h", true, true), Provision(true), StartHook(true, true), Crash, Reattach(true, false, None),
     Exit(0, 0), WatchDone]
  }

  /** A restart whose sweep did not go through adopts the hook's runner: the hook exits 0 and
      the deployment is recorded OK though its engine never ran. */
  lemma UnsweptAdoptsHook()
    ensures var d0, e := Claimed(true, false), AdoptingRun(Plan(true, [Hook(true)], [], false));
      var d := Run(d0, e);
      !NeverAdopts(d0, e) && d.verdict == Some(OK) && d.status == OK && d.main == None && d.pre == {}
  {
    hide Step;
    var d0, plan := Claimed(true, false), Plan(true, [Hook(true)], [], false);
    var e := AdoptingRun(plan);
    ReachesFirstHook(plan);
    var d3 := Step(Step(Step(d0, e[0]), e[1]), e[2]);
    CrashOnHook(d3, e[4]);
    HookAdopted(Step(d3, Crash), e[4]);
    SevenSteps(d0, e);
    if NeverAdopts(d0, e) { OKMeansPassed(true, false, e); }
  }

  lemma SevenSteps(d: Deployment, e: seq<Event>)
    requires |e| == 7
    ensures Run(d, e) == Step(Step(Step(Step(Step(Step(Step(d, e[0]), e[1]), e[2]), e[3]), e[4]), e[5]), e[6])
  {
    hide Step, Run;
    ThreeSteps(d, e);
    var rest := e[3..];
    ThreeSteps(Step(Step(Step(d, e[0]), e[1]), e[2]), rest);
    LastStep(Step(Step(Step(Step(Step(Step(d, e[0]), e[1]), e[2]), e[3]), e[4]), e[5]), rest[3..]);
  }

  lemma ThreeSteps(d: Deployment, e: seq<Event>)
    requires |e| >= 3
    ensures Run(d, e) == Run(Step(Step(Step(d, e[0]), e[1]), e[2]), e[3..])
  {
    hide Step;
    var d1, d2 := Step(d, e[0]), Step(Step(d, e[0]), e[1]);
    assert e[1..][0] == e[1] && e[1..][1..] == e[2..];
    assert Run(d1, e[1..]) == Run(d2, e[2..]);
    assert e[2..][0] == e[2] && e[2..][1..] == e[3..];
  }

  lemma LastStep(d: Deployment, e: seq<Event>)
    requires |e| == 1
    ensures Run(d, e) == Step(d, e[0])
  {
    hide Step;
    assert e[1..] == [];
  }
}
