/** Exactly when a recorded OK is not what it promises, over every run, restarts that take up a
    hook's runner included. */
module PipelineVerdict {
  import opened Wrappers
  import opened Pipeline
  import opened PipelineSafety

  /** What an OK promises: the main runner exited 0, after every blocking pre hook had passed. */
  ghost predicate Promised(d: Deployment) { d.main == Some(0) && EngineAllowed(d) }

  /** The exit 0 of a pre hook's runner is about to be recorded as the deployment's, nobody having
      cancelled and the main runner not having exited 0. */
  predicate Misjudges(d: Deployment, e: Event) {
    && e.WatchDone? && d.phase.Some? && d.phase.value.Watching?
    && var c := d.phase.value.ctr;
    Exited(d, c) && d.ctrs[c].exit == Some(0) && d.ctrs[c].role.PreHook? && !d.cancel && d.main != Some(0)
  }

  predicate Misjudged(d: Deployment, events: seq<Event>)
    decreases events
  {
    events != [] && (Misjudges(d, events[0]) || Misjudged(Step(d, events[0]), events[1..]))
  }

  // ── what holds whatever a restart takes up ──────────────────────────────────────────

  /** What each place in the pipeline has behind it; nothing is said of what is watched. */
  ghost predicate Reached(d: Deployment) {
    match d.phase
    case Some(Preparing) => d.ctrs == map[] && d.plan == NOPLAN && d.main.None?
    case Some(Provisioning) => HasHooks(d)
    case Some(PreAt(i)) => HasHooks(d) && i <= |d.plan.pre| && PrePassed(d, i)
    case Some(PreWait(i, _)) => HasHooks(d) && i < |d.plan.pre| && PrePassed(d, i)
    case Some(EngineWait(_)) => HasHooks(d) && EngineAllowed(d)
    case Some(PostAt(i)) => HasHooks(d) && d.main == Some(0) && i <= |d.plan.post|
    case Some(PostWait(i, _)) => HasHooks(d) && d.main == Some(0) && i < |d.plan.post|
    case _ => true
  }

  /** While the verdict is open: an engine was started after its pre hooks, a post hook after it. */
  ghost predicate Containers(d: Deployment) {
    && (forall c :: c in d.ctrs && d.ctrs[c].role == Main ==> EngineAllowed(d))
    && (forall c :: c in d.ctrs && d.ctrs[c].role.PostHook? ==> d.main == Some(0))
  }

  /** Closed or not; a main runner's exit code was read after its pre hooks had passed. */
  ghost predicate Settled(d: Deployment) {
    && (d.main.Some? ==> EngineAllowed(d))
    && (d.status == Running <==> d.verdict.None?) && d.verdict != Some(Running)
    && (d.phase.Some? ==> (Finishing(d) || d.phase == Some(Repairing) <==> d.status != Running))
  }

  ghost predicate Ordered(d: Deployment) { Reached(d) && Settled(d) && (d.verdict.None? ==> Containers(d)) }

  /** What a step leaves open is in order; what it closes is OK as promised or not; and what is
      closed stays as it was judged. */
  ghost predicate Sound(d: Deployment, r: Deployment, misjudged: bool) {
    && Ordered(r)
    && (misjudged ==> r.verdict == Some(OK))
    && (d.verdict.None? && r.verdict == Some(OK) ==> (Promised(r) <==> !misjudged))
    && (d.verdict.Some? ==> r.verdict == d.verdict && (Promised(r) <==> Promised(d)))
  }

  lemma FinishSound(d: Deployment, b: Deployment, exit: int, repair: bool)
    requires d.verdict.None? && b.verdict.None? && (b.main.Some? ==> EngineAllowed(b))
    requires exit == 0 ==> b.main == Some(0)
    ensures Sound(d, Finish(b, exit, repair), false) && Sound(d, Close(b, exit), false)
  {
  }

  lemma OpenSound(d: Deployment, r: Deployment)
    requires d.verdict.None? && Ordered(r) && r.verdict.None?
    ensures Sound(d, r, false)
  {
  }

  lemma SameSound(d: Deployment)
    requires Ordered(d)
    ensures Sound(d, d, false)
  {
  }

  /** Losing containers, or the place in the pipeline, loses nothing else. */
  lemma FewerOrdered(d: Deployment, left: map<nat, Ctr>)
    requires Ordered(d) && forall c :: c in left ==> c in d.ctrs && left[c] == d.ctrs[c]
    ensures Ordered(d.(ctrs := left))
  {
    if d.ctrs == map[] { assert left == map[]; }
  }

  lemma DropOrdered(d: Deployment, c: nat)
    requires Ordered(d)
    ensures Ordered(Drop(d, c))
  {
    FewerOrdered(d, Drop(d, c).ctrs);
  }

  lemma SweepOrdered(d: Deployment, swept: bool)
    requires Ordered(d)
    ensures Ordered(TrySweep(d, swept)) && TrySweep(d, swept) == d.(ctrs := TrySweep(d, swept).ctrs)
  {
    FewerOrdered(d, SweepHooks(d).ctrs);
    assert d == d.(ctrs := d.ctrs);
  }

  // ── step by step ────────────────────────────────────────────────────────────────────

  lemma BeginSound(d: Deployment, e: Event)
    requires Ordered(d) && e.Begin? && d.phase == Some(Preparing)
    ensures Sound(d, BeginStep(d, e), false)
  {
    assert d.main.None? && d.verdict.None?;
    hide Ordered, Sound, Launch, FailEarly;
    var b := d.(plan := Tamed(e.plan, d.restores), file := e.file, hash := e.hash);
    if e.plan.hooked && d.deploying {
      ProvisioningOrdered(d, b);
      OpenSound(d, b.(phase := Some(Provisioning)));
    } else if e.started {
      PlainOrdered(d, b, e.recorded);
      OpenSound(d, Launch(b, Main, e.recorded).(phase := Some(Watching(b.next))));
    } else {
      FailEarlySound(d, b);
    }
  }

  lemma ProvisioningOrdered(d: Deployment, b: Deployment)
    requires Ordered(d) && d.phase == Some(Preparing) && b.ctrs == d.ctrs && b.main == d.main && b.verdict == d.verdict
    requires b.status == d.status && HasHooks(b)
    ensures Ordered(b.(phase := Some(Provisioning)))
  {
  }

  lemma PlainOrdered(d: Deployment, b: Deployment, recorded: bool)
    requires Ordered(d) && d.phase == Some(Preparing) && b.ctrs == d.ctrs && b.main == d.main && b.verdict == d.verdict
    requires b.status == d.status && !HasHooks(b)
    ensures Ordered(Launch(b, Main, recorded).(phase := Some(Watching(b.next))))
  {
  }

  lemma AfterPreSound(d: Deployment, b: Deployment, i: nat, passed: bool)
    requires d.verdict.None? && Ordered(b) && b.verdict.None? && i < |b.plan.pre| && HasHooks(b) && PrePassed(b, i)
    ensures Sound(d, AfterPre(b, i, passed), false)
  {
    if !passed && b.plan.pre[i].blocking { FinishSound(d, b, 1, false); }
  }

  lemma AfterPostSound(d: Deployment, b: Deployment, i: nat, passed: bool)
    requires d.verdict.None? && Ordered(b) && b.verdict.None? && i < |b.plan.post| && HasHooks(b) && b.main == Some(0)
    ensures Sound(d, AfterPost(b, i, passed), false)
  {
    if !passed && b.plan.post[i].blocking { FinishSound(d, b, 1, b.plan.rollback); }
  }

  lemma StartPreSound(d: Deployment, i: nat, started: bool, recorded: bool)
    requires Ordered(d) && d.phase == Some(PreAt(i)) && i < |d.plan.pre|
    ensures Sound(d, StartPre(d, i, started, recorded), false)
  {
    if started {
      var r := StartPre(d, i, started, recorded);
      assert forall c :: c in r.ctrs ==> c == d.next || (c in d.ctrs && r.ctrs[c] == d.ctrs[c]);
    } else {
      AfterPreSound(d, d, i, false);
    }
  }

  lemma StartPostSound(d: Deployment, i: nat, started: bool, recorded: bool)
    requires Ordered(d) && d.phase == Some(PostAt(i)) && i < |d.plan.post|
    ensures Sound(d, StartPost(d, i, started, recorded), false)
  {
    if started {
      var r := StartPost(d, i, started, recorded);
      assert forall c :: c in r.ctrs ==> c == d.next || (c in d.ctrs && r.ctrs[c] == d.ctrs[c]);
    } else {
      AfterPostSound(d, d, i, false);
    }
  }

  lemma StartHookSound(d: Deployment, started: bool, recorded: bool)
    requires Ordered(d)
    ensures Sound(d, StartHookStep(d, started, recorded), false)
  {
    SameSound(d);
    hide Sound, Ordered, StartPre, StartPost;
    match d.phase {
      case Some(PreAt(i)) => if i < |d.plan.pre| { StartPreSound(d, i, started, recorded); }
      case Some(PostAt(i)) => if i < |d.plan.post| { StartPostSound(d, i, started, recorded); }
      case _ =>
    }
  }

  lemma PreHookSound(d: Deployment, i: nat, c: nat, lost: bool, swept: bool)
    requires Ordered(d) && d.phase == Some(PreWait(i, c)) && i < |d.plan.pre|
    ensures Sound(d, PreHookStep(d, i, c, lost, swept), false)
  {
    DropOrdered(d, c);
    SweepOrdered(d, swept);
    SameSound(d);
    assert d.verdict.None? && HasHooks(d) && PrePassed(d, i);
    hide Sound, Ordered, AfterPre, TrySweep;
    if lost {
      AfterPreSound(d, TrySweep(d, swept), i, false);
    } else if Exited(d, c) {
      AfterPreSound(d, Drop(d, c), i, d.ctrs[c].exit.value == 0);
    }
  }

  lemma PostHookSound(d: Deployment, i: nat, c: nat, lost: bool, swept: bool)
    requires Ordered(d) && d.phase == Some(PostWait(i, c)) && i < |d.plan.post|
    ensures Sound(d, PostHookStep(d, i, c, lost, swept), false)
  {
    DropOrdered(d, c);
    SweepOrdered(d, swept);
    SameSound(d);
    assert d.verdict.None? && HasHooks(d) && d.main == Some(0);
    hide Sound, Ordered, AfterPost, TrySweep;
    if lost {
      AfterPostSound(d, TrySweep(d, swept), i, false);
    } else if Exited(d, c) {
      AfterPostSound(d, Drop(d, c), i, d.ctrs[c].exit.value == 0);
    }
  }

  lemma HookSound(d: Deployment, lost: bool, swept: bool)
    requires Ordered(d)
    ensures Sound(d, HookStep(d, lost, swept), false)
  {
    SameSound(d);
    hide Sound, Ordered, PreHookStep, PostHookStep;
    match d.phase {
      case Some(PreWait(i, c)) => if i < |d.plan.pre| { PreHookSound(d, i, c, lost, swept); }
      case Some(PostWait(i, c)) => if i < |d.plan.post| { PostHookSound(d, i, c, lost, swept); }
      case _ =>
    }
  }

  lemma StartEngineSound(d: Deployment, started: bool, recorded: bool)
    requires Ordered(d)
    ensures Sound(d, StartEngineStep(d, started, recorded), false)
  {
    if d.phase != Some(PreAt(|d.plan.pre|)) {
      SameSound(d);
    } else if started {
      var r := StartEngineStep(d, started, recorded);
      assert forall c :: c in r.ctrs ==> c == d.next || (c in d.ctrs && r.ctrs[c] == d.ctrs[c]);
    } else {
      FinishSound(d, d, 1, false);
    }
  }

  lemma EngineEndSound(d: Deployment, c: nat)
    requires Ordered(d) && d.phase == Some(EngineWait(c)) && Exited(d, c)
    ensures Sound(d, EngineEnd(d, c), false)
  {
    var code := d.ctrs[c].exit.value;
    if code != 0 { FinishSound(d, Drop(d, c).(main := Some(code)), code, false); }
  }

  lemma EngineSound(d: Deployment, lost: bool)
    requires Ordered(d)
    ensures Sound(d, EngineStep(d, lost), false)
  {
    SameSound(d);
    match d.phase {
      case Some(EngineWait(c)) =>
        if lost {
          FinishSound(d, Drop(d, c), 1, false);
        } else if Exited(d, c) {
          EngineEndSound(d, c);
        }
        hide Sound, Ordered, EngineEnd, Finish;
      case _ =>
    }
  }

  /** The watcher's verdict: the one place where a hook's exit may pass for the deployment's. */
  lemma WatchEndSound(d: Deployment, c: nat)
    requires Ordered(d) && d.phase == Some(Watching(c)) && Exited(d, c)
    ensures Sound(d, WatchEnd(d, c), Misjudges(d, WatchDone))
  {
    var exit := d.ctrs[c].exit.value;
    var w := Drop(d, c).(main := if IsHook(d.ctrs[c]) then d.main else d.ctrs[c].exit);
    WatchedMain(d, c, w);
    hide Finish, Sound, Ordered, EngineAllowed, Drop;
    if exit != 0 || w.main == Some(0) {
      FinishSound(d, w, exit, false);
    } else {
      HookFinishes(d, w);
    }
  }

  lemma WatchedMain(d: Deployment, c: nat, w: Deployment)
    requires Ordered(d) && d.phase == Some(Watching(c)) && Exited(d, c)
    requires w == Drop(d, c).(main := if IsHook(d.ctrs[c]) then d.main else d.ctrs[c].exit)
    ensures (w.main.Some? ==> EngineAllowed(w)) && d.verdict.None? && w.verdict.None? && w.cancel == d.cancel
    ensures IsHook(d.ctrs[c]) && d.ctrs[c].exit == Some(0) && w.main != Some(0) ==> d.ctrs[c].role.PreHook?
    ensures !IsHook(d.ctrs[c]) ==> w.main == d.ctrs[c].exit
  {
  }

  /** A hook's exit 0 taken for the deployment's while its engine has not exited 0. */
  lemma HookFinishes(d: Deployment, b: Deployment)
    requires d.verdict.None? && b.verdict.None? && (b.main.Some? ==> EngineAllowed(b)) && b.main != Some(0)
    ensures Sound(d, Finish(b, 0, false), !b.cancel)
  {
  }

  lemma WatchSound(d: Deployment, lost: bool)
    requires Ordered(d)
    ensures Sound(d, WatchStep(d, lost), !lost && Misjudges(d, WatchDone))
  {
    SameSound(d);
    match d.phase {
      case Some(Watching(c)) =>
        if lost {
          FinishSound(d, Drop(d, c), 1, false);
        } else if Exited(d, c) {
          WatchEndSound(d, c);
        }
        hide Sound, Ordered, WatchEnd, Close;
      case _ =>
    }
  }

  lemma ReattachSound(d: Deployment, reachable: bool, swept: bool, found: Option<nat>)
    requires Ordered(d)
    ensures Sound(d, ReattachStep(d, reachable, swept, found), false)
  {
    SameSound(d);
    if Stranded(d) && reachable {
      SweepOrdered(d, swept);
      TakeUpSound(d, TrySweep(d, swept), found);
      hide Sound, Ordered, TakeUp, TrySweep;
    }
  }

  lemma TakeUpSound(d: Deployment, b: Deployment, found: Option<nat>)
    requires d.verdict.None? && Ordered(b) && Stranded(b)
    ensures Sound(d, TakeUp(b, found), false)
  {
    FinishSound(d, b, 1, false);
    if b.runner.Some? {
      WatchingSound(d, b, b.runner.value);
    } else if found.Some? {
      WatchingSound(d, b, found.value);
    }
    hide Close, Sound, Ordered;
  }

  lemma WatchingSound(d: Deployment, b: Deployment, c: nat)
    requires d.verdict.None? && Ordered(b) && Stranded(b)
    ensures Sound(d, b.(phase := Some(Watching(c))), false)
  {
  }

  lemma SmallSound(d: Deployment, e: Event)
    requires Ordered(d)
    requires e.PrepareFails? || e.Provision? || e.Exit? || e.Conclude? || e.Notify? || e.Mark? || e.RequestCancel?
             || e.Crash? || e.Reconfirm? || e.Repair?
    ensures Sound(d, Step(d, e), false)
  {
    SameSound(d);
    match e
    case PrepareFails => if d.phase == Some(Preparing) { FailEarlySound(d, d); }
    case Provision(done) => ProvisionSound(d, done);
    case Exit(c, code) => ExitSound(d, c, code);
    case Conclude => if d.phase == Some(PostAt(|d.plan.post|)) { FinishSound(d, d, 0, false); }
    case _ => BookSound(d, e);
    hide BeginStep, StartHookStep, HookStep, StartEngineStep, EngineStep, WatchStep, NotifyStep, ReattachStep, Finish,
         FailEarly, Sound, Ordered;
  }

  lemma FailEarlySound(d: Deployment, b: Deployment)
    requires d.verdict.None? && b.verdict.None? && b.main.None?
    ensures Sound(d, FailEarly(b), false)
  {
  }

  lemma ProvisionSound(d: Deployment, done: bool)
    requires Ordered(d)
    ensures Sound(d, Step(d, Provision(done)), false)
  {
    hide BeginStep, StartHookStep, HookStep, StartEngineStep, EngineStep, WatchStep, NotifyStep, ReattachStep;
    if d.phase == Some(Provisioning) { FinishSound(d, d, 1, false); }
  }

  lemma ExitSound(d: Deployment, c: nat, code: int)
    requires Ordered(d)
    ensures Sound(d, Step(d, Exit(c, code)), false)
  {
    SameSound(d);
    if c in d.ctrs { ExitedOrdered(d, d.ctrs[c := d.ctrs[c].(exit := Some(code))]); }
    hide Ordered, PrePassed, BeginStep, StartHookStep, HookStep, StartEngineStep, EngineStep, WatchStep, NotifyStep,
         ReattachStep;
  }

  /** An exit code changes no container's role. */
  lemma ExitedOrdered(d: Deployment, ctrs: map<nat, Ctr>)
    requires Ordered(d) && ctrs.Keys == d.ctrs.Keys && forall c :: c in ctrs ==> ctrs[c].role == d.ctrs[c].role
    ensures Ordered(d.(ctrs := ctrs)) && Promised(d.(ctrs := ctrs)) == Promised(d)
  {
    if d.ctrs == map[] { assert ctrs == map[]; }
  }

  predicate SameBehind(d: Deployment, r: Deployment) {
    && r.deploying == d.deploying && r.plan == d.plan && r.ctrs == d.ctrs && r.pre == d.pre && r.main == d.main
    && r.verdict == d.verdict && (r.status == Running <==> d.status == Running)
  }

  lemma SamePast(d: Deployment, r: Deployment)
    requires SameBehind(d, r)
    ensures (EngineAllowed(r) <==> EngineAllowed(d)) && (Containers(r) <==> Containers(d))
    ensures forall i: nat :: PrePassed(r, i) <==> PrePassed(d, i)
  {
  }

  /** What comes after the verdict, and a crash, leave behind what is behind. */
  lemma MovedOn(d: Deployment, r: Deployment)
    requires Ordered(d) && SameBehind(d, r)
    requires r.phase.None? || (r.status != Running && (Finishing(r) || r.phase == Some(Repairing)))
    ensures Sound(d, r, false)
  {
    SamePast(d, r);
    hide EngineAllowed, Containers;
  }

  lemma Stayed(d: Deployment, r: Deployment)
    requires Ordered(d) && SameBehind(d, r) && r.phase == d.phase
    ensures Sound(d, r, false)
  {
    SamePast(d, r);
    hide EngineAllowed, Containers, PrePassed;
  }

  lemma BookSound(d: Deployment, e: Event)
    requires Ordered(d)
    requires e.Notify? || e.Mark? || e.RequestCancel? || e.Crash? || e.Reconfirm? || e.Repair?
    ensures Sound(d, Step(d, e), false)
  {
    SameSound(d);
    hide BeginStep, StartHookStep, HookStep, StartEngineStep, EngineStep, WatchStep, ReattachStep, EngineAllowed,
         Containers, PrePassed;
    var r := Step(d, e);
    if e.RequestCancel? || e.Reconfirm? {
      Stayed(d, r);
    } else if r != d {
      MovedOn(d, r);
    }
    hide Sound;
  }

  /** Every step, whatever it takes up: an OK it records is what it promises exactly unless it is
      a pre hook's exit that passes for the deployment's. */
  lemma StepJudges(d: Deployment, e: Event)
    requires Ordered(d)
    ensures Sound(d, Step(d, e), Misjudges(d, e))
  {
    SameSound(d);
    hide BeginStep, StartHookStep, HookStep, StartEngineStep, EngineStep, WatchStep, NotifyStep, ReattachStep;
    hide Sound, Ordered;
    match e
    case Begin(_, _, _, _, _) => if d.phase == Some(Preparing) { BeginSound(d, e); }
    case StartHook(started, recorded) => StartHookSound(d, started, recorded);
    case HookDone => HookSound(d, false, false);
    case HookLost(swept) => HookSound(d, true, swept);
    case StartEngine(started, recorded) => StartEngineSound(d, started, recorded);
    case EngineDone => EngineSound(d, false);
    case EngineLost => EngineSound(d, true);
    case WatchDone => WatchSound(d, false);
    case WatchLost => WatchSound(d, true);
    case Reattach(reachable, swept, found) => ReattachSound(d, reachable, swept, found);
    case _ => SmallSound(d, e);
  }

  // ── over whole runs ─────────────────────────────────────────────────────────────────

  lemma {:induction false} RunJudges(d: Deployment, events: seq<Event>)
    requires Ordered(d)
    ensures var r := Run(d, events);
      && Ordered(r)
      && (d.verdict.None? && r.verdict == Some(OK) ==> (Promised(r) <==> !Misjudged(d, events)))
      && (d.verdict.Some? ==> r.verdict == d.verdict && (Promised(r) <==> Promised(d)) && !Misjudged(d, events))
    decreases events
  {
    if events != [] {
      var next := Step(d, events[0]);
      StepJudges(d, events[0]);
      OpenToMisjudge(d, events[0]);
      hide Ordered, Step, Misjudges, Promised;
      RunJudges(next, events[1..]);
    }
  }

  lemma OpenToMisjudge(d: Deployment, e: Event)
    requires Ordered(d)
    ensures Misjudges(d, e) ==> d.verdict.None?
  {
  }

  /** Over every run whatever, an OK is what it promises if and only if it was not a pre hook's
      exit that passed for the deployment's; and that takes a restart that took up a hook's runner. */
  lemma VerdictExactly(deploying: bool, restores: bool, events: seq<Event>)
    ensures var d0 := Claimed(deploying, restores);
      var d := Run(d0, events);
      && (d.verdict == Some(OK) ==> (Promised(d) <==> !Misjudged(d0, events)))
      && (d.verdict == Some(OK) && Misjudged(d0, events) ==> !NeverAdopts(d0, events))
  {
    var d0 := Claimed(deploying, restores);
    assert Ordered(d0);
    RunJudges(d0, events);
    if NeverAdopts(d0, events) { OKMeansPassed(deploying, restores, events); }
  }
}
