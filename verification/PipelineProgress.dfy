/** That a deployment gets somewhere: the plain path, a cancellation, a runner taken up after a restart,
    each through to what it ends in. */
module PipelineProgress {
  import opened Wrappers
  import opened Pipeline
  import opened PipelineSafety

  /** What a runner's exit code is recorded as. */
  predicate JudgedBy(r: Deployment, cancelled: bool, code: int) {
    r.verdict == Some(r.status) && (r.status == Cancelled <==> cancelled)
    && (r.status == OK <==> !cancelled && code == 0) && (r.status == Failed <==> !cancelled && code != 0)
  }

  /** Closed, and what comes next: nothing if it was cancelled, else the notification. */
  predicate Closes(d: Deployment, r: Deployment, code: int) {
    JudgedBy(r, d.cancel, code) && r.closes == d.closes + 1 && r.notices == d.notices && r.marked == d.marked
    && r.phase == if d.cancel then None else Some(Noticing(false))
  }

  lemma FinishCloses(d: Deployment, code: int)
    ensures Closes(d, Finish(d, code, false), code) && Finish(d, code, false).ctrs == d.ctrs
    ensures Finish(d, code, false).deploying == d.deploying
  {
  }

  lemma CloseIs(d: Deployment, code: int)
    ensures var r := Close(d, code);
      JudgedBy(r, d.cancel, code) && r.phase.None? && r.ctrs == d.ctrs && r.cancel == d.cancel && r.notices == d.notices
  {
  }

  lemma WatchEndCloses(d: Deployment, c: nat)
    requires Exited(d, c)
    ensures var r := WatchEnd(d, c);
      Closes(d, r, d.ctrs[c].exit.value) && r.ctrs == d.ctrs - {c} && r.deploying == d.deploying
  {
    hide Finish, JudgedBy;
    var main := if IsHook(d.ctrs[c]) then d.main else d.ctrs[c].exit;
    var w := Drop(d, c).(main := main);
    assert w == d.(ctrs := d.ctrs - {c}, main := main);
    FinishCloses(w, d.ctrs[c].exit.value);
  }

  /** A watched runner's exit code is the deployment's, and the container is removed. */
  lemma WatchedCloses(d: Deployment, c: nat, code: int)
    requires d.phase == Some(Watching(c)) && c in d.ctrs && d.ctrs[c].exit.None?
    ensures var r := Step(Step(d, Exit(c, code)), WatchDone);
      Closes(d, r, code) && r.ctrs == d.ctrs - {c} && r.deploying == d.deploying
  {
    var d1 := ExitNoted(d, c, code);
    WatchEndCloses(d1, c);
    WatchIs(d1, c);
    hide Step, WatchEnd, JudgedBy;
  }

  lemma ExitNoted(d: Deployment, c: nat, code: int) returns (r: Deployment)
    requires c in d.ctrs && d.ctrs[c].exit.None?
    ensures r == Step(d, Exit(c, code)) == d.(ctrs := d.ctrs[c := Ctr(d.ctrs[c].role, Some(code))])
  {
    hide BeginStep, StartHookStep, HookStep, StartEngineStep, EngineStep, WatchStep, NotifyStep, ReattachStep;
    r := Step(d, Exit(c, code));
  }

  lemma WatchIs(d: Deployment, c: nat)
    requires d.phase == Some(Watching(c)) && Exited(d, c)
    ensures Step(d, WatchDone) == WatchEnd(d, c)
  {
    hide BeginStep, StartHookStep, HookStep, StartEngineStep, EngineStep, NotifyStep, ReattachStep, WatchEnd;
  }

  /** A runner that cannot be waited on is removed, and the deployment closed without a word. */
  lemma WatchLostCloses(d: Deployment, c: nat)
    requires d.phase == Some(Watching(c))
    ensures var r := Step(d, WatchLost);
      JudgedBy(r, d.cancel, 1) && r.phase.None? && r.notices == d.notices && r.ctrs == d.ctrs - {c}
  {
    hide BeginStep, StartHookStep, HookStep, StartEngineStep, EngineStep, NotifyStep, ReattachStep;
  }

  /** The plain path: what is begun without hooks is launched as a main runner and watched; what cannot
      be launched is closed as failed, notified whatever the verdict. */
  lemma PlainBegins(d: Deployment, e: Event)
    requires d.phase == Some(Preparing) && e.Begin? && !(e.plan.hooked && d.deploying)
    ensures var r := Step(d, e);
      if e.started then
        r.phase == Some(Watching(d.next)) && r.ctrs == d.ctrs[d.next := Ctr(Main, None)] && r.status == d.status
        && r.cancel == d.cancel && r.deploying == d.deploying && r.closes == d.closes && r.notices == d.notices
        && r.marked == d.marked
        && r.runner == if e.recorded then Some(d.next) else d.runner
      else JudgedBy(r, d.cancel, 1) && r.phase == Some(Noticing(false)) && r.ctrs == d.ctrs
  {
    hide StartHookStep, HookStep, StartEngineStep, EngineStep, WatchStep, NotifyStep, ReattachStep;
  }

  /** What cannot be prepared is closed as failed too, before anything was launched. */
  lemma PreparationFails(d: Deployment)
    requires d.phase == Some(Preparing)
    ensures var r := Step(d, PrepareFails);
      JudgedBy(r, d.cancel, 1) && r.phase == Some(Noticing(false)) && r.stillborn && r.ctrs == d.ctrs
      && r.closes == d.closes + 1
  {
    hide BeginStep, StartHookStep, HookStep, StartEngineStep, EngineStep, WatchStep, NotifyStep, ReattachStep;
  }

  /** And a deployment with hooks goes to its provisioning instead. */
  lemma HookedBegins(d: Deployment, e: Event)
    requires d.phase == Some(Preparing) && e.Begin? && e.plan.hooked && d.deploying
    ensures var r := Step(d, e);
      r.phase == Some(Provisioning) && r.plan == e.plan.(rollback := e.plan.rollback && !d.restores)
      && r.ctrs == d.ctrs && r.status == d.status
  {
    hide StartHookStep, HookStep, StartEngineStep, EngineStep, WatchStep, NotifyStep, ReattachStep;
  }

  /** A plain deployment from its beginning to its end: the verdict by the exit code, one notification
      unless it was cancelled, and the live hash of an OK up or pull. */
  lemma PlainRuns(d: Deployment, e: Event, code: int)
    requires d.phase == Some(Preparing) && e.Begin? && !(e.plan.hooked && d.deploying) && e.started && !d.marked
    ensures var r := Run(d, [e, Exit(d.next, code), WatchDone, Notify, Mark]);
      && JudgedBy(r, d.cancel, code) && r.phase.None? && r.closes == d.closes + 1
      && r.notices == d.notices + (if d.cancel then 0 else 1)
      && (r.marked <==> d.deploying && !d.cancel && code == 0)
  {
    var d1 := Step(d, e);
    PlainBegins(d, e);
    WatchedCloses(d1, d.next, code);
    var d3 := Step(Step(d1, Exit(d.next, code)), WatchDone);
    Rounds(d3);
    FiveSteps(d, e, Exit(d.next, code), WatchDone, Notify, Mark);
    hide Step;
  }

  /** Notifying and marking a closed deployment. */
  lemma Rounds(d: Deployment)
    requires d.verdict == Some(d.status) && !d.marked
    requires d.phase == if d.status == Cancelled then None else Some(Noticing(false))
    ensures var r := Step(Step(d, Notify), Mark);
      && r.phase.None? && r.status == d.status && r.verdict == d.verdict && r.closes == d.closes
      && r.notices == d.notices + (if d.status == Cancelled then 0 else 1)
      && (r.marked <==> d.deploying && d.status == OK)
  {
    NotifyRounds(d);
    MarkRounds(Step(d, Notify));
    hide Step;
  }

  lemma NotifyRounds(d: Deployment)
    requires d.phase == if d.status == Cancelled then None else Some(Noticing(false))
    ensures var r := Step(d, Notify);
      && r.status == d.status && r.verdict == d.verdict && r.closes == d.closes && r.marked == d.marked
      && r.deploying == d.deploying && r.notices == d.notices + (if d.status == Cancelled then 0 else 1)
      && r.phase == if d.status != Cancelled && d.verdict == Some(OK) && d.deploying then Some(Marking) else None
  {
    hide BeginStep, StartHookStep, HookStep, StartEngineStep, EngineStep, WatchStep, ReattachStep;
  }

  lemma MarkRounds(d: Deployment)
    requires d.phase.None? || d.phase == Some(Marking)
    ensures Step(d, Mark) == d.(phase := None, marked := d.marked || d.phase == Some(Marking))
  {
    hide BeginStep, StartHookStep, HookStep, StartEngineStep, EngineStep, WatchStep, NotifyStep, ReattachStep;
  }

  lemma RunOne(d: Deployment, e: Event, rest: seq<Event>)
    ensures Run(d, [e] + rest) == Run(Step(d, e), rest)
  {
    hide Step;
    assert ([e] + rest)[1..] == rest;
  }

  lemma FiveSteps(d: Deployment, a: Event, b: Event, c: Event, e: Event, f: Event)
    ensures Run(d, [a, b, c, e, f]) == Step(Step(Step(Step(Step(d, a), b), c), e), f)
  {
    hide Step;
    assert [a, b, c, e, f] == [a] + ([b] + ([c] + ([e] + ([f] + []))));
    RunOne(d, a, [b] + ([c] + ([e] + ([f] + []))));
    RunOne(Step(d, a), b, [c] + ([e] + ([f] + [])));
    RunOne(Step(Step(d, a), b), c, [e] + ([f] + []));
    RunOne(Step(Step(Step(d, a), b), c), e, [f] + []);
    RunOne(Step(Step(Step(Step(d, a), b), c), e), f, []);
  }

  // ── after a restart ─────────────────────────────────────────────────────────────────

  /** The runner a restart takes up: the one the row names, or else a main runner found by its label. */
  function RunnerOf(d: Deployment, found: Option<nat>): Option<nat> {
    if d.runner.Some? then d.runner
    else if found.Some? && found.value in d.ctrs && d.ctrs[found.value].role == Main then found
    else None
  }

  lemma SweptIs(d: Deployment, swept: bool)
    ensures var r := TrySweep(d, swept);
      && r == d.(ctrs := r.ctrs) && r.ctrs.Keys == (set c | c in d.ctrs && (swept ==> d.ctrs[c].role == Main))
      && forall c :: c in r.ctrs ==> r.ctrs[c] == d.ctrs[c]
  {
  }

  lemma TakeUpChooses(d: Deployment, found: Option<nat>)
    ensures TakeUp(d, found) ==
            if RunnerOf(d, found).Some? then d.(phase := Some(Watching(RunnerOf(d, found).value))) else Close(d, 1)
  {
    hide Close;
  }

  lemma TakeUpIs(d: Deployment, found: Option<nat>)
    ensures var r := TakeUp(d, found);
      && r.ctrs == d.ctrs && r.cancel == d.cancel && r.notices == d.notices
      && if RunnerOf(d, found).Some? then r.phase == Some(Watching(RunnerOf(d, found).value)) && r.status == d.status
         else r.phase.None? && JudgedBy(r, d.cancel, 1)
  {
    CloseIs(d, 1);
    TakeUpChooses(d, found);
    hide Close, JudgedBy, TakeUp;
  }

  lemma ReattachIs(d: Deployment, reachable: bool, swept: bool, found: Option<nat>)
    requires d.status == Running && d.phase.None?
    ensures Step(d, Reattach(reachable, swept, found)) ==
            if reachable then TakeUp(TrySweep(d, swept), found) else d
  {
    hide BeginStep, StartHookStep, HookStep, StartEngineStep, EngineStep, NotifyStep, WatchStep, TakeUp, TrySweep;
  }

  /** An unfinished deployment that can be reached goes on being watched if there is a runner to watch,
      and is closed as failed, without a word, if there is none. One that cannot be is left. */
  lemma TakenUpExactly(d: Deployment, reachable: bool, swept: bool, found: Option<nat>)
    requires d.status == Running && d.phase.None?
    ensures var r := Step(d, Reattach(reachable, swept, found));
      && (!reachable ==> r == d)
      && (reachable ==>
            && r.ctrs.Keys == (set c | c in d.ctrs && (swept ==> d.ctrs[c].role == Main))
            && (forall c :: c in r.ctrs ==> r.ctrs[c] == d.ctrs[c])
            && r.cancel == d.cancel && r.notices == d.notices
            && var c := RunnerOf(d, found);
            if c.Some? then r.phase == Some(Watching(c.value)) && r.status == Running
            else r.phase.None? && JudgedBy(r, d.cancel, 1))
  {
    ReattachIs(d, reachable, swept, found);
    SweptIs(d, swept);
    TakeUpIs(TrySweep(d, swept), found);
    hide Step, TakeUp, TrySweep, JudgedBy;
  }

  /** Its main runner outlived the restart: the exit code of that runner is the verdict after all. */
  lemma OutlivesRestart(d: Deployment, swept: bool, found: Option<nat>, code: int)
    requires d.status == Running && RunnerOf(d, found).Some?
    requires var c := RunnerOf(d, found).value; c in d.ctrs && d.ctrs[c] == Ctr(Main, None)
    ensures var up := Step(Step(d, Crash), Reattach(true, swept, found));
      var r := Step(Step(up, Exit(RunnerOf(d, found).value, code)), WatchDone);
      Closes(up, r, code) && up.cancel == d.cancel && up.notices == d.notices
  {
    var c := RunnerOf(d, found).value;
    var d1 := Step(d, Crash);
    CrashKeeps(d);
    TakenUpExactly(d1, true, swept, found);
    hide Step;
    var up := Step(d1, Reattach(true, swept, found));
    assert c in up.ctrs && up.ctrs[c] == d.ctrs[c];
    WatchedCloses(up, c, code);
  }

  lemma CrashKeeps(d: Deployment)
    requires d.status == Running
    ensures var r := Step(d, Crash); r == d.(phase := None, crashed := true, cut := r.cut)
  {
    hide BeginStep, StartHookStep, HookStep, StartEngineStep, EngineStep, WatchStep, NotifyStep, ReattachStep;
  }

  // ── cancellation ────────────────────────────────────────────────────────────────────

  /** Asking for a cancellation takes if and only if the deployment still runs; and then it is cancelled
      when it ends, however it ends. */
  lemma CancelTakes(d: Deployment, events: seq<Event>)
    requires Inv(d) && NeverAdopts(Step(d, RequestCancel), events)
    ensures Step(d, RequestCancel) == if d.status == Running then d.(cancel := true) else d
    ensures var r := Run(Step(d, RequestCancel), events);
      d.status == Running && r.status != Running ==> r.status == Cancelled && r.verdict == Some(Cancelled)
  {
    var d1 := Step(d, RequestCancel);
    assert d1 == if d.status == Running then d.(cancel := true) else d by {
      hide BeginStep, StartHookStep, HookStep, StartEngineStep, EngineStep, WatchStep, NotifyStep, ReattachStep;
    }
    StepInv(d, RequestCancel);
    if d.status == Running {
      CancelHolds(d1, events);
      RunInv(d1, events);
      hide Step;
    }
  }

  /** The liveness check's second thoughts: only an OK that was marked is rewritten. */
  lemma ReconfirmedExactly(d: Deployment, notified: bool)
    ensures var r := Step(d, Reconfirm(notified));
      if d.status == OK && d.marked
      then r == d.(status := Failed, notices := d.notices + if notified then 1 else 0) else r == d
  {
    hide BeginStep, StartHookStep, HookStep, StartEngineStep, EngineStep, WatchStep, NotifyStep, ReattachStep;
  }
}
