/** The hook pipeline as one goroutine runs it when the server does not crash: its verdict in
    terms of what each phase did. */
module HookedRun {
  import opened Wrappers
  import opened Pipeline
  import opened PipelineSafety

  /** What became of a container: it could not be started, could not be waited on (and, for a hook,
      was swept or not), or exited. */
  datatype Result = NotStarted | Lost(swept: bool) | Ended(code: int)

  predicate Passes(r: Result) { r == Ended(0) }

  /** The first blocking hook from k on that does not pass, or the number of hooks. */
  function StopsAt(hooks: seq<Hook>, results: seq<Result>, k: nat): (i: nat)
    requires |results| == |hooks| && k <= |hooks|
    ensures k <= i <= |hooks|
    ensures forall j :: k <= j < i && hooks[j].blocking ==> Passes(results[j])
    ensures i < |hooks| ==> hooks[i].blocking && !Passes(results[i])
    decreases |hooks| - k
  {
    if k == |hooks| then k
    else if hooks[k].blocking && !Passes(results[k]) then k
    else StopsAt(hooks, results, k + 1)
  }

  /** What the environment has in store for one pipeline. */
  datatype Weather = Weather(provisioned: bool, pre: seq<Result>, engine: Result, post: seq<Result>, recorded: bool)

  /** No hook's container was given up on without being removed. */
  predicate Tidy(results: seq<Result>) { forall i :: 0 <= i < |results| ==> results[i] != Lost(false) }

  predicate Fits(plan: Plan, w: Weather) { |w.pre| == |plan.pre| && |w.post| == |plan.post| }

  /** The exit code the pipeline is judged by. */
  function PipelineExit(plan: Plan, w: Weather): int
    requires Fits(plan, w)
  {
    if !w.provisioned || StopsAt(plan.pre, w.pre, 0) < |plan.pre| then 1
    else if !w.engine.Ended? then 1
    else if w.engine.code != 0 then w.engine.code
    else if StopsAt(plan.post, w.post, 0) < |plan.post| then 1
    else 0
  }

  /** Only a failed verification asks for repair. */
  predicate WantsRepair(plan: Plan, w: Weather)
    requires Fits(plan, w)
  {
    w.provisioned && StopsAt(plan.pre, w.pre, 0) == |plan.pre| && w.engine == Ended(0)
    && StopsAt(plan.post, w.post, 0) < |plan.post| && plan.rollback
  }

  /** Where a verdict leaves the goroutine: with a notification to send, unless cancelled. */
  function Afterwards(cancel: bool, exit: int, repair: bool): Option<Phase> {
    if cancel then None else Some(Noticing(repair && exit != 0))
  }

  class Worker {
    var d: Deployment
    ghost var start: Deployment
    ghost var trace: seq<Event>

    /** The deployment is where its trace leads, without a crash. */
    ghost predicate Valid() reads this {
      d == Run(start, trace) && forall e :: e in trace ==> !e.Crash? && !e.Reattach?
    }

    constructor (d: Deployment)
      ensures this.d == d && start == d && trace == [] && Valid()
    {
      this.d, start, trace := d, d, [];
    }

    method Advance(e: Event)
      requires Valid() && !e.Crash? && !e.Reattach?
      modifies this`d, this`trace
      ensures Valid() && d == Step(old(d), e)
    {
      RunSnoc(start, trace, e);
      d, trace := Step(d, e), trace + [e];
    }

    /** One hook, taken to its verdict. */
    method RunHookPhase(r: Result, recorded: bool)
      requires Valid() && d.phase.Some? && HookAt(d, d.phase.value)
      modifies this`d, this`trace
      ensures Valid() && Judged(old(d), old(d).phase.value, Passes(r), d)
      ensures old(d).ctrs == map[] && r != Lost(false) ==> d.ctrs == map[]
    {
      if d.ctrs == map[] && r != Lost(false) { HookLeavesNone(d, r, recorded); }
      hide Step, Judged, Valid;
      ghost var before := d;
      var c := d.next;
      OneHook(before, r, recorded);
      if r.NotStarted? {
        Advance(StartHook(false, recorded));
        return;
      }
      Advance(StartHook(true, recorded));
      if r.Lost? {
        Advance(HookLost(r.swept));
      } else {
        Advance(Exit(c, r.code));
        Advance(HookDone);
      }
    }

    /** The whole pipeline, and what its verdict implies: the notification, the live hash of an OK,
        and the call for a rollback. */
    method RunHooked(w: Weather)
      requires Valid() && d.phase == Some(Provisioning) && d.verdict.None? && Fits(d.plan, w)
      requires d.pre == {} && d.post == {}
      modifies this`d, this`trace
      ensures Valid() && d.plan == old(d).plan
      ensures d.verdict == Some(Verdict(old(d).cancel, PipelineExit(d.plan, w)))
      ensures d.verdict == Some(Cancelled) <==> old(d).cancel
      ensures d.verdict == Some(OK) <==> !old(d).cancel && PipelineExit(d.plan, w) == 0
      ensures old(d).ctrs == map[] && Tidy(w.pre) && Tidy(w.post) ==> d.ctrs == map[]
      ensures d.phase == if WantsRepair(d.plan, w) && !old(d).cancel then Some(Repairing) else None
      ensures d.pre == (set k | 0 <= k < StopsAt(d.plan.pre, w.pre, 0) && w.provisioned && Passes(w.pre[k]))
      ensures d.notices == old(d).notices + if old(d).cancel then 0 else 1
      ensures d.marked == (old(d).marked || (d.verdict == Some(OK) && d.deploying))
    {
      hide Step, Valid;
      RunPipeline(w);
      Settles(d);
      if d.phase.None? { return; }
      Advance(Notify);
      if d.phase == Some(Marking) { Advance(Mark); }
    }

    /** Pre hooks, the engine, post hooks: the first blocking failure ends it. */
    method RunPipeline(w: Weather)
      requires Valid() && d.phase == Some(Provisioning) && d.verdict.None? && Fits(d.plan, w)
      requires d.pre == {} && d.post == {}
      modifies this`d, this`trace
      ensures Valid() && d.plan == old(d).plan
      ensures Over(old(d), d, PipelineExit(d.plan, w), WantsRepair(d.plan, w))
      ensures old(d).ctrs == map[] && Tidy(w.pre) && Tidy(w.post) ==> d.ctrs == map[]
      ensures d.pre == (set k | 0 <= k < StopsAt(d.plan.pre, w.pre, 0) && w.provisioned && Passes(w.pre[k]))
    {
      hide Step, Valid, Tidy;
      ghost var d0 := d;
      Provisioned(d, w.provisioned);
      Advance(Provision(w.provisioned));
      if !w.provisioned { return; }
      var done := RunPre(w, d0);
      if !done { return; }
      RunRest(w);
    }

    /** The engine, post hooks, and the end, with all pre hooks behind. */
    method RunRest(w: Weather)
      requires Valid() && d.phase == Some(PreAt(|d.plan.pre|)) && d.verdict.None? && d.post == {} && Fits(d.plan, w)
      modifies this`d, this`trace
      ensures Valid() && d.plan == old(d).plan && d.pre == old(d).pre
      ensures old(d).ctrs == map[] && Tidy(w.post) ==> d.ctrs == map[]
      ensures var stopped := StopsAt(d.plan.post, w.post, 0) < |d.plan.post|;
        var exit := if !w.engine.Ended? then 1 else if w.engine.code != 0 then w.engine.code
                    else if stopped then 1 else 0;
        Over(old(d), d, exit, w.engine == Ended(0) && stopped && d.plan.rollback)
    {
      hide Step, Valid, Tidy;
      ghost var up := d;
      var done := RunEngine(w);
      if !done { return; }
      done := RunPost(w, up);
      if !done { return; }
      Concluded(d);
      Advance(Conclude);
    }

    method RunPre(w: Weather, ghost d0: Deployment) returns (done: bool)
      requires Valid() && Fits(d.plan, w) && d.phase == Some(PreAt(0)) && Same(d0, d)
      requires d0.verdict.None? && d0.pre == {} && d0.post == {}
      modifies this`d, this`trace
      ensures Valid() && Alike(d0, d) && d.post == {}
      ensures old(d).ctrs == map[] && Tidy(w.pre) ==> d.ctrs == map[]
      ensures d.pre == set k | 0 <= k < StopsAt(d.plan.pre, w.pre, 0) && Passes(w.pre[k])
      ensures done == (StopsAt(d.plan.pre, w.pre, 0) == |d.plan.pre|)
      ensures if done then d.phase == Some(PreAt(|d.plan.pre|)) && d.verdict.None?
              else d.phase == Afterwards(d0.cancel, 1, false) && d.verdict == Some(Verdict(d0.cancel, 1))
    {
      hide Valid;
      var k := 0;
      while k < |d.plan.pre|
        invariant k <= |d.plan.pre| && Valid() && Alike(d0, d)
        invariant old(d).ctrs == map[] && Tidy(w.pre) ==> d.ctrs == map[]
        invariant d.phase == Some(PreAt(k)) && d.verdict.None? && d.post == {}
        invariant d.pre == set j | 0 <= j < k && Passes(w.pre[j])
        invariant StopsAt(d.plan.pre, w.pre, 0) == StopsAt(d.plan.pre, w.pre, k)
        decreases |d.plan.pre| - k
      {
        RunHookPhase(w.pre[k], w.recorded);
        if d.phase != Some(PreAt(k + 1)) { return false; }
        k := k + 1;
      }
      done := true;
    }

    method RunEngine(w: Weather) returns (done: bool)
      requires Valid() && d.phase == Some(PreAt(|d.plan.pre|)) && d.verdict.None? && d.post == {}
      modifies this`d, this`trace
      ensures Valid() && Alike(old(d), d) && d.pre == old(d).pre
      ensures old(d).ctrs == map[] ==> d.ctrs == map[]
      ensures done == (w.engine == Ended(0))
      ensures if done then d.phase == Some(PostAt(0)) && d.verdict.None? && d.post == {}
              else Over(old(d), d, if w.engine.Ended? then w.engine.code else 1, false)
    {
      if d.ctrs == map[] { EngineLeavesNone(d, w.engine, w.recorded); }
      hide Step, Valid, Afterwards;
      EngineRuns(d, w.engine, w.recorded);
      var c := d.next;
      if w.engine.NotStarted? {
        Advance(StartEngine(false, w.recorded));
        return false;
      }
      Advance(StartEngine(true, w.recorded));
      if w.engine.Lost? {
        Advance(EngineLost);
        return false;
      }
      Advance(Exit(c, w.engine.code));
      Advance(EngineDone);
      return w.engine.code == 0;
    }

    method RunPost(w: Weather, ghost d0: Deployment) returns (done: bool)
      requires Valid() && Fits(d.plan, w) && d.phase == Some(PostAt(0)) && Alike(d0, d)
      requires d.verdict.None? && d.post == {}
      modifies this`d, this`trace
      ensures Valid() && Alike(d0, d) && d.pre == old(d).pre
      ensures old(d).ctrs == map[] && Tidy(w.post) ==> d.ctrs == map[]
      ensures done == (StopsAt(d.plan.post, w.post, 0) == |d.plan.post|)
      ensures if done then d.phase == Some(PostAt(|d.plan.post|)) && d.verdict.None?
              else d.verdict == Some(Verdict(d0.cancel, 1)) && d.phase == Afterwards(d0.cancel, 1, d.plan.rollback)
    {
      hide Valid;
      var k := 0;
      while k < |d.plan.post|
        invariant k <= |d.plan.post| && Valid() && Alike(d0, d) && d.pre == old(d).pre
        invariant old(d).ctrs == map[] && Tidy(w.post) ==> d.ctrs == map[]
        invariant d.phase == Some(PostAt(k)) && d.verdict.None?
        invariant StopsAt(d.plan.post, w.post, 0) == StopsAt(d.plan.post, w.post, k)
        decreases |d.plan.post| - k
      {
        RunHookPhase(w.post[k], w.recorded);
        if d.phase != Some(PostAt(k + 1)) { return false; }
        k := k + 1;
      }
      done := true;
    }
  }

  /** Waiting on a hook's container. */
  predicate WaitsFor(d: Deployment, c: nat) {
    d.phase.Some? && var p := d.phase.value;
    (p.PreWait? && p.i < |d.plan.pre| && p.ctr == c) || (p.PostWait? && p.i < |d.plan.post| && p.ctr == c)
  }

  /** A hook taken to its verdict leaves no container behind, unless it was given up on. */
  lemma HookLeavesNone(d: Deployment, r: Result, recorded: bool)
    requires d.phase.Some? && HookAt(d, d.phase.value) && d.ctrs == map[] && r != Lost(false)
    ensures var up := Step(d, StartHook(true, recorded));
      match r
      case NotStarted => Step(d, StartHook(false, recorded)).ctrs == map[]
      case Lost(swept) => Step(up, HookLost(swept)).ctrs == map[]
      case Ended(code) => Step(Step(up, Exit(d.next, code)), HookDone).ctrs == map[]
  {
    hide Step, WaitsFor;
    var up := Step(d, StartHook(true, recorded));
    HookUp(d, recorded);
    match r
    case NotStarted => HookUnstarted(d, recorded);
    case Lost(_) => HookSwept(up, d.next);
    case Ended(code) =>
      HookExits(up, d.next, code);
      HookDropped(Step(up, Exit(d.next, code)), d.next);
  }

  lemma AfterKeeps(d: Deployment, i: nat, passed: bool)
    ensures i < |d.plan.pre| ==> AfterPre(d, i, passed).ctrs == d.ctrs
    ensures i < |d.plan.post| ==> AfterPost(d, i, passed).ctrs == d.ctrs
  {
    if i < |d.plan.pre| { PreKeeps(d, i, passed); }
    if i < |d.plan.post| { PostKeeps(d, i, passed); }
    hide AfterPre, AfterPost;
  }

  lemma PreKeeps(d: Deployment, i: nat, passed: bool)
    requires i < |d.plan.pre|
    ensures AfterPre(d, i, passed).ctrs == d.ctrs
  {
    hide Finish;
    FinishIs(d, 1, false);
  }

  lemma PostKeeps(d: Deployment, i: nat, passed: bool)
    requires i < |d.plan.post|
    ensures AfterPost(d, i, passed).ctrs == d.ctrs
  {
    hide Finish;
    FinishIs(d, 1, d.plan.rollback);
  }

  lemma HookUp(d: Deployment, recorded: bool)
    requires d.phase.Some? && HookAt(d, d.phase.value) && d.ctrs == map[]
    ensures var up := Step(d, StartHook(true, recorded));
      WaitsFor(up, d.next) && up.ctrs.Keys == {d.next} && IsHook(up.ctrs[d.next]) && up.ctrs[d.next].exit.None?
  {
    hide Step;
    var i := d.phase.value.i;
    if d.phase.value.PreAt? { PreLaunched(d, i, recorded); } else { PostLaunched(d, i, recorded); }
  }

  lemma HookUnstarted(d: Deployment, recorded: bool)
    requires d.phase.Some? && HookAt(d, d.phase.value)
    ensures Step(d, StartHook(false, recorded)).ctrs == d.ctrs
  {
    AfterKeeps(d, d.phase.value.i, false);
    hide BeginStep, HookStep, StartEngineStep, EngineStep, WatchStep, NotifyStep, ReattachStep, AfterPre, AfterPost;
  }

  lemma HookExits(d: Deployment, c: nat, code: int)
    requires WaitsFor(d, c) && d.ctrs.Keys == {c} && d.ctrs[c].exit.None?
    ensures var r := Step(d, Exit(c, code)); WaitsFor(r, c) && r.ctrs.Keys == {c} && Exited(r, c)
  {
    hide BeginStep, StartHookStep, HookStep, StartEngineStep, EngineStep, WatchStep, NotifyStep, ReattachStep;
  }

  lemma HookSwept(d: Deployment, c: nat)
    requires WaitsFor(d, c) && d.ctrs.Keys == {c} && IsHook(d.ctrs[c])
    ensures Step(d, HookLost(true)).ctrs == map[]
  {
    var t := TrySweep(d, true);
    assert t.ctrs == map[];
    AfterKeeps(t, d.phase.value.i, false);
    hide BeginStep, StartHookStep, StartEngineStep, EngineStep, WatchStep, NotifyStep, ReattachStep;
    hide AfterPre, AfterPost, TrySweep;
  }

  lemma HookDropped(d: Deployment, c: nat)
    requires WaitsFor(d, c) && d.ctrs.Keys == {c} && Exited(d, c)
    ensures Step(d, HookDone).ctrs == map[]
  {
    var t, passed := Drop(d, c), d.ctrs[c].exit.value == 0;
    assert t.ctrs == map[];
    AfterKeeps(t, d.phase.value.i, passed);
    hide BeginStep, StartHookStep, StartEngineStep, EngineStep, WatchStep, NotifyStep, ReattachStep;
    hide AfterPre, AfterPost, Drop;
  }

  lemma EngineLeavesNone(d: Deployment, r: Result, recorded: bool)
    requires d.phase == Some(PreAt(|d.plan.pre|)) && d.ctrs == map[]
    ensures var up := Step(d, StartEngine(true, recorded));
      match r
      case NotStarted => Step(d, StartEngine(false, recorded)).ctrs == map[]
      case Lost(_) => Step(up, EngineLost).ctrs == map[]
      case Ended(code) => Step(Step(up, Exit(d.next, code)), EngineDone).ctrs == map[]
  {
    hide Finish;
    var up := Step(d, StartEngine(true, recorded));
    EngineLaunched(d, recorded);
    EngineUp(d, recorded);
    match r
    case NotStarted => EngineUnstarted(d, recorded);
    case Lost(_) => EngineLostDrops(up, d.next);
    case Ended(code) =>
      var ended := Ending(up, d.next, code);
      EngineDropped(ended, d.next);
    hide Step;
  }

  lemma EngineUp(d: Deployment, recorded: bool)
    requires d.phase == Some(PreAt(|d.plan.pre|))
    ensures Step(d, StartEngine(true, recorded)).ctrs == d.ctrs[d.next := Ctr(Main, None)]
  {
    hide BeginStep, StartHookStep, HookStep, EngineStep, WatchStep, NotifyStep, ReattachStep;
  }

  lemma EngineUnstarted(d: Deployment, recorded: bool)
    requires d.phase == Some(PreAt(|d.plan.pre|))
    ensures Step(d, StartEngine(false, recorded)).ctrs == d.ctrs
  {
    hide Finish;
    FinishIs(d, 1, false);
    hide BeginStep, StartHookStep, HookStep, EngineStep, WatchStep, NotifyStep, ReattachStep;
  }

  lemma EngineLostDrops(d: Deployment, c: nat)
    requires d.phase == Some(EngineWait(c)) && d.ctrs.Keys == {c}
    ensures Step(d, EngineLost).ctrs == map[]
  {
    hide Finish;
    FinishIs(Drop(d, c), 1, false);
    hide BeginStep, StartHookStep, HookStep, StartEngineStep, WatchStep, NotifyStep, ReattachStep;
  }

  lemma EngineDropped(d: Deployment, c: nat)
    requires d.phase == Some(EngineWait(c)) && d.ctrs.Keys == {c} && Exited(d, c)
    ensures Step(d, EngineDone).ctrs == map[]
  {
    hide Finish;
    var code := d.ctrs[c].exit.value;
    FinishIs(Drop(d, c).(main := Some(code)), code, false);
    hide BeginStep, StartHookStep, HookStep, StartEngineStep, WatchStep, NotifyStep, ReattachStep;
  }

  /** The same kind of deployment, with as much said and marked. */
  predicate Alike(d: Deployment, r: Deployment) {
    r.plan == d.plan && r.cancel == d.cancel && r.deploying == d.deploying && r.notices == d.notices
      && r.marked == d.marked
  }

  /** Closed with this exit code, and what comes next. */
  predicate Over(d: Deployment, r: Deployment, exit: int, repair: bool) {
    Alike(d, r) && r.verdict == Some(Verdict(d.cancel, exit)) && r.phase == Afterwards(d.cancel, exit, repair)
  }

  lemma Provisioned(d: Deployment, done: bool)
    requires d.phase == Some(Provisioning)
    ensures var r := Step(d, Provision(done));
      (if done then Same(d, r) && r.phase == Some(PreAt(0)) else Over(d, r, 1, false) && r.pre == d.pre)
      && r.ctrs == d.ctrs
  {
    FinishIs(d, 1, false);
    hide Finish, BeginStep, StartHookStep, HookStep, StartEngineStep, EngineStep, WatchStep, NotifyStep, ReattachStep;
  }

  lemma Concluded(d: Deployment)
    requires d.phase == Some(PostAt(|d.plan.post|))
    ensures var r := Step(d, Conclude); Over(d, r, 0, false) && r.pre == d.pre && r.ctrs == d.ctrs
  {
    FinishIs(d, 0, false);
    hide Finish, BeginStep, StartHookStep, HookStep, StartEngineStep, EngineStep, WatchStep, NotifyStep, ReattachStep;
  }

  /** Notifying, and marking an OK up or pull. */
  lemma Settles(d: Deployment)
    requires d.verdict.Some? && (d.phase.None? || d.phase.value.Noticing?)
    ensures d.phase.Some? ==>
      var r := Step(d, Notify);
      && r == d.(notices := d.notices + 1, phase := r.phase)
      && r.phase == (if d.phase.value.repair then Some(Repairing)
                     else if d.verdict == Some(OK) && d.deploying then Some(Marking) else None)
      && (r.phase == Some(Marking) ==> Step(r, Mark) == r.(phase := None, marked := true))
      && r.ctrs == d.ctrs
  {
    hide BeginStep, StartHookStep, HookStep, StartEngineStep, EngineStep, WatchStep, ReattachStep;
  }

  /** The engine's turn, through to its exit code. */
  lemma EngineRuns(d: Deployment, r: Result, recorded: bool)
    requires d.phase == Some(PreAt(|d.plan.pre|))
    ensures var up := Step(d, StartEngine(true, recorded));
      match r
      case NotStarted => Over(d, Step(d, StartEngine(false, recorded)), 1, false)
        && Step(d, StartEngine(false, recorded)).pre == d.pre
      case Lost(_) => Over(d, Step(up, EngineLost), 1, false) && Step(up, EngineLost).pre == d.pre
      case Ended(code) =>
        var t := Step(Step(up, Exit(d.next, code)), EngineDone);
        t.pre == d.pre
        && if code != 0 then Over(d, t, code, false)
           else t.phase == Some(PostAt(0)) && Alike(d, t) && t.post == d.post && t.verdict == d.verdict
  {
    hide Finish;
    match r
    case NotStarted => FinishIs(d, 1, false);
    case Lost(_) =>
      EngineLaunched(d, recorded);
      var up := Step(d, StartEngine(true, recorded));
      FinishIs(Drop(up, d.next), 1, false);
    case Ended(code) =>
      EngineLaunched(d, recorded);
      var ended := Ending(Step(d, StartEngine(true, recorded)), d.next, code);
      FinishIs(Drop(ended, d.next).(main := Some(code)), code, false);
  }

  lemma EngineLaunched(d: Deployment, recorded: bool)
    requires d.phase == Some(PreAt(|d.plan.pre|))
    ensures var up := Step(d, StartEngine(true, recorded));
      Same(d, up) && up.phase == Some(EngineWait(d.next)) && d.next in up.ctrs && up.ctrs[d.next].exit.None?
  {
  }

  predicate HookAt(d: Deployment, p: Phase) {
    (p.PreAt? && p.i < |d.plan.pre|) || (p.PostAt? && p.i < |d.plan.post|)
  }

  /** What a hook's verdict makes of the deployment: on with the next one, or the end of it. */
  ghost predicate Judged(d: Deployment, p: Phase, passed: bool, r: Deployment)
    requires HookAt(d, p)
  {
    var blocking := if p.PreAt? then d.plan.pre[p.i].blocking else d.plan.post[p.i].blocking;
    && Alike(d, r) && r.main == d.main
    && r.pre == d.pre + (if p.PreAt? && passed then {p.i} else {})
    && r.post == d.post + (if p.PostAt? && passed then {p.i} else {})
    && if passed || !blocking
       then r.phase == Some(if p.PreAt? then PreAt(p.i + 1) else PostAt(p.i + 1)) && r.verdict == d.verdict
       else r.verdict == Some(Verdict(d.cancel, 1)) && r.phase == Afterwards(d.cancel, 1, p.PostAt? && d.plan.rollback)
  }

  lemma PreJudged(d: Deployment, b: Deployment, i: nat, passed: bool)
    requires i < |d.plan.pre| && Same(d, b)
    ensures Judged(d, PreAt(i), passed, AfterPre(b, i, passed))
  {
    if !passed && d.plan.pre[i].blocking {
      FinishIs(b, 1, false);
      hide Finish;
      assert AfterPre(b, i, passed) == Finish(b, 1, false);
    }
  }

  lemma PostJudged(d: Deployment, b: Deployment, i: nat, passed: bool)
    requires i < |d.plan.post| && Same(d, b)
    ensures Judged(d, PostAt(i), passed, AfterPost(b, i, passed))
  {
    if !passed && d.plan.post[i].blocking {
      FinishIs(b, 1, b.plan.rollback);
      hide Finish;
      assert AfterPost(b, i, passed) == Finish(b, 1, b.plan.rollback);
    }
  }

  lemma FinishIs(d: Deployment, exit: int, repair: bool)
    ensures var f := Finish(d, exit, repair);
      Over(d, f, exit, repair) && f.main == d.main && f.pre == d.pre && f.post == d.post && f.ctrs == d.ctrs
  {
  }

  lemma OneHook(d: Deployment, r: Result, recorded: bool)
    requires d.phase.Some? && HookAt(d, d.phase.value)
    ensures var p, up := d.phase.value, Step(d, StartHook(true, recorded));
      match r
      case NotStarted => Judged(d, p, false, Step(d, StartHook(false, recorded)))
      case Lost(swept) => Judged(d, p, false, Step(up, HookLost(swept)))
      case Ended(code) => Judged(d, p, code == 0, Step(Step(up, Exit(d.next, code)), HookDone))
  {
    var i := d.phase.value.i;
    if d.phase.value.PreAt? {
      PreLaunched(d, i, recorded);
      HookOver(d, Step(d, StartHook(true, recorded)), i, d.next, r, recorded);
    } else {
      PostLaunched(d, i, recorded);
      HookOver(d, Step(d, StartHook(true, recorded)), i, d.next, r, recorded);
    }
  }

  predicate Same(d: Deployment, b: Deployment) {
    Alike(d, b) && b.main == d.main && b.pre == d.pre && b.post == d.post && b.verdict == d.verdict
  }

  lemma PreLaunched(d: Deployment, i: nat, recorded: bool)
    requires d.phase == Some(PreAt(i)) && i < |d.plan.pre|
    ensures var up := Step(d, StartHook(true, recorded));
      Same(d, up) && up.phase == Some(PreWait(i, d.next)) && d.next in up.ctrs && up.ctrs[d.next].exit.None?
      && up.ctrs == d.ctrs[d.next := Ctr(PreHook(i), None)]
  {
  }

  lemma PostLaunched(d: Deployment, i: nat, recorded: bool)
    requires d.phase == Some(PostAt(i)) && i < |d.plan.post|
    ensures var up := Step(d, StartHook(true, recorded));
      Same(d, up) && up.phase == Some(PostWait(i, d.next)) && d.next in up.ctrs && up.ctrs[d.next].exit.None?
      && up.ctrs == d.ctrs[d.next := Ctr(PostHook(i), None)]
  {
  }

  lemma HookOver(d: Deployment, up: Deployment, i: nat, c: nat, r: Result, recorded: bool)
    requires Same(d, up) && c in up.ctrs && up.ctrs[c].exit.None?
    requires (d.phase == Some(PreAt(i)) && i < |d.plan.pre| && up.phase == Some(PreWait(i, c)))
             || (d.phase == Some(PostAt(i)) && i < |d.plan.post| && up.phase == Some(PostWait(i, c)))
    ensures match r
      case NotStarted => Judged(d, d.phase.value, false, Step(d, StartHook(false, recorded)))
      case Lost(swept) => Judged(d, d.phase.value, false, Step(up, HookLost(swept)))
      case Ended(code) => Judged(d, d.phase.value, code == 0, Step(Step(up, Exit(c, code)), HookDone))
  {
    hide Judged, AfterPre, AfterPost, TrySweep;
    match r
    case NotStarted =>
      if d.phase.value.PreAt? { PreJudged(d, d, i, false); } else { PostJudged(d, d, i, false); }
    case Lost(swept) =>
      SweptSame(d, up, swept);
      if d.phase.value.PreAt? {
        PreJudged(d, TrySweep(up, swept), i, false);
      } else {
        PostJudged(d, TrySweep(up, swept), i, false);
      }
    case Ended(code) =>
      var ended := Ending(up, c, code);
      HookDrops(d, ended, i, c, code);
  }

  lemma SweptSame(d: Deployment, up: Deployment, swept: bool)
    requires Same(d, up)
    ensures Same(d, TrySweep(up, swept))
  {
  }

  lemma HookDrops(d: Deployment, ended: Deployment, i: nat, c: nat, code: int)
    requires Same(d, ended) && Exited(ended, c) && ended.ctrs[c].exit == Some(code)
    requires (d.phase == Some(PreAt(i)) && i < |d.plan.pre| && ended.phase == Some(PreWait(i, c)))
             || (d.phase == Some(PostAt(i)) && i < |d.plan.post| && ended.phase == Some(PostWait(i, c)))
    ensures Judged(d, d.phase.value, code == 0, Step(ended, HookDone))
  {
    hide Judged, AfterPre, AfterPost;
    if d.phase.value.PreAt? {
      PreJudged(d, Drop(ended, c), i, code == 0);
    } else {
      PostJudged(d, Drop(ended, c), i, code == 0);
    }
  }

  lemma Ending(d: Deployment, c: nat, code: int) returns (ended: Deployment)
    requires c in d.ctrs && d.ctrs[c].exit.None?
    ensures ended == Step(d, Exit(c, code)) && Exited(ended, c) && ended.ctrs[c].exit == Some(code)
    ensures ended.phase == d.phase && Same(d, ended) && ended.ctrs.Keys == d.ctrs.Keys
  {
    ended := Step(d, Exit(c, code));
  }

  lemma {:induction false} RunSnoc(d: Deployment, events: seq<Event>, e: Event)
    ensures Run(d, events + [e]) == Step(Run(d, events), e)
    decreases events
  {
    hide Step;
    if events == [] {
      assert ([] + [e])[1..] == [];
    } else {
      assert (events + [e])[0] == events[0] && (events + [e])[1..] == events[1..] + [e];
      RunSnoc(Step(d, events[0]), events[1..], e);
    }
  }
}
