/** All deployments of one stack: the claim that lets one run at a time, rollbacks and what they
    restore, and the hash of what is considered live. */
module StackRuns {
  import opened Wrappers
  import opened Pipeline
  import opened PipelineSafety

  /** Why a deployment was claimed: its file comes from the stack's source, or from an earlier
      deployment, put back by hand or in answer to one that failed. */
  datatype Cause = Asked | PutBack(from: nat) | Answers(failed: nat, from: nat)

  /** What moved the live hash: a deployment marked after its verdict, or an adoption. */
  datatype Write = Shipped(i: nat) | Adopted(hash: string)

  /** deps: every deployment, oldest first; closed: in which order verdicts were recorded;
      writes: in which order the live hash was written. */
  datatype Stack = Stack(deps: seq<Deployment>, causes: seq<Cause>, live: Option<string>,
                         closed: seq<nat>, writes: seq<Write>)

  predicate Busy(s: Stack) { exists i :: 0 <= i < |s.deps| && s.deps[i].status == Running }

  /** The claim is refused while any deployment of the stack runs. */
  function Claim(s: Stack, deploying: bool, cause: Cause): Stack {
    if Busy(s) then s
    else s.(deps := s.deps + [Claimed(deploying, cause != Asked)], causes := s.causes + [cause])
  }

  /** One deployment as its latest step leaves it; the step may have recorded its verdict, or
      written its hash as the live one. */
  function Recorded(s: Stack, i: nat, d: Deployment): (r: Stack)
    requires i < |s.deps|
    ensures r.deps == s.deps[i := d] && r.causes == s.causes
  {
    var t := s.(deps := s.deps[i := d]);
    if s.deps[i].verdict.None? && d.verdict.Some? then t.(closed := s.closed + [i])
    else if !s.deps[i].marked && d.marked then t.(writes := s.writes + [Shipped(i)], live := Some(d.hash))
    else t
  }

  /** How far back an automatic rollback looks. */
  const DEPTH := 50

  predicate Good(d: Deployment) { d.status == OK && d.deploying && d.file != "" }

  /** The most recent deployment that shipped something and stands as OK, of the last fifty. */
  function LastGood(deps: seq<Deployment>, exclude: nat, depth: nat): Option<nat> {
    if deps == [] || depth == 0 then None
    else if |deps| - 1 != exclude && Good(deps[|deps| - 1]) then Some(|deps| - 1)
    else LastGood(deps[..|deps| - 1], exclude, depth - 1)
  }

  datatype Act =
    | Deploy(deploying: bool)
    | Redeploy(from: nat)
    | On(i: nat, event: Event)
    | ServerCrash
    | AutoRollback(i: nat)
    | Adopt(hash: string)

  /** A deployment that restores ships the file of the one it restores, whatever the source says. */
  function Shipping(s: Stack, i: nat, e: Event): Event {
    if e.Begin? && i < |s.causes| && s.causes[i] != Asked && s.causes[i].from < |s.deps|
    then e.(file := s.deps[s.causes[i].from].file) else e
  }

  function Do(s: Stack, a: Act): Stack {
    match a
    case Deploy(deploying) => Claim(s, deploying, Asked)
    case Redeploy(from) => if from < |s.deps| && Good(s.deps[from]) then Claim(s, true, PutBack(from)) else s
    case On(i, e) =>
      if i < |s.deps| && !e.Crash? && !e.Repair? then Recorded(s, i, Step(s.deps[i], Shipping(s, i, e))) else s
    case ServerCrash => s.(deps := seq(|s.deps|, i requires 0 <= i < |s.deps| => Step(s.deps[i], Crash)))
    case AutoRollback(i) =>
      if i >= |s.deps| || s.deps[i].phase != Some(Repairing) then s
      else
        var t, good := s.(deps := s.deps[i := Step(s.deps[i], Repair)]), LastGood(s.deps, i, DEPTH);
        if good.None? then t else Claim(t, true, Answers(i, good.value))
    case Adopt(hash) => s.(live := Some(hash), writes := s.writes + [Adopted(hash)])
  }

  function DoAll(s: Stack, acts: seq<Act>): Stack
    decreases acts
  {
    if acts == [] then s else DoAll(Do(s, acts[0]), acts[1..])
  }

  predicate TakesUpHook(s: Stack, a: Act) { a.On? && a.i < |s.deps| && AdoptsHook(s.deps[a.i], a.event) }

  /** No restart of this run takes up a hook's runner. */
  predicate Careful(s: Stack, acts: seq<Act>)
    decreases acts
  {
    acts == [] || (!TakesUpHook(s, acts[0]) && Careful(Do(s, acts[0]), acts[1..]))
  }

  // ── the invariant ───────────────────────────────────────────────────────────────────

  predicate ShippedOK(d: Deployment) { d.verdict == Some(OK) && d.deploying }

  /** The last up or pull whose verdict was recorded as OK. */
  function LastOK(deps: seq<Deployment>, closed: seq<nat>): (r: Option<nat>)
    ensures r.Some? ==> r.value in closed && r.value < |deps| && ShippedOK(deps[r.value])
  {
    if closed == [] then None
    else
      var i := closed[|closed| - 1];
      if i < |deps| && ShippedOK(deps[i]) then Some(i) else LastOK(deps, closed[..|closed| - 1])
  }

  /** The hash that deployment shipped: what ought to be live. */
  function LiveOf(deps: seq<Deployment>, closed: seq<nat>): Option<string> {
    var i := LastOK(deps, closed);
    if i.Some? then Some(deps[i.value].hash) else None
  }

  function HashOf(deps: seq<Deployment>, w: Write): Option<string> {
    match w
    case Shipped(i) => if i < |deps| then Some(deps[i].hash) else None
    case Adopted(hash) => Some(hash)
  }

  ghost predicate OneRunning(deps: seq<Deployment>) {
    forall i, j :: 0 <= i < j < |deps| ==> deps[i].status != Running || deps[j].status != Running
  }

  predicate Shut(deps: seq<Deployment>, i: nat) { i < |deps| && deps[i].verdict.Some? }

  ghost predicate Closings(s: Stack) {
    && (forall k :: 0 <= k < |s.closed| ==> Shut(s.deps, s.closed[k]))
    && (forall i, j :: 0 <= i < j < |s.closed| ==> s.closed[i] != s.closed[j])
    && (forall i :: 0 <= i < |s.deps| && s.deps[i].verdict.Some? ==> i in s.closed)
  }

  predicate Marked(deps: seq<Deployment>, i: nat) { i < |deps| && deps[i].marked }

  ghost predicate Writings(s: Stack) {
    && s.live == (if s.writes == [] then None else HashOf(s.deps, s.writes[|s.writes| - 1]))
    && (forall k :: 0 <= k < |s.writes| && s.writes[k].Shipped? ==> Marked(s.deps, s.writes[k].i))
    && (forall i, j :: 0 <= i < j < |s.writes| && s.writes[i].Shipped? ==> s.writes[i] != s.writes[j])
    && (forall i :: Marked(s.deps, i) ==> Shipped(i) in s.writes)
  }

  /** Nothing was launched, or what was launched is this file. */
  predicate Carries(d: Deployment, file: string) {
    d.file == file
    || (d.file == "" && d.next == 0 && Idle(d))
  }

  /** Nothing of it is started or waited for. */
  predicate Idle(d: Deployment) {
    d.phase.None? || d.phase == Some(Preparing) || d.phase == Some(Repairing) || Finishing(d)
  }

  /** What a restoring deployment restores, and at most one answer to each failure. */
  ghost predicate Caused(s: Stack, i: nat)
    requires i < |s.deps| == |s.causes|
  {
    s.causes[i] != Asked ==>
      && s.deps[i].restores && s.causes[i].from < i
      && ShippedOK(s.deps[s.causes[i].from]) && s.deps[s.causes[i].from].file != ""
      && Carries(s.deps[i], s.deps[s.causes[i].from].file)
      && (s.causes[i].Answers? ==>
           s.causes[i].from != s.causes[i].failed < i && s.deps[s.causes[i].failed].repairs == 1)
  }

  predicate SameQuestion(a: Cause, b: Cause) { a.Answers? && b.Answers? && a.failed == b.failed }

  ghost predicate Causes(s: Stack) {
    && |s.causes| == |s.deps|
    && (forall i :: 0 <= i < |s.deps| ==> Caused(s, i))
    && (forall i, j :: 0 <= i < j < |s.deps| ==> !SameQuestion(s.causes[i], s.causes[j]))
  }

  ghost predicate Sound(s: Stack) {
    && (forall i :: 0 <= i < |s.deps| ==> Inv(s.deps[i]))
    && OneRunning(s.deps) && Closings(s) && Writings(s) && Causes(s)
  }

  // ── what a recorded verdict fixes ───────────────────────────────────────────────────

  /** A deployment moves on: a recorded verdict and what it shipped stand, a mark is not taken
      back, and nobody claims it again. */
  predicate Stands(a: Deployment, b: Deployment) {
    && SameKind(a, b) && (a.marked ==> b.marked) && (a.status != Running ==> b.status != Running)
    && (a.verdict.Some? ==> b.verdict == a.verdict && b.hash == a.hash && b.file == a.file)
    && (a.verdict.None? && b.verdict.Some? ==> !a.marked && !b.marked)
  }

  lemma StepStands(d: Deployment, e: Event)
    requires Inv(d)
    ensures Stands(d, Step(d, e))
  {
    hide BeginStep, StartHookStep, HookStep, StartEngineStep, EngineStep, WatchStep, NotifyStep, ReattachStep;
    if d.verdict.Some? {
      IdleSteps(d, e);
    } else {
      WorkNeverMarks(d, e);
    }
  }

  lemma IdleSteps(d: Deployment, e: Event)
    requires Inv(d) && d.verdict.Some?
    ensures var r := Step(d, e);
      r.verdict == d.verdict && r.hash == d.hash && r.file == d.file && r.status != Running && (d.marked ==> r.marked)
  {
    ClosedIsIdle(d);
    hide Inv, Idle;
    if e.StartHook? || e.HookDone? || e.HookLost? || e.StartEngine? || e.EngineDone? || e.EngineLost?
       || e.WatchDone? || e.WatchLost? {
      NothingToWork(d, e);
      hide Step;
    } else {
      hide StartHookStep, HookStep, StartEngineStep, EngineStep, WatchStep, BeginStep, TakeUp, SweepHooks;
    }
  }

  /** Hooks, engine and watchers have nothing to do with a deployment nobody works on. */
  lemma NothingToWork(d: Deployment, e: Event)
    requires Idle(d)
    requires e.StartHook? || e.HookDone? || e.HookLost? || e.StartEngine? || e.EngineDone? || e.EngineLost?
             || e.WatchDone? || e.WatchLost?
    ensures Step(d, e) == d
  {
    match e {
      case StartHook(started, recorded) => IdleOnly(d, started, recorded, false);
      case StartEngine(started, recorded) => IdleOnly(d, started, recorded, false);
      case HookLost(swept) => IdleOnly(d, swept, false, true);
      case EngineLost => IdleOnly(d, false, false, true);
      case WatchLost => IdleOnly(d, false, false, true);
      case _ => IdleOnly(d, false, false, false);
    }
    hide Idle, StartHookStep, HookStep, StartEngineStep, EngineStep, WatchStep, BeginStep, ReattachStep, NotifyStep;
  }

  lemma ClosedIsIdle(d: Deployment)
    requires Inv(d) && d.verdict.Some?
    ensures Idle(d) && d.phase != Some(Preparing) && d.status != Running
  {
    hide Markings;
  }

  lemma WorkNeverMarks(d: Deployment, e: Event)
    requires Inv(d) && d.verdict.None?
    ensures !d.marked && !Step(d, e).marked
  {
    hide BeginStep, StartHookStep, HookStep, StartEngineStep, EngineStep, WatchStep, NotifyStep, ReattachStep;
  }

  lemma {:induction false} LastOKStands(deps: seq<Deployment>, more: seq<Deployment>, closed: seq<nat>)
    requires forall k :: 0 <= k < |closed| ==>
      Shut(deps, closed[k]) && closed[k] < |more| && Stands(deps[closed[k]], more[closed[k]])
    ensures LastOK(more, closed) == LastOK(deps, closed) && LiveOf(more, closed) == LiveOf(deps, closed)
    decreases |closed|
  {
    if closed != [] {
      var i := closed[|closed| - 1];
      assert Shut(deps, i) && Stands(deps[i], more[i]);
      LastOKStands(deps, more, closed[..|closed| - 1]);
    }
  }

  // ── act by act ──────────────────────────────────────────────────────────────────────

  lemma ClaimSound(s: Stack, deploying: bool, cause: Cause)
    requires Sound(s)
    requires cause != Asked ==>
      cause.from < |s.deps| && ShippedOK(s.deps[cause.from]) && s.deps[cause.from].file != ""
    requires cause.Answers? ==>
      && cause.from != cause.failed < |s.deps| && s.deps[cause.failed].repairs == 1
      && forall i :: 0 <= i < |s.deps| ==> !SameQuestion(s.causes[i], cause)
    ensures Sound(Claim(s, deploying, cause))
  {
    ClaimedInv(deploying, cause != Asked);
    if !Busy(s) {
      ClaimCauses(s, deploying, cause);
      ClaimBooks(s, deploying, cause);
      hide Inv, Causes, Closings, Writings;
    }
  }

  lemma ClaimCauses(s: Stack, deploying: bool, cause: Cause)
    requires Causes(s) && !Busy(s)
    requires cause != Asked ==>
      cause.from < |s.deps| && ShippedOK(s.deps[cause.from]) && s.deps[cause.from].file != ""
    requires cause.Answers? ==>
      && cause.from != cause.failed < |s.deps| && s.deps[cause.failed].repairs == 1
      && forall i :: 0 <= i < |s.deps| ==> !SameQuestion(s.causes[i], cause)
    ensures Causes(Claim(s, deploying, cause))
  {
    var t := Claim(s, deploying, cause);
    assert cause != Asked ==> Carries(t.deps[|s.deps|], s.deps[cause.from].file);
    hide Carries;
    forall i | 0 <= i < |t.deps| ensures Caused(t, i) {
      if i < |s.deps| { assert Caused(s, i); }
    }
  }

  lemma ClaimBooks(s: Stack, deploying: bool, cause: Cause)
    requires Closings(s) && Writings(s) && !Busy(s)
    ensures Closings(Claim(s, deploying, cause)) && Writings(Claim(s, deploying, cause))
  {
    var t := Claim(s, deploying, cause);
    assert forall i :: 0 <= i < |s.deps| ==> t.deps[i] == s.deps[i];
    assert forall k :: 0 <= k < |s.closed| ==> Shut(s.deps, s.closed[k]);
    forall i: nat | Marked(t.deps, i) ensures Shipped(i) in t.writes { assert Marked(s.deps, i); }
  }

  lemma ClosingsOn(s: Stack, i: nat, d: Deployment)
    requires Closings(s) && i < |s.deps| && Stands(s.deps[i], d)
    ensures Closings(Recorded(s, i, d))
  {
    var t := Recorded(s, i, d);
    assert forall j :: 0 <= j < |s.deps| ==> t.deps[j] == if j == i then d else s.deps[j];
    forall k | 0 <= k < |s.closed| ensures Shut(t.deps, s.closed[k]) && (s.deps[i].verdict.None? ==> s.closed[k] != i) {
      assert Shut(s.deps, s.closed[k]);
    }
    assert forall j :: j in s.closed ==> j in t.closed;
    assert t.closed != s.closed ==> t.closed[|s.closed|] == i && i in t.closed;
  }

  /** A mark comes after the verdict. */
  ghost predicate MarksAfter(deps: seq<Deployment>) {
    forall j: nat :: Marked(deps, j) ==> deps[j].verdict.Some?
  }

  lemma WritingsOn(s: Stack, i: nat, d: Deployment)
    requires Writings(s) && i < |s.deps| && Stands(s.deps[i], d) && MarksAfter(s.deps)
    ensures Writings(Recorded(s, i, d))
  {
    var t := Recorded(s, i, d);
    assert forall j :: 0 <= j < |s.deps| ==> t.deps[j] == if j == i then d else s.deps[j];
    forall k | 0 <= k < |s.writes| && s.writes[k].Shipped?
      ensures Marked(t.deps, s.writes[k].i) && HashOf(t.deps, s.writes[k]) == HashOf(s.deps, s.writes[k])
    {
      assert Marked(s.deps, s.writes[k].i);
    }
    if !s.deps[i].marked {
      assert forall k :: 0 <= k < |s.writes| ==> s.writes[k] != Shipped(i) by {
        assert !Marked(s.deps, i);
      }
    }
    forall j | Marked(t.deps, j) ensures Shipped(j) in t.writes {
      if Marked(s.deps, j) {
        assert Shipped(j) in s.writes;
      } else {
        assert j == i && t.writes[|s.writes|] == Shipped(i);
      }
    }
  }

  lemma CausesOn(s: Stack, i: nat, d: Deployment)
    requires Causes(s) && i < |s.deps| && Stands(s.deps[i], d) && (s.deps[i].repairs == 1 ==> d.repairs == 1)
    requires s.causes[i] != Asked && s.causes[i].from < |s.deps| ==> Carries(d, s.deps[s.causes[i].from].file)
    ensures Causes(Recorded(s, i, d))
  {
    hide Carries;
    var t := Recorded(s, i, d);
    forall j | 0 <= j < |s.deps| ensures Caused(t, j) {
      assert Caused(s, j);
    }
  }

  lemma OneStays(deps: seq<Deployment>, i: nat, d: Deployment)
    requires OneRunning(deps) && i < |deps| && Stands(deps[i], d)
    ensures OneRunning(deps[i := d])
  {
  }

  /** One deployment moving on, the others as they were. */
  lemma MoveSound(s: Stack, i: nat, d: Deployment)
    requires Sound(s) && i < |s.deps| && Inv(d) && Stands(s.deps[i], d) && (s.deps[i].repairs == 1 ==> d.repairs == 1)
    requires s.causes[i] != Asked && s.causes[i].from < |s.deps| ==> Carries(d, s.deps[s.causes[i].from].file)
    ensures Sound(Recorded(s, i, d))
  {
    AllMarkedAfter(s);
    ClosingsOn(s, i, d);
    WritingsOn(s, i, d);
    CausesOn(s, i, d);
    OneStays(s.deps, i, d);
    hide Inv, Closings, Writings, Causes, Recorded, OneRunning;
    var t := Recorded(s, i, d);
    assert forall j :: 0 <= j < |s.deps| ==> t.deps[j] == if j == i then d else s.deps[j];
  }

  lemma AllMarkedAfter(s: Stack)
    requires Sound(s)
    ensures MarksAfter(s.deps)
  {
    hide Closings, Writings, Causes, PhaseOK, Bookkeeping, OneRunning;
    forall j: nat | Marked(s.deps, j) ensures s.deps[j].verdict.Some? {
      assert Inv(s.deps[j]);
    }
  }

  /** No step launches anything but the file its Begin names. */
  lemma CarriesOn(d: Deployment, e: Event, file: string)
    requires Inv(d) && Carries(d, file) && (e.Begin? ==> e.file == file)
    ensures Carries(Step(d, e), file)
  {
    hide StartHookStep, HookStep, StartEngineStep, EngineStep, WatchStep, ReattachStep, BeginStep, NotifyStep, Step;
    if d.file != file && !(e.Begin? && d.phase == Some(Preparing)) {
      assert d.next == 0 && d.runner.None? && forall c :: c !in d.ctrs;
      IdleCarries(d, e);
    }
  }

  lemma IdleOnly(d: Deployment, started: bool, recorded: bool, lost: bool)
    requires Idle(d)
    ensures d == StartHookStep(d, started, recorded) == StartEngineStep(d, started, recorded)
    ensures forall swept :: HookStep(d, lost, swept) == d
    ensures d == EngineStep(d, lost) == WatchStep(d, lost)
  {
  }

  lemma IdleCarries(d: Deployment, e: Event)
    requires Idle(d) && d.next == 0 && d.runner.None? && (forall c :: c !in d.ctrs)
             && !(e.Begin? && d.phase == Some(Preparing))
    ensures Step(d, e).next == 0 && Idle(Step(d, e))
  {
    IdleOnly(d, true, true, true);
    IdleOnly(d, true, false, false);
    IdleOnly(d, false, true, true);
    IdleOnly(d, false, false, false);
    hide StartHookStep, HookStep, StartEngineStep, EngineStep, WatchStep, BeginStep, SweepHooks;
    SweepLeavesNone(d);
  }

  lemma SweepLeavesNone(d: Deployment)
    requires forall c :: c !in d.ctrs
    ensures SweepHooks(d) == d
  {
    assert SweepHooks(d).ctrs == d.ctrs;
  }

  lemma OnSound(s: Stack, i: nat, e: Event)
    requires Sound(s) && i < |s.deps| && !e.Crash? && !e.Repair? && !AdoptsHook(s.deps[i], e)
    ensures Sound(Recorded(s, i, Step(s.deps[i], Shipping(s, i, e))))
  {
    var d, f := s.deps[i], Shipping(s, i, e);
    StepInv(d, f);
    StepStands(d, f);
    assert Caused(s, i);
    if s.causes[i] != Asked { CarriesOn(d, f, s.deps[s.causes[i].from].file); }
    hide Inv, Step, Carries, Stands, Closings, Writings, Caused;
    MoveSound(s, i, Step(d, f));
  }

  lemma CrashSound(s: Stack)
    requires Sound(s)
    ensures Sound(Do(s, ServerCrash))
  {
    var t := Do(s, ServerCrash);
    forall i | 0 <= i < |s.deps| ensures Inv(t.deps[i]) && Still(s.deps[i], t.deps[i]) {
      StepInv(s.deps[i], Crash);
      CrashStill(s.deps[i]);
    }
    CrashCauses(s);
    hide Inv, Step, Causes;
    assert forall k :: 0 <= k < |s.closed| ==> Shut(s.deps, s.closed[k]);
    forall i: nat | Marked(t.deps, i) ensures Shipped(i) in t.writes { assert Marked(s.deps, i); }
    forall k | 0 <= k < |s.writes| ensures HashOf(t.deps, s.writes[k]) == HashOf(s.deps, s.writes[k]) {
      if s.writes[k].Shipped? { assert Marked(s.deps, s.writes[k].i); }
    }
  }

  lemma CrashCauses(s: Stack)
    requires Sound(s)
    ensures Causes(Do(s, ServerCrash))
  {
    hide Step, Carries, Closings, Writings, OneRunning;
    var t := Do(s, ServerCrash);
    forall i | 0 <= i < |s.deps| ensures Caused(t, i) {
      assert Caused(s, i);
      CrashStill(s.deps[i]);
      if s.causes[i] != Asked {
        CrashStill(s.deps[s.causes[i].from]);
        CarriesOn(s.deps[i], Crash, s.deps[s.causes[i].from].file);
        if s.causes[i].Answers? { CrashStill(s.deps[s.causes[i].failed]); }
      }
    }
  }

  /** What a crash leaves of a deployment's bookkeeping: all of it. */
  predicate Still(a: Deployment, b: Deployment) {
    SameTally(a, b) && b.verdict == a.verdict && b.deploying == a.deploying && b.restores == a.restores
      && b.status == a.status
  }

  lemma CrashStill(d: Deployment)
    ensures Still(d, Step(d, Crash))
  {
    hide BeginStep, StartHookStep, HookStep, StartEngineStep, EngineStep, WatchStep, NotifyStep, ReattachStep;
  }

  lemma RepairSound(s: Stack, i: nat)
    requires Sound(s) && i < |s.deps| && s.deps[i].phase == Some(Repairing)
    ensures Sound(s.(deps := s.deps[i := Step(s.deps[i], Repair)]))
    ensures Step(s.deps[i], Repair).repairs == 1
    ensures forall j :: 0 <= j < |s.deps| && s.causes[j].Answers? ==> s.causes[j].failed != i
  {
    var d := s.deps[i];
    var r := Step(d, Repair);
    assert d.repairs == 0 && r.repairs == 1 && d.verdict.Some? by { hide Closings, Writings, Caused; }
    forall j | 0 <= j < |s.deps| && s.causes[j].Answers? ensures s.causes[j].failed != i { assert Caused(s, j); }
    StepInv(d, Repair);
    StepStands(d, Repair);
    assert s.causes[i] == Asked by {
      assert Caused(s, i);
      hide Closings, Writings, Markings;
    }
    assert r.marked == d.marked;
    hide Inv, Step, Carries, Closings, Writings, Caused;
    MoveSound(s, i, r);
  }

  lemma AdoptSound(s: Stack, hash: string)
    requires Sound(s)
    ensures Sound(Do(s, Adopt(hash)))
  {
    hide Inv, Carries;
    var t := Do(s, Adopt(hash));
    forall i | 0 <= i < |s.deps| ensures Caused(t, i) { assert Caused(s, i); }
    hide Caused;
    assert forall k :: 0 <= k < |s.writes| ==> t.writes[k] == s.writes[k];
    assert forall k :: 0 <= k < |s.closed| ==> Shut(s.deps, s.closed[k]);
    forall i: nat | Marked(t.deps, i) ensures Shipped(i) in t.writes { assert Marked(s.deps, i); }
  }

  /** What may be restored was recorded OK and shipped something. */
  lemma GoodIs(s: Stack, i: nat)
    requires Sound(s) && i < |s.deps| && Good(s.deps[i])
    ensures ShippedOK(s.deps[i]) && s.deps[i].file != ""
  {
    hide PhaseOK, Markings, Closings, Writings, Causes;
  }

  lemma RollbackSound(s: Stack, i: nat)
    requires Sound(s) && i < |s.deps| && s.deps[i].phase == Some(Repairing)
    ensures Sound(Do(s, AutoRollback(i)))
  {
    RepairSound(s, i);
    var t, good := s.(deps := s.deps[i := Step(s.deps[i], Repair)]), LastGood(s.deps, i, DEPTH);
    if good.Some? {
      LastGoodIs(s.deps, i, DEPTH);
      GoodIs(s, good.value);
      hide Sound, Claim, Good, LastGood;
      ClaimSound(t, true, Answers(i, good.value));
    }
  }

  lemma DoSound(s: Stack, a: Act)
    requires Sound(s) && !TakesUpHook(s, a)
    ensures Sound(Do(s, a))
  {
    hide Sound, Recorded, Step, Claim, Good, LastGood;
    match a
    case Deploy(deploying) => ClaimSound(s, deploying, Asked);
    case Redeploy(from) =>
      if from < |s.deps| && Good(s.deps[from]) {
        GoodIs(s, from);
        ClaimSound(s, true, PutBack(from));
      }
    case On(i, e) => if i < |s.deps| && !e.Crash? && !e.Repair? { OnSound(s, i, e); }
    case ServerCrash => CrashSound(s);
    case AutoRollback(i) => if i < |s.deps| && s.deps[i].phase == Some(Repairing) { RollbackSound(s, i); }
    case Adopt(hash) => AdoptSound(s, hash);
  }

  lemma {:induction false} RunSound(s: Stack, acts: seq<Act>)
    requires Sound(s) && Careful(s, acts)
    ensures Sound(DoAll(s, acts))
    decreases acts
  {
    hide Sound, Do, TakesUpHook;
    if acts != [] {
      DoSound(s, acts[0]);
      RunSound(Do(s, acts[0]), acts[1..]);
    }
  }

  const NEW := Stack([], [], None, [], [])

  // ── the theorems ────────────────────────────────────────────────────────────────────

  /** One claim at a time: in every interleaving of deploys, cancellations, crashes, restarts and
      rollbacks, at most one deployment of a stack is running. */
  lemma OneAtATime(acts: seq<Act>, i: nat, j: nat)
    requires Careful(NEW, acts)
    requires i < j < |DoAll(NEW, acts).deps|
    ensures var t := DoAll(NEW, acts); t.deps[i].status != Running || t.deps[j].status != Running
  {
    RunSound(NEW, acts);
  }

  /** What is restored: a deployment put back, by hand or in answer to a failure, was recorded OK
      before, had shipped a file, and that file is all the new one ever launches. */
  lemma RestoresWhatWasGood(acts: seq<Act>, i: nat)
    requires Careful(NEW, acts)
    requires var t := DoAll(NEW, acts); i < |t.deps| && i < |t.causes| && t.causes[i] != Asked
    ensures var t := DoAll(NEW, acts);
      var from := t.causes[i].from;
      && from < i && ShippedOK(t.deps[from]) && t.deps[from].file != ""
      && (t.causes[i].Answers? ==> from != t.causes[i].failed)
      && (t.deps[i].next > 0 ==> t.deps[i].file == t.deps[from].file)
  {
    RunSound(NEW, acts);
    assert Caused(DoAll(NEW, acts), i);
  }

  /** Repair has a floor: a deployment is answered by at most one automatic rollback, and what
      puts an earlier one back is never answered by another. */
  lemma RollbackOnce(acts: seq<Act>, i: nat, j: nat)
    requires Careful(NEW, acts)
    requires var t := DoAll(NEW, acts);
      i < |t.causes| && j < |t.causes| && t.causes[i] != Asked && t.causes[j].Answers?
    ensures var t := DoAll(NEW, acts);
      && t.causes[j].failed != i
      && (j != i ==> !SameQuestion(t.causes[i], t.causes[j]))
  {
    RunSound(NEW, acts);
    var t := DoAll(NEW, acts);
    assert Caused(t, i) && Caused(t, j);
    RestoringNeverRepairs(t.deps[i]);
  }

  lemma RestoringNeverRepairs(d: Deployment)
    requires Inv(d) && d.restores
    ensures d.repairs == 0
  {
  }

  /** What an automatic rollback restores: a deployment that stands as OK and shipped something,
      with none such after it but the one that failed. */
  lemma {:induction false} LastGoodIs(deps: seq<Deployment>, exclude: nat, depth: nat)
    ensures var g := LastGood(deps, exclude, depth);
      && (g.Some? ==> g.value < |deps| && |deps| - g.value <= depth && g.value != exclude && Good(deps[g.value])
                      && forall k :: g.value < k < |deps| ==> k == exclude || !Good(deps[k]))
      && (g.None? ==> forall k :: 0 <= k < |deps| && |deps| - k <= depth ==> k == exclude || !Good(deps[k]))
    decreases depth
  {
    if deps != [] && depth > 0 { LastGoodIs(deps[..|deps| - 1], exclude, depth - 1); }
  }

  // ── that something is restored ──────────────────────────────────────────────────────

  /** Among the last fifty, not the failed one, standing as OK, an up or pull, and with a file. */
  ghost predicate Restorable(deps: seq<Deployment>, failed: nat, k: nat) {
    k < |deps| && |deps| - k <= 50 && k != failed && deps[k].status == OK && deps[k].deploying && deps[k].file != ""
  }

  ghost predicate AllQuiet(deps: seq<Deployment>) { forall j :: 0 <= j < |deps| ==> deps[j].status != Running }

  /** One more deployment, running and not begun; the others as they were. */
  ghost predicate Started(s: Stack, t: Stack, deploying: bool, restores: bool, cause: Cause) {
    && |t.deps| == |s.deps| + 1 && t.deps[..|s.deps|] == s.deps && t.causes == s.causes + [cause]
    && (t.live, t.closed, t.writes) == (s.live, s.closed, s.writes)
    && var d := t.deps[|s.deps|];
    && d.status == Running && d.phase == Some(Preparing) && d.verdict.None? && !d.cancel
    && d.deploying == deploying && d.restores == restores && d.ctrs == map[]
  }

  lemma ClaimStarts(s: Stack, deploying: bool, cause: Cause)
    ensures if AllQuiet(s.deps) then Started(s, Claim(s, deploying, cause), deploying, cause != Asked, cause)
            else Claim(s, deploying, cause) == s
  {
  }

  /** A deployment asked for starts if and only if no other of the stack runs; one put back by hand, if
      and only if besides it stands as OK, deployed and has a file. */
  lemma StartsExactly(s: Stack, deploying: bool, from: nat)
    ensures var t := Do(s, Deploy(deploying));
      if AllQuiet(s.deps) then Started(s, t, deploying, false, Asked) else t == s
    ensures var t := Do(s, Redeploy(from));
      if AllQuiet(s.deps) && from < |s.deps| && s.deps[from].status == OK && s.deps[from].deploying
         && s.deps[from].file != ""
      then Started(s, t, true, true, PutBack(from)) else t == s
  {
    ClaimStarts(s, deploying, Asked);
    ClaimStarts(s, true, PutBack(from));
    hide Claim;
  }

  ghost predicate Newest(deps: seq<Deployment>, failed: nat, k: nat) {
    Restorable(deps, failed, k) && forall m: nat :: Restorable(deps, failed, m) ==> m <= k
  }

  /** What is started ships the file it restores, or else the one it is given. */
  lemma ShipsRestored(s: Stack, i: nat, e: Event)
    requires i < |s.deps| == |s.causes| && e.Begin? && s.deps[i].phase == Some(Preparing)
    requires s.causes[i] != Asked ==> s.causes[i].from < |s.deps|
    ensures var d := Do(s, On(i, e)).deps[i];
      d.file == (if s.causes[i] == Asked then e.file else s.deps[s.causes[i].from].file) && d.hash == e.hash
  {
    hide Step;
  }

  /** A failed verification that asked for it is answered: one deployment starts that restores the newest
      one that can be, if any can and nothing else runs; otherwise none does. */
  lemma RollsBack(s: Stack, i: nat)
    requires Sound(s) && i < |s.deps| && s.deps[i].phase == Some(Repairing)
    ensures var r := s.(deps := s.deps[i := s.deps[i].(phase := None, repairs := 1)]);
      var t := Do(s, AutoRollback(i));
      && (AllQuiet(r.deps) ==> forall k: nat :: Newest(s.deps, i, k) ==> Started(r, t, true, true, Answers(i, k)))
      && (!AllQuiet(r.deps) || (forall k: nat :: !Restorable(s.deps, i, k)) ==> t == r)
  {
    RepairIs(s, i);
    hide Sound, Step;
    var r := s.(deps := s.deps[i := Step(s.deps[i], Repair)]);
    var good := LastGood(s.deps, i, DEPTH);
    FoundIsNewest(s.deps, i);
    if good.Some? { ClaimStarts(r, true, Answers(i, good.value)); }
    hide Claim, LastGood, Restorable, Newest, AllQuiet, Started;
  }

  lemma FoundIsNewest(deps: seq<Deployment>, i: nat)
    ensures var good := LastGood(deps, i, DEPTH);
      && (good.Some? ==> Newest(deps, i, good.value)) && (forall k: nat :: Newest(deps, i, k) ==> good == Some(k))
      && (good.None? ==> forall k: nat :: !Restorable(deps, i, k))
  {
    LastGoodIs(deps, i, DEPTH);
    hide LastGood;
    forall k: nat | Restorable(deps, i, k) ensures Good(deps[k]) { }
  }

  /** Answering leaves the failed deployment with one repair counted, and closed. */
  lemma RepairIs(s: Stack, i: nat)
    requires Sound(s) && i < |s.deps| && s.deps[i].phase == Some(Repairing)
    ensures Step(s.deps[i], Repair) == s.deps[i].(phase := None, repairs := 1) && s.deps[i].status != Running
  {
    hide Closings, Writings, Causes, OneRunning;
    hide BeginStep, StartHookStep, HookStep, StartEngineStep, EngineStep, WatchStep, NotifyStep, ReattachStep;
    assert Inv(s.deps[i]);
  }
}
