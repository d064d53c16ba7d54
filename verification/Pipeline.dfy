/** One deployment: claimed, prepared, taken through hooks and engine, and judged; with
    cancellation, crashes of the server and reattachment at any point. */
module Pipeline {
  import opened Wrappers

  datatype Status = Running | OK | Failed | Cancelled

  /** A hook that is not blocking is marked on_failure: continue. */
  datatype Hook = Hook(blocking: bool)

  /** What the compose file asks for; hooked: it declares hooks at all. */
  datatype Plan = Plan(hooked: bool, pre: seq<Hook>, post: seq<Hook>, rollback: bool)

  /** Containers carry a label that tells hook runners from the main one. */
  datatype Role = PreHook(i: nat) | Main | PostHook(i: nat)

  datatype Ctr = Ctr(role: Role, exit: Option<int>)

  /** Where the goroutine in charge of the deployment stands. */
  datatype Phase =
    | Preparing
    | Provisioning
    | PreAt(i: nat)                   // before pre hook i; after the last, before the engine
    | PreWait(i: nat, ctr: nat)
    | EngineWait(ctr: nat)
    | PostAt(i: nat)
    | PostWait(i: nat, ctr: nat)
    | Watching(ctr: nat)              // the plain path, and every reattachment
    | Noticing(repair: bool)          // the verdict is written, the notification is next
    | Marking                         // notified of an OK, the stack's live hash is next
    | Repairing                       // failed its verification and is about to roll back

  /** The row, the goroutine, the containers on the daemon, and what has happened so far.
      file and hash: what it ships; crashed: the server died while it ran; cut: the server died
      between its verdict and the last of what the verdict implies. */
  datatype Deployment = Deployment(
    deploying: bool, restores: bool, plan: Plan, file: string, hash: string,
    status: Status, cancel: bool, runner: Option<nat>,
    phase: Option<Phase>, ctrs: map<nat, Ctr>, next: nat,
    pre: set<nat>, main: Option<int>, post: set<nat>, crashed: bool,
    verdict: Option<Status>, closes: nat, notices: nat, marked: bool, repairs: nat, stillborn: bool, cut: bool)

  /** No step changes what kind of deployment this is, or takes back a cancellation. */
  predicate SameKind(a: Deployment, b: Deployment) {
    b.restores == a.restores && b.deploying == a.deploying && (a.cancel ==> b.cancel)
  }

  /** Nor what it ships, whether that is marked live, or how often it was repaired, but for the
      one step that does each. */
  predicate SameTally(a: Deployment, b: Deployment) {
    b.file == a.file && b.hash == a.hash && b.marked == a.marked && b.repairs == a.repairs
  }

  const NOPLAN := Plan(false, [], [], false)

  /** A deployment just claimed. restores: it puts an earlier deployment back. */
  function Claimed(deploying: bool, restores: bool): Deployment {
    Deployment(deploying, restores, NOPLAN, "", "", Running, false, None, Some(Preparing), map[], 0,
               {}, None, {}, false, None, 0, 0, false, 0, false, false)
  }

  // ── verdicts ────────────────────────────────────────────────────────────────────────

  /** The one place that tells a killed runner from a broken one. */
  function Verdict(cancel: bool, exit: int): Status {
    if cancel then Cancelled else if exit != 0 then Failed else OK
  }

  /** Recording a result on the row: the claim is released. */
  function Close(d: Deployment, exit: int): (r: Deployment)
    ensures SameKind(d, r) && SameTally(d, r)
  {
    var v := Verdict(d.cancel, exit);
    d.(status := v, verdict := Some(v), closes := d.closes + 1, phase := None)
  }

  /** The funnel: the verdict is written and the claim released; a notification is next, unless
      somebody stopped it on purpose. repair: a failed verdict is answered by a rollback. */
  function Finish(d: Deployment, exit: int, repair: bool): (r: Deployment)
    ensures SameKind(d, r) && SameTally(d, r)
  {
    var c := Close(d, exit);
    if c.status == Cancelled then c else c.(phase := Some(Noticing(repair && c.status == Failed)))
  }

  /** Closing a deployment that never reached a runner notifies whatever the verdict. */
  function FailEarly(d: Deployment): (r: Deployment)
    ensures SameKind(d, r) && SameTally(d, r)
  {
    Close(d, 1).(phase := Some(Noticing(false)), stillborn := true)
  }

  /** The verdict is written; what it implies is not all done. */
  predicate Finishing(d: Deployment) { d.phase.Some? && (d.phase.value.Noticing? || d.phase.value.Marking?) }

  /** Unfinished, and no goroutine in charge of it. */
  predicate Stranded(d: Deployment) { d.status == Running && d.phase.None? }

  // ── steps ───────────────────────────────────────────────────────────────────────────

  datatype Event =
    | PrepareFails
    | Begin(plan: Plan, file: string, hash: string, started: bool, recorded: bool)
    | Provision(done: bool)
    | StartHook(started: bool, recorded: bool)
    | Exit(ctr: nat, code: int)
    | HookDone
    | HookLost(swept: bool)
    | StartEngine(started: bool, recorded: bool)
    | EngineDone
    | EngineLost
    | Conclude
    | WatchDone
    | WatchLost
    | Notify
    | Mark
    | RequestCancel
    | Crash
    | Reattach(reachable: bool, swept: bool, found: Option<nat>)
    | Reconfirm(notified: bool)
    | Repair

  /** A container started now, its id on the row if that write went through. */
  function Launch(d: Deployment, role: Role, recorded: bool): (r: Deployment)
    ensures SameKind(d, r) && SameTally(d, r)
  {
    d.(ctrs := d.ctrs[d.next := Ctr(role, None)], next := d.next + 1,
       runner := if recorded then Some(d.next) else d.runner)
  }

  function Drop(d: Deployment, c: nat): (r: Deployment)
    ensures SameKind(d, r) && SameTally(d, r)
  {
    d.(ctrs := d.ctrs - {c})
  }

  predicate IsHook(c: Ctr) { c.role != Main }

  /** Removing every container labelled as a hook runner. */
  function SweepHooks(d: Deployment): (r: Deployment)
    ensures SameKind(d, r) && SameTally(d, r)
  {
    d.(ctrs := map c | c in d.ctrs && !IsHook(d.ctrs[c]) :: d.ctrs[c])
  }

  predicate Exited(d: Deployment, c: nat) { c in d.ctrs && d.ctrs[c].exit.Some? }

  /** A rollback never rolls back. */
  function Tamed(plan: Plan, restores: bool): Plan {
    if plan.hooked && restores then plan.(rollback := false) else plan
  }

  function BeginStep(d: Deployment, e: Event): (r: Deployment)
    requires e.Begin?
    ensures SameKind(d, r) && SameTally(d.(file := e.file, hash := e.hash), r)
  {
    var b := d.(plan := Tamed(e.plan, d.restores), file := e.file, hash := e.hash);
    if e.plan.hooked && d.deploying then b.(phase := Some(Provisioning))
    else if !e.started then FailEarly(b)
    else Launch(b, Main, e.recorded).(phase := Some(Watching(b.next)))
  }

  /** A pre hook's result: on with the next one, or stop before the engine is touched. */
  function AfterPre(d: Deployment, i: nat, passed: bool): (r: Deployment)
    requires i < |d.plan.pre|
    ensures SameKind(d, r) && SameTally(d, r)
  {
    if passed then d.(pre := d.pre + {i}, phase := Some(PreAt(i + 1)))
    else if !d.plan.pre[i].blocking then d.(phase := Some(PreAt(i + 1)))
    else Finish(d, 1, false)
  }

  /** A post hook's result: a blocking failure fails the deployment, and repairs it if asked. */
  function AfterPost(d: Deployment, i: nat, passed: bool): (r: Deployment)
    requires i < |d.plan.post|
    ensures SameKind(d, r) && SameTally(d, r)
  {
    if passed then d.(post := d.post + {i}, phase := Some(PostAt(i + 1)))
    else if !d.plan.post[i].blocking then d.(phase := Some(PostAt(i + 1)))
    else Finish(d, 1, d.plan.rollback)
  }

  function StartPre(d: Deployment, i: nat, started: bool, recorded: bool): (r: Deployment)
    requires i < |d.plan.pre|
    ensures SameKind(d, r) && SameTally(d, r)
  {
    if !started then AfterPre(d, i, false)
    else Launch(d, PreHook(i), recorded).(phase := Some(PreWait(i, d.next)))
  }

  function StartPost(d: Deployment, i: nat, started: bool, recorded: bool): (r: Deployment)
    requires i < |d.plan.post|
    ensures SameKind(d, r) && SameTally(d, r)
  {
    if !started then AfterPost(d, i, false)
    else Launch(d, PostHook(i), recorded).(phase := Some(PostWait(i, d.next)))
  }

  function StartHookStep(d: Deployment, started: bool, recorded: bool): (r: Deployment)
    ensures SameKind(d, r) && SameTally(d, r)
  {
    match d.phase
    case Some(PreAt(i)) => if i < |d.plan.pre| then StartPre(d, i, started, recorded) else d
    case Some(PostAt(i)) => if i < |d.plan.post| then StartPost(d, i, started, recorded) else d
    case _ => d
  }

  /** Removing every container labelled as a hook runner, which nobody checks went through. */
  function TrySweep(d: Deployment, swept: bool): (r: Deployment)
    ensures SameKind(d, r) && SameTally(d, r)
  {
    if swept then SweepHooks(d) else d
  }

  /** Waiting on a hook ended with its exit code (the container is removed), or did not end. */
  function PreHookStep(d: Deployment, i: nat, c: nat, lost: bool, swept: bool): (r: Deployment)
    requires i < |d.plan.pre|
    ensures SameKind(d, r) && SameTally(d, r)
  {
    if lost then AfterPre(TrySweep(d, swept), i, false)
    else if !Exited(d, c) then d
    else AfterPre(Drop(d, c), i, d.ctrs[c].exit.value == 0)
  }

  function PostHookStep(d: Deployment, i: nat, c: nat, lost: bool, swept: bool): (r: Deployment)
    requires i < |d.plan.post|
    ensures SameKind(d, r) && SameTally(d, r)
  {
    if lost then AfterPost(TrySweep(d, swept), i, false)
    else if !Exited(d, c) then d
    else AfterPost(Drop(d, c), i, d.ctrs[c].exit.value == 0)
  }

  function HookStep(d: Deployment, lost: bool, swept: bool): (r: Deployment)
    ensures SameKind(d, r) && SameTally(d, r)
  {
    match d.phase
    case Some(PreWait(i, c)) => if i < |d.plan.pre| then PreHookStep(d, i, c, lost, swept) else d
    case Some(PostWait(i, c)) => if i < |d.plan.post| then PostHookStep(d, i, c, lost, swept) else d
    case _ => d
  }

  function StartEngineStep(d: Deployment, started: bool, recorded: bool): (r: Deployment)
    ensures SameKind(d, r) && SameTally(d, r)
  {
    if d.phase != Some(PreAt(|d.plan.pre|)) then d
    else if !started then Finish(d, 1, false)
    else Launch(d, Main, recorded).(phase := Some(EngineWait(d.next)))
  }

  /** The main runner exited: post hooks follow a 0, anything else is the deployment's end. */
  function EngineEnd(d: Deployment, c: nat): (r: Deployment)
    requires Exited(d, c)
    ensures SameKind(d, r) && SameTally(d, r)
  {
    var code := d.ctrs[c].exit.value;
    var w := Drop(d, c).(main := Some(code));
    if code != 0 then Finish(w, code, false) else w.(phase := Some(PostAt(0)))
  }

  function EngineStep(d: Deployment, lost: bool): (r: Deployment)
    ensures SameKind(d, r) && SameTally(d, r)
  {
    match d.phase
    case Some(EngineWait(c)) =>
      if lost then Finish(Drop(d, c), 1, false)
      else if !Exited(d, c) then d
      else EngineEnd(d, c)
    case _ => d
  }

  /** The watched runner exited: its code is the deployment's. */
  function WatchEnd(d: Deployment, c: nat): (r: Deployment)
    requires Exited(d, c)
    ensures SameKind(d, r) && SameTally(d, r)
  {
    var w := Drop(d, c).(main := if IsHook(d.ctrs[c]) then d.main else d.ctrs[c].exit);
    Finish(w, d.ctrs[c].exit.value, false)
  }

  /** The watched runner could not be waited on: it is removed, and nobody is notified. */
  function WatchFails(d: Deployment, c: nat): (r: Deployment)
    ensures SameKind(d, r) && SameTally(d, r)
  {
    Close(Drop(d, c), 1)
  }

  function WatchStep(d: Deployment, lost: bool): (r: Deployment)
    ensures SameKind(d, r) && SameTally(d, r)
  {
    match d.phase
    case Some(Watching(c)) =>
      if lost then WatchFails(d, c)
      else if !Exited(d, c) then d
      else WatchEnd(d, c)
    case _ => d
  }

  /** After the verdict: the notification, and then the live hash of an OK up or pull, or the
      rollback that answers a failed verification. */
  function NotifyStep(d: Deployment): (r: Deployment)
    ensures SameKind(d, r) && SameTally(d, r)
  {
    match d.phase
    case Some(Noticing(repair)) =>
      d.(notices := d.notices + 1,
         phase := if repair then Some(Repairing)
                  else if d.verdict == Some(OK) && d.deploying then Some(Marking) else None)
    case _ => d
  }

  /** Reattaching to the row's runner, or to one found by its label, which the row is not told of,
      or failing the deployment for the lack of one. */
  function TakeUp(d: Deployment, found: Option<nat>): (r: Deployment)
    ensures SameKind(d, r) && SameTally(d, r)
  {
    if d.runner.Some? then d.(phase := Some(Watching(d.runner.value)))
    else if found.None? || found.value !in d.ctrs || IsHook(d.ctrs[found.value]) then Close(d, 1)
    else d.(phase := Some(Watching(found.value)))
  }

  /** After a restart, for an unfinished deployment: if its stack and environment can be reached,
      hook runners are swept (best effort) and it is taken up again; if not, it is left as it is. */
  function ReattachStep(d: Deployment, reachable: bool, swept: bool, found: Option<nat>): (r: Deployment)
    ensures SameKind(d, r) && SameTally(d, r)
  {
    if !Stranded(d) || !reachable then d
    else TakeUp(TrySweep(d, swept), found)
  }

  function Step(d: Deployment, e: Event): (r: Deployment)
    ensures SameKind(d, r)
    ensures r.repairs == d.repairs + if e.Repair? && d.phase == Some(Repairing) then 1 else 0
    ensures r.marked == (d.marked || (e.Mark? && d.phase == Some(Marking)))
    ensures if e.Begin? && d.phase == Some(Preparing) then r.file == e.file && r.hash == e.hash
            else r.file == d.file && r.hash == d.hash
  {
    match e
    case PrepareFails => if d.phase == Some(Preparing) then FailEarly(d) else d
    case Begin(_, _, _, _, _) => if d.phase == Some(Preparing) then BeginStep(d, e) else d
    case Provision(done) =>
      if d.phase != Some(Provisioning) then d
      else if done then d.(phase := Some(PreAt(0)))
      else Finish(d, 1, false)
    case StartHook(started, recorded) => StartHookStep(d, started, recorded)
    case Exit(c, code) =>
      if c in d.ctrs && d.ctrs[c].exit.None? then d.(ctrs := d.ctrs[c := d.ctrs[c].(exit := Some(code))]) else d
    case HookDone => HookStep(d, false, false)
    case HookLost(swept) => HookStep(d, true, swept)
    case StartEngine(started, recorded) => StartEngineStep(d, started, recorded)
    case EngineDone => EngineStep(d, false)
    case EngineLost => EngineStep(d, true)
    case Conclude => if d.phase == Some(PostAt(|d.plan.post|)) then Finish(d, 0, false) else d
    case WatchDone => WatchStep(d, false)
    case WatchLost => WatchStep(d, true)
    case Notify => NotifyStep(d)
    case Mark => if d.phase == Some(Marking) then d.(phase := None, marked := true) else d
    case RequestCancel => if d.status == Running then d.(cancel := true) else d
    case Crash => d.(phase := None, crashed := d.crashed || d.status == Running, cut := d.cut || Finishing(d))
    case Reattach(reachable, swept, found) => ReattachStep(d, reachable, swept, found)
    case Reconfirm(notified) =>
      if d.status == OK && d.marked then d.(status := Failed, notices := d.notices + if notified then 1 else 0) else d
    case Repair => if d.phase == Some(Repairing) then d.(phase := None, repairs := d.repairs + 1) else d
  }

  function Run(d: Deployment, events: seq<Event>): Deployment
    decreases events
  {
    if events == [] then d else Run(Step(d, events[0]), events[1..])
  }

  // ── what a verdict means ────────────────────────────────────────────────────────────

  ghost predicate PrePassed(d: Deployment, upto: nat) {
    forall i :: 0 <= i < upto && i < |d.plan.pre| && d.plan.pre[i].blocking ==> i in d.pre
  }

  ghost predicate PostPassed(d: Deployment, upto: nat) {
    forall i :: 0 <= i < upto && i < |d.plan.post| && d.plan.post[i].blocking ==> i in d.post
  }

  predicate HasHooks(d: Deployment) { d.plan.hooked && d.deploying }

  ghost predicate EngineAllowed(d: Deployment) { HasHooks(d) ==> PrePassed(d, |d.plan.pre|) }

  /** What each place in the pipeline has behind it. */
  ghost predicate PhaseOK(d: Deployment) {
    match d.phase
    case None => true
    case Some(Preparing) => d.ctrs == map[] && d.plan == NOPLAN && d.runner.None?
    case Some(Provisioning) => HasHooks(d) && d.ctrs == map[]
    case Some(PreAt(i)) => HasHooks(d) && i <= |d.plan.pre| && PrePassed(d, i)
    case Some(PreWait(i, c)) =>
      HasHooks(d) && i < |d.plan.pre| && PrePassed(d, i) && (c in d.ctrs ==> d.ctrs[c].role == PreHook(i))
    case Some(EngineWait(c)) => HasHooks(d) && EngineAllowed(d) && (c in d.ctrs ==> d.ctrs[c].role == Main)
    case Some(PostAt(i)) =>
      HasHooks(d) && EngineAllowed(d) && d.main == Some(0) && i <= |d.plan.post| && PostPassed(d, i)
    case Some(PostWait(i, c)) =>
      HasHooks(d) && EngineAllowed(d) && d.main == Some(0) && i < |d.plan.post| && PostPassed(d, i)
      && (c in d.ctrs ==> d.ctrs[c].role == PostHook(i))
    case Some(Watching(c)) => (c in d.ctrs ==> d.ctrs[c].role == Main) && (HasHooks(d) ==> d.crashed)
    case Some(Noticing(repair)) =>
      d.verdict == Some(d.status) && d.notices == 0 && !d.marked && d.repairs == 0 && !d.cut
      && (d.status == Cancelled ==> d.stillborn)
      && (repair ==> d.status == Failed && d.plan.rollback && HasHooks(d))
    case Some(Marking) =>
      d.verdict == Some(OK) && d.status == OK && d.deploying && !d.marked && d.repairs == 0 && !d.cut
    case Some(Repairing) => d.verdict == Some(Failed) && d.plan.rollback && HasHooks(d) && d.repairs == 0
  }

  /** Closed, or held by somebody who will close it, or left behind by a crash. */
  ghost predicate Bookkeeping(d: Deployment) {
    && (d.status == Running <==> d.verdict.None?)
    && d.verdict != Some(Running)
    && d.closes == (if d.verdict.None? then 0 else 1)
    && (d.phase.Some? ==> (Finishing(d) || d.phase == Some(Repairing) <==> d.status != Running))
    && (Stranded(d) ==> d.crashed)
    && (d.cancel ==> d.status == Running || d.status == Cancelled)
    && (d.verdict.Some? ==> d.status == d.verdict.value || (d.verdict == Some(OK) && d.status == Failed && d.marked))
    && (d.status == Cancelled ==> d.notices == if d.stillborn && d.phase.None? && !d.cut then 1 else 0)
    && (d.status == Running ==> d.notices == 0 && !d.stillborn && !d.marked && !d.cut && d.repairs == 0)
  }

  /** An OK up or pull is being finished, has moved the live hash, or never will. */
  ghost predicate Markings(d: Deployment) {
    && (d.marked ==> d.verdict == Some(OK) && d.deploying && !d.cut && d.phase.None?)
    && (d.cut ==> d.phase.None?)
    && (d.verdict == Some(OK) && d.deploying ==> Finishing(d) || d.marked || d.cut)
  }

  /** What every deployment satisfies that never adopted a hook's runner. */
  ghost predicate Inv(d: Deployment) {
    && PhaseOK(d) && Bookkeeping(d) && Markings(d)
    && (forall c :: c in d.ctrs ==> c < d.next)
    && (d.runner.Some? ==> d.runner.value < d.next)
    && (forall c :: c in d.ctrs && d.ctrs[c].role == Main ==> EngineAllowed(d))
    && (d.verdict == Some(OK) ==> EngineAllowed(d) && d.main == Some(0))
    && (d.verdict == Some(OK) && HasHooks(d) && !d.crashed ==> PostPassed(d, |d.plan.post|))
    && d.repairs <= 1
    && (d.repairs == 1 ==> d.verdict == Some(Failed) && d.plan.rollback && d.plan.hooked)
    && (d.restores && d.plan.hooked ==> !d.plan.rollback)
  }

  // ── restarts that go wrong ──────────────────────────────────────────────────────────

  /** A reattachment that takes up a hook's runner: the sweep did not go through, and the row
      names a hook's container that is still there. */
  predicate AdoptsHook(d: Deployment, e: Event) {
    e.Reattach? && e.reachable && !e.swept && Stranded(d)
    && d.runner.Some? && d.runner.value in d.ctrs && IsHook(d.ctrs[d.runner.value])
  }

  /** No reattachment of this run takes up a hook's runner. */
  predicate NeverAdopts(d: Deployment, events: seq<Event>)
    decreases events
  {
    events == [] || (!AdoptsHook(d, events[0]) && NeverAdopts(Step(d, events[0]), events[1..]))
  }
}
