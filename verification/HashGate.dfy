/** The content hash that gates a whole sync: when skipping a sweep whose hash is already recorded
    leaves the volumes as always writing would, and when it does not, because somebody else wrote
    to a volume or a node joined meanwhile. */
module HashGate {
  import opened Wrappers
  import opened Sorting
  import opened VolumeManifest
  import opened Framing
  import opened Delivery
  import opened DeliverySafety

  /** One sweep over a delivery: what it should hold (no answer when that cannot be built),
      whether the environment is connected, and how far each node gets. */
  datatype Sweep = Sweep(want: Option<Desired>, order: seq<string>, connected: bool, faults: seq<Fault>)

  /** The recorded outcome, and the volume of each node. */
  datatype State = State(hash: string, ok: bool, nodes: seq<Volume>)

  /** A hash that never collides and never breaks a line. */
  ghost predicate Sound(digest: string -> string) {
    (forall a, b :: digest(a) == digest(b) ==> a == b) && forall a :: digest(a) != "" && '\n' !in digest(a)
  }

  function Digest(digest: string -> string, d: Desired): string { digest(Stream(d.files, d.uid, d.gid)) }

  predicate SweepOK(own: string, n: nat, s: Sweep) {
    |s.faults| == n &&
    (s.want.Some? ==> Lists(s.order, s.want.value.files) && own !in s.want.value.files
                      && forall f :: f in s.want.value.files ==> Proper(f) && NUL !in f)
  }

  function ManifestFor(digest: string -> string, d: Desired): string {
    Render("", Digest(digest, d), Listed(d.files.Keys))
  }

  /** Every node of the environment in turn. */
  function SyncNodes(own: string, text: string, order: seq<string>, files: Volume, nodes: seq<Volume>,
                     faults: seq<Fault>): (r: seq<Volume>)
    requires Lists(order, files) && |faults| == |nodes|
    ensures |r| == |nodes|
  {
    seq(|nodes|, i requires 0 <= i < |nodes| => Synced(nodes[i], own, text, order, files, faults[i]))
  }

  predicate AllSucceed(own: string, text: string, order: seq<string>, files: Volume, nodes: seq<Volume>,
                       faults: seq<Fault>)
    requires Lists(order, files) && |faults| == |nodes|
  {
    forall i :: 0 <= i < |nodes| ==> Succeeds(Steps(nodes[i], own, text, order, files), faults[i])
  }

  /** Building, writing and recording, with no gate. */
  function Always(digest: string -> string, own: string, st: State, s: Sweep): State
    requires SweepOK(own, |st.nodes|, s)
  {
    match s.want
    case None => State("", false, st.nodes)
    case Some(d) =>
      var hash, text := Digest(digest, d), ManifestFor(digest, d);
      if !s.connected then State(hash, false, st.nodes)
      else State(hash, AllSucceed(own, text, s.order, d.files, st.nodes, s.faults),
                 SyncNodes(own, text, s.order, d.files, st.nodes, s.faults))
  }

  predicate Skips(digest: string -> string, st: State, s: Sweep) {
    s.want.Some? && Digest(digest, s.want.value) == st.hash && st.ok
  }

  function Gated(digest: string -> string, own: string, st: State, s: Sweep): State
    requires SweepOK(own, |st.nodes|, s)
  {
    if Skips(digest, st, s) then st else Always(digest, own, st, s)
  }

  // ── the server's form ───────────────────────────────────────────────────────────────

  class DeliveryRow {
    const digest: string -> string
    const own: string
    var syncedHash: string
    var ok: bool
    var nodes: seq<Volume>

    constructor (digest: string -> string, own: string, st: State)
      ensures this.digest == digest && this.own == own && Holds() == st
    {
      this.digest, this.own, syncedHash, ok, nodes := digest, own, st.hash, st.ok, st.nodes;
    }

    function Holds(): State reads this { State(syncedHash, ok, nodes) }

    /** Syncs one delivery and records the outcome on it. */
    method Report(s: Sweep)
      requires SweepOK(own, |nodes|, s)
      modifies this
      ensures Holds() == Gated(digest, own, old(Holds()), s)
    {
      hide SyncNodes, AllSucceed, Stream, Render, Listed;
      if s.want.None? {
        syncedHash, ok := "", false;
        return;
      }
      var d := s.want.value;
      var stream := Feed(d.files, d.uid, d.gid);
      var hash := digest(stream);
      if hash == syncedHash && ok { return; }
      if !s.connected {
        syncedHash, ok := hash, false;
        return;
      }
      var names := SortedKeys(d.files);
      var after, every := SyncEvery(Render("", hash, names), s.order, d.files, s.faults);
      syncedHash, ok, nodes := hash, every, after;
    }

    /** Each node is attempted whatever became of the ones before it. */
    method SyncEvery(text: string, order: seq<string>, files: Volume, faults: seq<Fault>)
      returns (after: seq<Volume>, every: bool)
      requires Lists(order, files) && |faults| == |nodes|
      ensures after == SyncNodes(own, text, order, files, nodes, faults)
      ensures every == AllSucceed(own, text, order, files, nodes, faults)
    {
      hide Synced, Steps, Succeeds;
      after := [];
      var errs := 0;
      for i := 0 to |nodes|
        invariant after == SyncNodes(own, text, order, files, nodes[..i], faults[..i])
        invariant errs == 0 <==> AllSucceed(own, text, order, files, nodes[..i], faults[..i])
        invariant errs >= 0
      {
        var node := new Node(nodes[i], faults[i]);
        var done := node.Sync(own, text, order, files);
        NextNode(own, text, order, files, nodes, faults, i);
        if !done { errs := errs + 1; }
        after := after + [node.files];
      }
      assert nodes[..|nodes|] == nodes && faults[..|nodes|] == faults;
      every := errs == 0;
    }
  }

  lemma NextNode(own: string, text: string, order: seq<string>, files: Volume, nodes: seq<Volume>, faults: seq<Fault>,
                 i: nat)
    requires Lists(order, files) && |faults| == |nodes| && i < |nodes|
    ensures SyncNodes(own, text, order, files, nodes[..i + 1], faults[..i + 1])
            == SyncNodes(own, text, order, files, nodes[..i], faults[..i])
               + [Synced(nodes[i], own, text, order, files, faults[i])]
    ensures AllSucceed(own, text, order, files, nodes[..i + 1], faults[..i + 1])
            <==> AllSucceed(own, text, order, files, nodes[..i], faults[..i])
                 && Succeeds(Steps(nodes[i], own, text, order, files), faults[i])
  {
    hide Synced, Steps, Succeeds;
    var a, b := nodes[..i + 1], faults[..i + 1];
    assert forall j :: 0 <= j < i ==> a[j] == nodes[..i][j] && b[j] == faults[..i][j];
    assert a[i] == nodes[i] && b[i] == faults[i];
    assert SyncNodes(own, text, order, files, a, b)
           == SyncNodes(own, text, order, files, nodes[..i], faults[..i])
              + [Synced(nodes[i], own, text, order, files, faults[i])];
    if AllSucceed(own, text, order, files, nodes[..i], faults[..i])
       && Succeeds(Steps(nodes[i], own, text, order, files), faults[i]) {
      forall j | 0 <= j < |a| ensures Succeeds(Steps(a[j], own, text, order, files), b[j]) {
        if j < i { assert Succeeds(Steps(nodes[..i][j], own, text, order, files), faults[..i][j]); }
      }
    }
    if AllSucceed(own, text, order, files, a, b) {
      forall j | 0 <= j < i ensures Succeeds(Steps(nodes[..i][j], own, text, order, files), faults[..i][j]) {
        assert Succeeds(Steps(a[j], own, text, order, files), b[j]);
      }
      assert Succeeds(Steps(a[i], own, text, order, files), b[i]);
    }
  }

  // ── refinement ──────────────────────────────────────────────────────────────────────

  /** A node holds exactly what this desired state delivers. */
  ghost predicate Has(digest: string -> string, own: string, d: Desired, v: Volume) {
    && own in v && v[own] == ManifestFor(digest, d) && forall n :: n in d.files ==> n in v && v[n] == d.files[n]
  }

  /** An ok record is true of every node. */
  ghost predicate Honest(digest: string -> string, own: string, st: State) {
    st.ok ==> exists d :: Recorded(digest, own, st, d)
  }

  ghost predicate Recorded(digest: string -> string, own: string, st: State, d: Desired) {
    && st.hash == Digest(digest, d) && own !in d.files
    && (forall f :: f in d.files ==> Proper(f) && NUL !in f)
    && forall i :: 0 <= i < |st.nodes| ==> Has(digest, own, d, st.nodes[i])
  }

  lemma RewritingIsIdle(digest: string -> string, own: string, d: Desired, v: Volume, order: seq<string>, f: Fault)
    requires Has(digest, own, d, v) && Lists(order, d.files) && own !in d.files && '\n' !in Digest(digest, d)
    requires forall n :: n in d.files ==> Proper(n)
    requires Succeeds(Steps(v, own, ManifestFor(digest, d), order, d.files), f)
    ensures Synced(v, own, ManifestFor(digest, d), order, d.files, f) == v
  {
    RoundTrip("", Digest(digest, d), Listed(d.files.Keys));
    assert forall n :: n in Previous(v, own) ==> n in d.files;
    hide Parse, Render, Synced, Digest, Steps;
    var r := Synced(v, own, ManifestFor(digest, d), order, d.files, f);
    forall p: string ensures Get(r, p) == Get(v, p) {
      SuccessAt(v, own, ManifestFor(digest, d), order, d.files, f, p);
    }
    SameGets(r, v);
  }

  lemma SuccessHas(digest: string -> string, own: string, d: Desired, v: Volume, order: seq<string>, f: Fault)
    requires Lists(order, d.files) && own !in d.files
    requires Succeeds(Steps(v, own, ManifestFor(digest, d), order, d.files), f)
    ensures Has(digest, own, d, Synced(v, own, ManifestFor(digest, d), order, d.files, f))
  {
    hide Synced, ManifestFor, Steps;
    var r := Synced(v, own, ManifestFor(digest, d), order, d.files, f);
    SuccessAt(v, own, ManifestFor(digest, d), order, d.files, f, own);
    assert Get(r, own) == Some(ManifestFor(digest, d));
    forall n | n in d.files ensures n in r && r[n] == d.files[n] {
      SuccessAt(v, own, ManifestFor(digest, d), order, d.files, f, n);
      assert Get(r, n) == Some(d.files[n]);
    }
  }

  lemma AlwaysIsHonest(digest: string -> string, own: string, st: State, s: Sweep)
    requires SweepOK(own, |st.nodes|, s)
    ensures Honest(digest, own, Always(digest, own, st, s))
  {
    hide Digest, ManifestFor, Synced, Steps;
    var after := Always(digest, own, st, s);
    if after.ok {
      var d := s.want.value;
      forall i | 0 <= i < |st.nodes| ensures Has(digest, own, d, after.nodes[i]) {
        SuccessHas(digest, own, d, st.nodes[i], s.order, s.faults[i]);
      }
      assert Recorded(digest, own, after, d);
    }
  }

  /** What a sweep that is not skipped records: nothing wanted, nothing recorded; otherwise the hash, and
      ok exactly when every node was reached and written to the end. Each of those holds what is wanted. */
  lemma RecordsExactly(digest: string -> string, own: string, st: State, s: Sweep)
    requires SweepOK(own, |st.nodes|, s) && !Skips(digest, st, s)
    ensures var r := Gated(digest, own, st, s);
      && |r.nodes| == |st.nodes|
      && match s.want
         case None => r == State("", false, st.nodes)
         case Some(d) =>
           && r.hash == Digest(digest, d)
           && (!s.connected ==> !r.ok && r.nodes == st.nodes)
           && (s.connected ==>
                 && (r.ok <==> forall i :: 0 <= i < |st.nodes| ==> Reached(digest, own, st.nodes[i], s, s.faults[i]))
                 && forall i :: 0 <= i < |st.nodes| && Reached(digest, own, st.nodes[i], s, s.faults[i]) ==>
                      Has(digest, own, d, r.nodes[i]))
  {
    hide Digest, ManifestFor, Synced, Steps, Succeeds;
    if s.want.Some? && s.connected {
      forall i | 0 <= i < |st.nodes| && Reached(digest, own, st.nodes[i], s, s.faults[i])
        ensures Has(digest, own, s.want.value, Gated(digest, own, st, s).nodes[i])
      {
        SuccessHas(digest, own, s.want.value, st.nodes[i], s.order, s.faults[i]);
      }
    }
  }

  /** A node's volume was written, cleaned and committed to the end. */
  predicate Reached(digest: string -> string, own: string, v: Volume, s: Sweep, f: Fault)
    requires s.want.Some? && Lists(s.order, s.want.value.files)
  {
    Succeeds(Steps(v, own, ManifestFor(digest, s.want.value), s.order, s.want.value.files), f)
  }

  /** The same hash is the same desired state. */
  lemma SameDigest(digest: string -> string, own: string, d: Desired, e: Desired)
    requires Sound(digest) && Digest(digest, d) == Digest(digest, e)
    requires forall f :: f in d.files || f in e.files ==> NUL !in f
    ensures d == e
  {
    assert Stream(d.files, d.uid, d.gid) == Stream(e.files, e.uid, e.gid);
    StreamInjective(d, e);
  }

  /** Every node still holds what this sweep wants. */
  ghost predicate AllHold(digest: string -> string, own: string, st: State, s: Sweep) {
    s.want.Some? && forall i :: 0 <= i < |st.nodes| ==> Has(digest, own, s.want.value, st.nodes[i])
  }

  /** Where the gate skips, writing everything anyway would leave every volume as it is exactly when
      every node still holds what is recorded. */
  lemma SkipIdleExactly(digest: string -> string, own: string, st: State, s: Sweep)
    requires Sound(digest) && SweepOK(own, |st.nodes|, s) && Skips(digest, st, s)
    requires var d := s.want.value;
      s.connected && AllSucceed(own, ManifestFor(digest, d), s.order, d.files, st.nodes, s.faults)
    ensures Always(digest, own, st, s) == st <==> AllHold(digest, own, st, s)
  {
    var d := s.want.value;
    NoBreak(digest, d);
    hide ManifestFor, Synced, Steps, Digest, Stream;
    var after := SyncNodes(own, ManifestFor(digest, d), s.order, d.files, st.nodes, s.faults);
    forall i | 0 <= i < |st.nodes| ensures after[i] == st.nodes[i] <==> Has(digest, own, d, st.nodes[i]) {
      if Has(digest, own, d, st.nodes[i]) { RewritingIsIdle(digest, own, d, st.nodes[i], s.order, s.faults[i]); }
      SuccessHas(digest, own, d, st.nodes[i], s.order, s.faults[i]);
    }
  }

  lemma NoBreak(digest: string -> string, d: Desired)
    requires Sound(digest)
    ensures '\n' !in Digest(digest, d)
  {
  }

  // ── runs ────────────────────────────────────────────────────────────────────────────

  /** A sweep of this delivery; somebody else writing or removing a file on a node; a node joining
      the environment with whatever its volume holds, or leaving it. */
  datatype Happening = Swept(sweep: Sweep) | Elsewhere(node: nat, step: Step) | Joins(v: Volume) | Leaves(node: nat)

  function Moved(nodes: seq<Volume>, h: Happening): seq<Volume> {
    match h
    case Swept(_) => nodes
    case Elsewhere(i, step) => if i < |nodes| then nodes[i := Do(nodes[i], step)] else nodes
    case Joins(v) => nodes + [v]
    case Leaves(i) => if i < |nodes| then nodes[..i] + nodes[i + 1..] else nodes
  }

  function NextGated(digest: string -> string, own: string, st: State, h: Happening): State
    requires h.Swept? ==> SweepOK(own, |st.nodes|, h.sweep)
  {
    if h.Swept? then Gated(digest, own, st, h.sweep) else st.(nodes := Moved(st.nodes, h))
  }

  function NextAlways(digest: string -> string, own: string, st: State, h: Happening): State
    requires h.Swept? ==> SweepOK(own, |st.nodes|, h.sweep)
  {
    if h.Swept? then Always(digest, own, st, h.sweep) else st.(nodes := Moved(st.nodes, h))
  }

  function Count(n: nat, h: Happening): nat {
    match h
    case Joins(_) => n + 1
    case Leaves(i) => if i < n then n - 1 else n
    case _ => n
  }

  predicate RunOK(own: string, n: nat, run: seq<Happening>)
    decreases run
  {
    run == [] || ((run[0].Swept? ==> SweepOK(own, n, run[0].sweep)) && RunOK(own, Count(n, run[0]), run[1..]))
  }

  function RunGated(digest: string -> string, own: string, st: State, run: seq<Happening>): State
    requires RunOK(own, |st.nodes|, run)
    decreases run
  {
    if run == [] then st else RunGated(digest, own, NextGated(digest, own, st, run[0]), run[1..])
  }

  function RunAlways(digest: string -> string, own: string, st: State, run: seq<Happening>): State
    requires RunOK(own, |st.nodes|, run)
    decreases run
  {
    if run == [] then st else RunAlways(digest, own, NextAlways(digest, own, st, run[0]), run[1..])
  }

  /** The two runs meet the same weather, except that a sweep the gate skips goes through. */
  ghost predicate SameWeather(digest: string -> string, own: string, st: State, gated: seq<Happening>,
                              always: seq<Happening>)
    requires RunOK(own, |st.nodes|, gated) && RunOK(own, |st.nodes|, always)
    decreases gated
  {
    if gated == [] then always == []
    else
      && always != []
      && (if gated[0].Swept? && Skips(digest, st, gated[0].sweep) then
            && always[0].Swept? && always[0].sweep.want == gated[0].sweep.want && always[0].sweep.connected
            && var a := always[0].sweep;
            AllSucceed(own, ManifestFor(digest, a.want.value), a.order, a.want.value.files, st.nodes, a.faults)
          else always[0] == gated[0])
      && SameWeather(digest, own, NextGated(digest, own, st, gated[0]), gated[1..], always[1..])
  }

  /** Whenever the gate skips, every node still holds what is recorded. */
  ghost predicate Undisturbed(digest: string -> string, own: string, st: State, gated: seq<Happening>)
    requires RunOK(own, |st.nodes|, gated)
    decreases gated
  {
    gated == []
    || ((gated[0].Swept? && Skips(digest, st, gated[0].sweep) ==> AllHold(digest, own, st, gated[0].sweep))
        && Undisturbed(digest, own, NextGated(digest, own, st, gated[0]), gated[1..]))
  }

  /** The two sweeps agree on volumes and record now and after everything that happens. */
  ghost predicate Together(digest: string -> string, own: string, g: State, a: State, gated: seq<Happening>,
                           always: seq<Happening>)
    requires RunOK(own, |g.nodes|, gated) && RunOK(own, |a.nodes|, always)
    decreases gated
  {
    g == a
    && (gated != [] && always != [] ==>
          Together(digest, own, NextGated(digest, own, g, gated[0]), NextAlways(digest, own, a, always[0]),
                   gated[1..], always[1..]))
  }

  /** The gated and the always-writing sweep agree all along a run if and only if the gate never
      skips over a node that does not hold what is recorded any more. */
  lemma {:induction false} GateExactly(digest: string -> string, own: string, st: State, gated: seq<Happening>,
                                       always: seq<Happening>)
    requires Sound(digest) && RunOK(own, |st.nodes|, gated) && RunOK(own, |st.nodes|, always)
    requires SameWeather(digest, own, st, gated, always)
    ensures Undisturbed(digest, own, st, gated) <==> Together(digest, own, st, st, gated, always)
    ensures Undisturbed(digest, own, st, gated) ==>
      RunGated(digest, own, st, gated) == RunAlways(digest, own, st, always)
    decreases gated
  {
    hide Digest, ManifestFor, AllSucceed, SyncNodes, Sound, AllHold;
    if gated != [] {
      var g, a := gated[0], always[0];
      var next := NextGated(digest, own, st, g);
      if g.Swept? && Skips(digest, st, g.sweep) {
        SkipIdleExactly(digest, own, st, a.sweep);
        SameWant(digest, own, st, g.sweep, a.sweep);
        if !AllHold(digest, own, st, g.sweep) {
          Apart(digest, own, next, NextAlways(digest, own, st, a), gated[1..], always[1..]);
          return;
        }
      }
      GateExactly(digest, own, next, gated[1..], always[1..]);
    }
  }

  lemma Apart(digest: string -> string, own: string, g: State, a: State, gated: seq<Happening>, always: seq<Happening>)
    requires RunOK(own, |g.nodes|, gated) && RunOK(own, |a.nodes|, always) && g != a
    ensures !Together(digest, own, g, a, gated, always)
  {
  }

  lemma SameWant(digest: string -> string, own: string, st: State, s: Sweep, t: Sweep)
    requires s.want == t.want
    ensures AllHold(digest, own, st, s) <==> AllHold(digest, own, st, t)
  {
  }

  // ── writers that keep to themselves ─────────────────────────────────────────────────

  /** Nobody else touches this delivery's manifest or anything it wants at some time, and no node
      joins. */
  ghost predicate Polite(own: string, run: seq<Happening>) {
    forall h :: h in run ==> !h.Joins? && (h.Elsewhere? ==> OffLimits(own, run, h.step.path))
  }

  ghost predicate OffLimits(own: string, run: seq<Happening>, p: string) {
    p != own && forall s :: s in run && s.Swept? && s.sweep.want.Some? ==> p !in s.sweep.want.value.files
  }

  /** What is recorded as ok is there, as far as any sweep of this run could skip over it. */
  ghost predicate Truthful(digest: string -> string, own: string, st: State, run: seq<Happening>) {
    forall h :: h in run && h.Swept? && Skips(digest, st, h.sweep) ==> AllHold(digest, own, st, h.sweep)
  }

  lemma HonestIsTruthful(digest: string -> string, own: string, st: State, run: seq<Happening>)
    requires Sound(digest) && Honest(digest, own, st) && Named(own, run)
    ensures Truthful(digest, own, st, run)
  {
    forall h | h in run && h.Swept? && Skips(digest, st, h.sweep) ensures AllHold(digest, own, st, h.sweep) {
      var last :| Recorded(digest, own, st, last);
      SameDigest(digest, own, h.sweep.want.value, last);
    }
  }

  /** Wanted names are names. */
  ghost predicate Named(own: string, run: seq<Happening>) {
    forall h, f :: h in run && h.Swept? && h.sweep.want.Some? && f in h.sweep.want.value.files ==> NUL !in f
  }

  lemma {:induction false} RunIsNamed(own: string, n: nat, run: seq<Happening>)
    requires RunOK(own, n, run)
    ensures Named(own, run)
    decreases run
  {
    if run != [] {
      RunIsNamed(own, Count(n, run[0]), run[1..]);
      forall h, f | h in run && h.Swept? && h.sweep.want.Some? && f in h.sweep.want.value.files ensures NUL !in f {
        if h != run[0] { assert h in run[1..]; }
      }
    }
  }

  lemma TruthfulOn(digest: string -> string, own: string, st: State, run: seq<Happening>)
    requires Sound(digest) && run != [] && RunOK(own, |st.nodes|, run) && Polite(own, run)
    requires Truthful(digest, own, st, run)
    ensures Truthful(digest, own, NextGated(digest, own, st, run[0]), run[1..])
  {
    hide Digest, ManifestFor, Synced, Steps, Sound;
    var h := run[0];
    var next := NextGated(digest, own, st, h);
    RunIsNamed(own, |st.nodes|, run);
    forall g | g in run[1..] && g.Swept? && Skips(digest, next, g.sweep) ensures AllHold(digest, own, next, g.sweep) {
      assert g in run;
      if h.Swept? {
        if !Skips(digest, st, h.sweep) {
          WrittenHolds(digest, own, st, h.sweep);
          SameDigest(digest, own, h.sweep.want.value, g.sweep.want.value);
        }
      } else {
        assert Skips(digest, st, g.sweep) && AllHold(digest, own, st, g.sweep);
        HoldsOn(digest, own, st, run, h, g);
      }
    }
  }

  lemma WrittenHolds(digest: string -> string, own: string, st: State, s: Sweep)
    requires SweepOK(own, |st.nodes|, s)
    ensures var r := Always(digest, own, st, s); r.ok ==> s.want.Some? && r.hash == Digest(digest, s.want.value)
                                                          && AllHold(digest, own, r, s)
  {
    hide Digest, ManifestFor, Synced, Steps;
    var r := Always(digest, own, st, s);
    if r.ok {
      forall i | 0 <= i < |st.nodes| ensures Has(digest, own, s.want.value, r.nodes[i]) {
        SuccessHas(digest, own, s.want.value, st.nodes[i], s.order, s.faults[i]);
      }
    }
  }

  lemma HoldsOn(digest: string -> string, own: string, st: State, run: seq<Happening>, h: Happening, g: Happening)
    requires Polite(own, run) && h in run && g in run && g.Swept? && !h.Swept? && AllHold(digest, own, st, g.sweep)
    ensures AllHold(digest, own, st.(nodes := Moved(st.nodes, h)), g.sweep)
  {
    hide ManifestFor;
    var nodes := Moved(st.nodes, h);
    forall i | 0 <= i < |nodes| ensures Has(digest, own, g.sweep.want.value, nodes[i]) {
      if h.Elsewhere? && i == h.node {
        assert OffLimits(own, run, h.step.path);
      } else if h.Leaves? && h.node < |st.nodes| {
        assert nodes[i] == st.nodes[if i < h.node then i else i + 1];
      }
    }
  }

  lemma {:induction false} PoliteIsUndisturbed(digest: string -> string, own: string, st: State, run: seq<Happening>)
    requires Sound(digest) && RunOK(own, |st.nodes|, run) && Polite(own, run) && Truthful(digest, own, st, run)
    ensures Undisturbed(digest, own, st, run)
    decreases run
  {
    hide Sound, Skips, AllHold;
    if run != [] {
      TruthfulOn(digest, own, st, run);
      assert Polite(own, run[1..]) by { PoliteTail(own, run); }
      PoliteIsUndisturbed(digest, own, NextGated(digest, own, st, run[0]), run[1..]);
    }
  }

  lemma PoliteTail(own: string, run: seq<Happening>)
    requires run != [] && Polite(own, run)
    ensures Polite(own, run[1..])
  {
    forall h | h in run[1..] ensures !h.Joins? && (h.Elsewhere? ==> OffLimits(own, run[1..], h.step.path)) {
      assert h in run;
      assert forall s :: s in run[1..] ==> s in run;
    }
  }

  /** The gate refines the always-writing sweep: over any run of desired states, failures and
      recoveries, with others writing beside it but not over it and no node joining, both leave the
      same volumes and the same record. */
  lemma GateRefines(digest: string -> string, own: string, st: State, gated: seq<Happening>, always: seq<Happening>)
    requires Sound(digest) && Honest(digest, own, st)
    requires RunOK(own, |st.nodes|, gated) && RunOK(own, |st.nodes|, always)
    requires SameWeather(digest, own, st, gated, always) && Polite(own, gated)
    ensures RunGated(digest, own, st, gated) == RunAlways(digest, own, st, always)
  {
    hide Sound, Honest, Polite, Undisturbed, Truthful, SameWeather;
    RunIsNamed(own, |st.nodes|, gated);
    HonestIsTruthful(digest, own, st, gated);
    PoliteIsUndisturbed(digest, own, st, gated);
    GateExactly(digest, own, st, gated, always);
  }
}
