/** Two certificate deliveries on one volume. Both keep their manifest under the one name, so each
    takes the other's files for leftovers of its own, and the gate keeps either from noticing. */
module TwoDeliveries {
  import opened Wrappers
  import opened Sorting
  import opened Text
  import opened VolumeManifest
  import opened Framing
  import opened Delivery
  import opened DeliverySafety
  import opened HashGate

  // ── one after the other, on one node ────────────────────────────────────────────────

  predicate Fits(own: string, d: Desired) { own !in d.files && forall f :: f in d.files ==> Proper(f) && NUL !in f }

  /** Everything this one wants is there as it wants it. */
  ghost predicate Stands(d: Desired, v: Volume) { forall n :: n in d.files ==> Get(v, n) == Some(d.files[n]) }

  /** The one wants all that the other does, with the same content. */
  ghost predicate Covers(w: Desired, l: Desired) {
    forall n :: n in l.files ==> n in w.files && w.files[n] == l.files[n]
  }

  /** One has delivered, and of the other only what both want is there. */
  ghost predicate Won(digest: string -> string, own: string, w: Desired, l: Desired, v: Volume) {
    Has(digest, own, w, v) && forall n :: n in l.files && n !in w.files ==> n !in v
  }

  /** After two deliveries in turn have succeeded, the first one's files all stand if and only if the
      second wants each of them with the same content; any other name of the first is gone. */
  lemma FirstStandsExactly(digest: string -> string, own: string, v: Volume, a: Desired, oa: seq<string>, fa: Fault,
                           b: Desired, ob: seq<string>, fb: Fault)
    requires Sound(digest) && Fits(own, a) && Fits(own, b) && Lists(oa, a.files) && Lists(ob, b.files)
    requires Succeeds(Steps(v, own, ManifestFor(digest, a), oa, a.files), fa)
    requires var mid := Synced(v, own, ManifestFor(digest, a), oa, a.files, fa);
      Succeeds(Steps(mid, own, ManifestFor(digest, b), ob, b.files), fb)
    ensures var mid := Synced(v, own, ManifestFor(digest, a), oa, a.files, fa);
      var end := Synced(mid, own, ManifestFor(digest, b), ob, b.files, fb);
      && Stands(a, mid) && Won(digest, own, b, a, end) && (Stands(a, end) <==> Covers(b, a))
  {
    RoundTrip("", Digest(digest, a), Listed(a.files.Keys));
    hide Parse, Render, Listed, Synced, Steps, Digest, Sound;
    var mid := Synced(v, own, ManifestFor(digest, a), oa, a.files, fa);
    var end := Synced(mid, own, ManifestFor(digest, b), ob, b.files, fb);
    SuccessHas(digest, own, a, v, oa, fa);
    SuccessHas(digest, own, b, mid, ob, fb);
    forall n | n in a.files && n !in b.files ensures n !in end {
      SuccessAt(mid, own, ManifestFor(digest, b), ob, b.files, fb, n);
    }
    StandsExactly(digest, own, b, a, end);
  }

  /** Where one has won, the other's files stand if and only if the winner covers them. */
  lemma StandsExactly(digest: string -> string, own: string, w: Desired, l: Desired, v: Volume)
    requires Won(digest, own, w, l, v)
    ensures Stands(l, v) <==> Covers(w, l)
  {
    hide ManifestFor;
    if Stands(l, v) {
      forall n | n in l.files ensures n in w.files && w.files[n] == l.files[n] {
        assert Get(v, n) == Some(l.files[n]);
      }
    }
  }

  /** And what the other has on record is there if and only if the two want the same. */
  lemma HasExactly(digest: string -> string, own: string, w: Desired, l: Desired, v: Volume)
    requires Sound(digest) && Fits(own, w) && Fits(own, l) && Won(digest, own, w, l, v)
    ensures Has(digest, own, l, v) <==> w == l
  {
    if Has(digest, own, l, v) {
      SameHash(Digest(digest, w), Listed(w.files.Keys), Digest(digest, l), Listed(l.files.Keys));
      SameDigest(digest, own, w, l);
    }
  }

  /** A manifest tells its hash. */
  lemma SameHash(h: string, names: seq<string>, h': string, names': seq<string>)
    requires '\n' !in h && '\n' !in h' && Render("", h, names) == Render("", h', names')
    ensures h == h'
  {
    var front := Title() + "\n" + ("# commit " + "" + "\n");
    var s, s' := "# hash " + h + "\n" + Block(names), "# hash " + h' + "\n" + Block(names');
    assert Render("", h, names) == front + s && Render("", h', names') == front + s';
    assert s == (front + s)[|front|..] && s' == (front + s')[|front|..];
    LineOff("# hash " + h, Block(names));
    LineOff("# hash " + h', Block(names'));
    assert Lines(s)[0] == Lines(s')[0];
    assert h == ("# hash " + h)[7..] && h' == ("# hash " + h')[7..];
  }

  // ── two rows over the same volumes ──────────────────────────────────────────────────

  datatype Row = Row(hash: string, ok: bool)

  datatype Shared = Shared(nodes: seq<Volume>, a: Row, b: Row)

  datatype Turn = Turn(first: bool, sweep: Sweep)

  function Seen(p: Shared, first: bool): State {
    var r := if first then p.a else p.b;
    State(r.hash, r.ok, p.nodes)
  }

  /** One of the two is swept. */
  function SweptBy(digest: string -> string, own: string, p: Shared, t: Turn): (r: Shared)
    requires SweepOK(own, |p.nodes|, t.sweep)
    ensures |r.nodes| == |p.nodes|
  {
    var st := Gated(digest, own, Seen(p, t.first), t.sweep);
    var r := Row(st.hash, st.ok);
    if t.first then Shared(st.nodes, r, p.b) else Shared(st.nodes, p.a, r)
  }

  function RunSwept(digest: string -> string, own: string, p: Shared, turns: seq<Turn>): (r: Shared)
    requires forall t :: t in turns ==> SweepOK(own, |p.nodes|, t.sweep)
    decreases turns
  {
    if turns == [] then p else RunSwept(digest, own, SweptBy(digest, own, p, turns[0]), turns[1..])
  }

  // ── whatever they come to want ──────────────────────────────────────────────────────

  /** Of two records of ok, one at least is true. */
  ghost predicate OneTrue(digest: string -> string, own: string, p: Shared) {
    p.a.ok && p.b.ok ==> Honest(digest, own, Seen(p, true)) || Honest(digest, own, Seen(p, false))
  }

  lemma SweepKeepsOne(digest: string -> string, own: string, p: Shared, t: Turn)
    requires OneTrue(digest, own, p) && SweepOK(own, |p.nodes|, t.sweep)
    ensures OneTrue(digest, own, SweptBy(digest, own, p, t))
  {
    AlwaysIsHonest(digest, own, Seen(p, t.first), t.sweep);
    hide Honest, Always, Skips, SweepOK;
  }

  lemma {:induction false} RunKeepsOne(digest: string -> string, own: string, p: Shared, turns: seq<Turn>)
    requires OneTrue(digest, own, p) && forall t :: t in turns ==> SweepOK(own, |p.nodes|, t.sweep)
    ensures OneTrue(digest, own, RunSwept(digest, own, p, turns))
    decreases turns
  {
    hide OneTrue, SweptBy, SweepOK;
    if turns != [] {
      SweepKeepsOne(digest, own, p, turns[0]);
      RunKeepsOne(digest, own, SweptBy(digest, own, p, turns[0]), turns[1..]);
    }
  }

  /** Two records are true of the same nodes only where they are the same. */
  lemma BothTrue(digest: string -> string, own: string, p: Shared)
    requires Sound(digest) && p.nodes != [] && p.a.ok && p.b.ok
    requires Honest(digest, own, Seen(p, true)) && Honest(digest, own, Seen(p, false))
    ensures p.a.hash == p.b.hash
  {
    var a :| Recorded(digest, own, Seen(p, true), a);
    var b :| Recorded(digest, own, Seen(p, false), b);
    hide Render, Digest;
    assert Has(digest, own, a, p.nodes[0]) && Has(digest, own, b, p.nodes[0]);
    NoBreak(digest, a);
    NoBreak(digest, b);
    SameHash(Digest(digest, a), Listed(a.files.Keys), Digest(digest, b), Listed(b.files.Keys));
  }

  /** Over any run of sweeps of two deliveries on one volume, whatever they come to want, fail at and
      recover from: once both are recorded ok, the one record or the other is true of every node, and
      both are if and only if they record the same. */
  lemma TrueRecords(digest: string -> string, own: string, p: Shared, turns: seq<Turn>)
    requires Sound(digest) && p.nodes != [] && OneTrue(digest, own, p)
    requires forall t :: t in turns ==> SweepOK(own, |p.nodes|, t.sweep)
    ensures var end := RunSwept(digest, own, p, turns);
      var first, second := Honest(digest, own, Seen(end, true)), Honest(digest, own, Seen(end, false));
      end.a.ok && end.b.ok ==> (first || second) && (first && second <==> end.a.hash == end.b.hash)
  {
    hide Sound, Honest, SweepOK, RunSwept;
    RunKeepsOne(digest, own, p, turns);
    var end := RunSwept(digest, own, p, turns);
    if end.a.ok && end.b.ok && Honest(digest, own, Seen(end, true)) && Honest(digest, own, Seen(end, false)) {
      SameNumber(digest, own, p, turns);
      BothTrue(digest, own, end);
    }
  }

  lemma {:induction false} SameNumber(digest: string -> string, own: string, p: Shared, turns: seq<Turn>)
    requires forall t :: t in turns ==> SweepOK(own, |p.nodes|, t.sweep)
    ensures |RunSwept(digest, own, p, turns).nodes| == |p.nodes|
    decreases turns
  {
    hide SweptBy, SweepOK;
    if turns != [] { SameNumber(digest, own, SweptBy(digest, own, p, turns[0]), turns[1..]); }
  }

  // ── while each wants the same ───────────────────────────────────────────────────────

  /** Each keeps wanting the same, when that can be built at all. */
  predicate Steady(a: Desired, b: Desired, t: Turn) {
    t.sweep.want.Some? ==> t.sweep.want.value == if t.first then a else b
  }

  /** The files of both that are there are the manifest's or those of the one still to be delivered. */
  ghost predicate Known(own: string, a: Desired, b: Desired, late: Desired, v: Volume) {
    Accounted(own, Hist(v, late.files.Keys, a.files.Keys + b.files.Keys))
  }

  ghost predicate AllWon(digest: string -> string, own: string, w: Desired, l: Desired, nodes: seq<Volume>) {
    forall i :: 0 <= i < |nodes| ==> Won(digest, own, w, l, nodes[i])
  }

  ghost predicate AllKnown(own: string, a: Desired, b: Desired, late: Desired, nodes: seq<Volume>) {
    forall i :: 0 <= i < |nodes| ==> Known(own, a, b, late, nodes[i])
  }

  ghost predicate SharedInv(digest: string -> string, own: string, a: Desired, b: Desired, p: Shared) {
    && (p.a.ok ==> p.a.hash == Digest(digest, a)) && (p.b.ok ==> p.b.hash == Digest(digest, b))
    && (p.a.ok && p.b.ok ==> AllWon(digest, own, a, b, p.nodes) || AllWon(digest, own, b, a, p.nodes))
    && (p.a.ok && !p.b.ok ==> AllKnown(own, a, b, b, p.nodes))
    && (p.b.ok && !p.a.ok ==> AllKnown(own, a, b, a, p.nodes))
  }

  /** Who has delivered is named in the manifest, and nobody else. */
  lemma NamesAre(digest: string -> string, own: string, w: Desired, v: Volume)
    requires Sound(digest) && Fits(own, w) && Has(digest, own, w, v)
    ensures forall n :: n in Previous(v, own) <==> n in w.files
  {
    RoundTrip("", Digest(digest, w), Listed(w.files.Keys));
    hide Parse, Render, Listed, Digest, Sound;
  }

  lemma NamedIsAccounted(own: string, h: Hist, named: set<string>)
    requires own !in h.written && h.pending <= h.written && named <= h.written && h.written <= named + h.pending
    requires forall n :: n in Previous(h.v, own) <==> n in named
    ensures Accounted(own, h)
  {
    hide Previous;
  }

  lemma HasIsKnown(digest: string -> string, own: string, a: Desired, b: Desired, w: Desired, l: Desired, v: Volume)
    requires Sound(digest) && Fits(own, a) && Fits(own, b) && Has(digest, own, w, v)
    requires (w == a && l == b) || (w == b && l == a)
    ensures Known(own, a, b, l, v)
  {
    NamesAre(digest, own, w, v);
    hide Previous, ManifestFor, Sound, Has, Accounted, Proper;
    NamedIsAccounted(own, Hist(v, l.files.Keys, a.files.Keys + b.files.Keys), w.files.Keys);
  }

  lemma WonIsKnown(digest: string -> string, own: string, a: Desired, b: Desired, w: Desired, l: Desired, v: Volume)
    requires Sound(digest) && Fits(own, a) && Fits(own, b) && Won(digest, own, w, l, v)
    requires (w == a && l == b) || (w == b && l == a)
    ensures Known(own, a, b, w, v) && Known(own, a, b, l, v)
  {
    HasIsKnown(digest, own, a, b, w, l, v);
    NamesAre(digest, own, w, v);
    hide Previous, ManifestFor, Sound, Has, Accounted, Proper;
    WonIsAccounted(own, Hist(v, w.files.Keys, a.files.Keys + b.files.Keys));
  }

  lemma WonIsAccounted(own: string, h: Hist)
    requires own !in h.written && h.pending <= h.written
    requires forall n :: n in Previous(h.v, own) <==> n in h.pending
    requires forall p :: p in h.written && p !in h.pending ==> p !in h.v
    ensures Accounted(own, h)
  {
    hide Previous;
  }

  function Attempt(digest: string -> string, d: Desired, order: seq<string>, f: Fault): Event {
    Sync(d.files, Digest(digest, d), order, f)
  }

  lemma AttemptIs(digest: string -> string, own: string, d: Desired, h: Hist, order: seq<string>, f: Fault)
    requires Sound(digest) && Fits(own, d) && Lists(order, d.files)
    ensures var e := Attempt(digest, d, order, f);
      && Formed(own, e) && EventSteps(own, h.v, e) == Steps(h.v, own, ManifestFor(digest, d), order, d.files)
      && Next(own, h, e).v == Synced(h.v, own, ManifestFor(digest, d), order, d.files, f)
  {
    NoBreak(digest, d);
    hide Digest, Steps, Sound, Executed, Written, DoAll;
  }

  /** An attempt keeps the account of what both deliver. */
  lemma Accounts(own: string, h: Hist, e: Event)
    requires Accounted(own, h) && Formed(own, e) && e.Sync?
    requires e.files.Keys == h.pending && h.pending <= h.written
    ensures Accounted(own, Hist(Next(own, h, e).v, h.pending, h.written))
    ensures Succeeds(EventSteps(own, h.v, e), e.fault) ==>
      forall n :: n in h.written && n !in e.files ==> n !in Next(own, h, e).v
  {
    hide Accounted, EventSteps, Succeeds, Next, Formed;
    NoMore(own, h, e);
    if Succeeds(EventSteps(own, h.v, e), e.fault) {
      SuccessAccounts(own, h, e);
      SuccessIsExact(own, h, e);
      assert h.written + e.files.Keys == h.written;
      forall n | n in h.written && n !in e.files ensures n !in Next(own, h, e).v {
        GoneAt(own, h, e, n);
      }
    } else if e.fault.readable {
      FailureAccounts(own, h, e);
    } else {
      NothingRead(own, h, e);
    }
    MorePending(own, Next(own, h, e), h.pending);
  }

  lemma GoneAt(own: string, h: Hist, e: Event, n: string)
    requires e.Sync? && Formed(own, e) && n in h.written && n !in e.files && Accounted(own, h)
    ensures n !in Exactly(own, h.v, h.written, e)
  {
    ExactlyAt(own, h.v, h.written, e, n);
    hide Previous, Exactly;
  }

  lemma NothingRead(own: string, h: Hist, e: Event)
    requires Accounted(own, h) && Formed(own, e) && e.Sync? && !e.fault.readable
    ensures Accounted(own, Next(own, h, e))
  {
    NothingDone(h.v);
    hide Parse, EventSteps, DoAll;
  }

  lemma MorePending(own: string, h: Hist, pending: set<string>)
    requires Accounted(own, h) && h.pending <= pending <= h.written
    ensures Accounted(own, h.(pending := pending))
  {
    hide Previous;
  }

  /** An attempt writes what it wants and nothing else. */
  lemma NoMore(own: string, h: Hist, e: Event)
    requires Formed(own, e) && e.Sync? && e.files.Keys == h.pending && h.pending <= h.written
    ensures Next(own, h, e).pending <= h.pending && Next(own, h, e).written == h.written
  {
    ExecutedAre(h.v, own, ManifestText(e), e.order, e.files, e.fault);
    hide Parse, EventSteps, Steps, DoAll, Executed;
    var w := Written(Executed(EventSteps(own, h.v, e), own, e.fault), own);
    assert w <= e.files.Keys;
    assert h.written + w == h.written;
  }

  /** An attempt of the one still to be delivered: it wins, or all stays known. */
  lemma LateTries(digest: string -> string, own: string, a: Desired, b: Desired, late: Desired, other: Desired,
                  v: Volume, order: seq<string>, f: Fault)
    requires Sound(digest) && Fits(own, a) && Fits(own, b) && Known(own, a, b, late, v) && Lists(order, late.files)
    requires (late == a && other == b) || (late == b && other == a)
    ensures var r := Synced(v, own, ManifestFor(digest, late), order, late.files, f);
      && Known(own, a, b, late, r)
      && (Succeeds(Steps(v, own, ManifestFor(digest, late), order, late.files), f) ==>
            Won(digest, own, late, other, r))
  {
    var e := Attempt(digest, late, order, f);
    var h := Hist(v, late.files.Keys, a.files.Keys + b.files.Keys);
    AttemptIs(digest, own, late, h, order, f);
    hide Digest, ManifestFor, Accounted, EventSteps, Steps, Sound, Next, Synced, Formed, Has;
    Accounts(own, h, e);
    if Succeeds(EventSteps(own, v, e), f) { SuccessHas(digest, own, late, v, order, f); }
  }

  /** With both recorded ok, all is known whoever has to deliver again. */
  lemma BothKnown(digest: string -> string, own: string, a: Desired, b: Desired, p: Shared)
    requires Sound(digest) && Fits(own, a) && Fits(own, b) && SharedInv(digest, own, a, b, p) && p.a.ok && p.b.ok
    ensures AllKnown(own, a, b, a, p.nodes) && AllKnown(own, a, b, b, p.nodes)
  {
    hide Won, Known, Digest, Sound, Fits;
    var aWon := AllWon(digest, own, a, b, p.nodes);
    forall i | 0 <= i < |p.nodes| ensures Known(own, a, b, a, p.nodes[i]) && Known(own, a, b, b, p.nodes[i]) {
      WonIsKnown(digest, own, a, b, if aWon then a else b, if aWon then b else a, p.nodes[i]);
    }
  }

  /** A sweep that goes through to the nodes. */
  lemma SweepReaches(digest: string -> string, own: string, a: Desired, b: Desired, p: Shared, t: Turn)
    requires Sound(digest) && Fits(own, a) && Fits(own, b) && SweepOK(own, |p.nodes|, t.sweep) && Steady(a, b, t)
    requires t.sweep.want.Some? && t.sweep.connected && !Skips(digest, Seen(p, t.first), t.sweep)
    ensures var mine, other := if t.first then a else b, if t.first then b else a;
      var q := SweptBy(digest, own, p, t);
      && (AllKnown(own, a, b, mine, p.nodes) ==>
            AllKnown(own, a, b, mine, q.nodes)
            && (Seen(q, t.first).ok ==> AllWon(digest, own, mine, other, q.nodes)))
      && (Seen(q, t.first).ok ==> AllKnown(own, a, b, other, q.nodes))
  {
    var mine, other := if t.first then a else b, if t.first then b else a;
    var q := SweptBy(digest, own, p, t);
    hide Won, Known, Digest, ManifestFor, Synced, Steps, Succeeds, Sound, Fits, Has;
    forall i | 0 <= i < |p.nodes| && AllKnown(own, a, b, mine, p.nodes)
      ensures Known(own, a, b, mine, q.nodes[i])
      ensures Seen(q, t.first).ok ==> Won(digest, own, mine, other, q.nodes[i])
    {
      LateTries(digest, own, a, b, mine, other, p.nodes[i], t.sweep.order, t.sweep.faults[i]);
    }
    forall i | 0 <= i < |p.nodes| && Seen(q, t.first).ok ensures Known(own, a, b, other, q.nodes[i]) {
      assert own !in mine.files;
      SuccessHas(digest, own, mine, p.nodes[i], t.sweep.order, t.sweep.faults[i]);
      HasIsKnown(digest, own, a, b, mine, other, q.nodes[i]);
    }
  }

  /** Every sweep keeps the invariant, and the one that comes to be ok last wins. */
  lemma SweepKeeps(digest: string -> string, own: string, a: Desired, b: Desired, p: Shared, t: Turn)
    requires Sound(digest) && Fits(own, a) && Fits(own, b) && SharedInv(digest, own, a, b, p)
    requires SweepOK(own, |p.nodes|, t.sweep) && Steady(a, b, t)
    ensures var q := SweptBy(digest, own, p, t);
      && SharedInv(digest, own, a, b, q)
      && (!Seen(p, t.first).ok && Seen(q, t.first).ok && Seen(p, !t.first).ok ==>
            AllWon(digest, own, if t.first then a else b, if t.first then b else a, q.nodes))
  {
    hide AllWon, AllKnown, Digest, ManifestFor, SyncNodes, AllSucceed, Sound, Fits;
    if p.a.ok && p.b.ok { BothKnown(digest, own, a, b, p); }
    if t.sweep.want.Some? && t.sweep.connected && !Skips(digest, Seen(p, t.first), t.sweep) {
      SweepReaches(digest, own, a, b, p, t);
    }
  }

  lemma {:induction false} RunKeeps(digest: string -> string, own: string, a: Desired, b: Desired, p: Shared,
                                    turns: seq<Turn>)
    requires Sound(digest) && Fits(own, a) && Fits(own, b) && SharedInv(digest, own, a, b, p)
    requires forall t :: t in turns ==> SweepOK(own, |p.nodes|, t.sweep) && Steady(a, b, t)
    ensures SharedInv(digest, own, a, b, RunSwept(digest, own, p, turns))
    decreases turns
  {
    hide SharedInv, Sound, Fits, Steady, SweptBy;
    if turns != [] {
      SweepKeeps(digest, own, a, b, p, turns[0]);
      RunKeeps(digest, own, a, b, SweptBy(digest, own, p, turns[0]), turns[1..]);
    }
  }

  /** One has delivered on every node; the other's record is true of one if and only if they want the
      same, its files stand there if and only if they are covered, and the rest of them is gone. */
  ghost predicate Prevails(digest: string -> string, own: string, w: Desired, l: Desired, nodes: seq<Volume>) {
    forall i :: 0 <= i < |nodes| ==>
      var v := nodes[i];
      && Has(digest, own, w, v) && (Has(digest, own, l, v) <==> w == l) && (Stands(l, v) <==> Covers(w, l))
      && forall n :: n in l.files && n !in w.files ==> n !in v
  }

  /** Over any run of sweeps, failures and recoveries of two deliveries on one volume, each wanting the
      same whenever that can be built: once both are recorded ok, one of them prevails. */
  lemma OnePrevails(digest: string -> string, own: string, a: Desired, b: Desired, p: Shared, turns: seq<Turn>)
    requires Sound(digest) && Fits(own, a) && Fits(own, b) && !p.a.ok && !p.b.ok
    requires forall t :: t in turns ==> SweepOK(own, |p.nodes|, t.sweep) && Steady(a, b, t)
    ensures var end := RunSwept(digest, own, p, turns);
      end.a.ok && end.b.ok ==> Prevails(digest, own, a, b, end.nodes) || Prevails(digest, own, b, a, end.nodes)
  {
    hide Sound, Fits, Steady, RunSwept, Digest, Won, Has, Stands, Covers;
    RunKeeps(digest, own, a, b, p, turns);
    var end := RunSwept(digest, own, p, turns);
    if end.a.ok && end.b.ok {
      if AllWon(digest, own, a, b, end.nodes) {
        WonPrevails(digest, own, a, b, end.nodes);
      } else {
        WonPrevails(digest, own, b, a, end.nodes);
      }
    }
  }

  lemma WonPrevails(digest: string -> string, own: string, w: Desired, l: Desired, nodes: seq<Volume>)
    requires Sound(digest) && Fits(own, w) && Fits(own, l) && AllWon(digest, own, w, l, nodes)
    ensures Prevails(digest, own, w, l, nodes)
  {
    hide Sound, Fits, Digest, ManifestFor, Stands, Covers;
    forall i | 0 <= i < |nodes|
      ensures (Has(digest, own, l, nodes[i]) <==> w == l) && (Stands(l, nodes[i]) <==> Covers(w, l))
    {
      hide Has;
      StandsExactly(digest, own, w, l, nodes[i]);
      HasExactly(digest, own, w, l, nodes[i]);
    }
  }

  /** And so it stays: with both recorded ok, no sweep that wants what is recorded changes anything. */
  lemma {:induction false} NobodyNotices(digest: string -> string, own: string, a: Desired, b: Desired, p: Shared,
                                         turns: seq<Turn>)
    requires p.a == Row(Digest(digest, a), true) && p.b == Row(Digest(digest, b), true)
    requires forall t :: t in turns ==>
      SweepOK(own, |p.nodes|, t.sweep) && t.sweep.want == Some(if t.first then a else b)
    ensures RunSwept(digest, own, p, turns) == p
    decreases turns
  {
    hide Digest, Always;
    if turns != [] {
      assert turns[0] in turns;
      NobodyNotices(digest, own, a, b, p, turns[1..]);
    }
  }

  /** So where the other is skipped over, that is idle if and only if the two want the same. */
  lemma SkipIdleIfSame(digest: string -> string, own: string, w: Desired, l: Desired, st: State, s: Sweep)
    requires Sound(digest) && Fits(own, w) && Fits(own, l) && st.nodes != [] && AllWon(digest, own, w, l, st.nodes)
    requires SweepOK(own, |st.nodes|, s) && Skips(digest, st, s) && s.want == Some(l)
    requires s.connected && AllSucceed(own, ManifestFor(digest, l), s.order, l.files, st.nodes, s.faults)
    ensures Always(digest, own, st, s) == st <==> w == l
  {
    hide Sound, Fits, Digest, Always, AllSucceed, ManifestFor, Has, Skips;
    SkipIdleExactly(digest, own, st, s);
    forall i | 0 <= i < |st.nodes| ensures Has(digest, own, l, st.nodes[i]) <==> w == l {
      HasExactly(digest, own, w, l, st.nodes[i]);
    }
    var v := st.nodes[0];
    assert AllHold(digest, own, st, s) ==> Has(digest, own, l, v);
  }

  // ── a key lost, and nobody told ─────────────────────────────────────────────────────

  /** A sweep of one node on which nothing fails. */
  function Whole(digest: string -> string, own: string, v: Volume, d: Desired, order: seq<string>): (s: Sweep)
    requires Fits(own, d) && Lists(order, d.files)
    ensures SweepOK(own, 1, s)
  {
    Sweep(Some(d), order, true, [Fault(true, |Steps(v, own, ManifestFor(digest, d), order, d.files)|, None)])
  }

  /** An empty volume on one node, and the first delivery swept. */
  function AfterOne(digest: string -> string, own: string, x: Desired, ox: seq<string>): (q: Shared)
    requires Fits(own, x) && Lists(ox, x.files)
    ensures |q.nodes| == 1
  {
    SweptBy(digest, own, Shared([map[]], Row("", false), Row("", false)),
            Turn(true, Whole(digest, own, map[], x, ox)))
  }

  /** And then the second. */
  function AfterTwo(digest: string -> string, own: string, x: Desired, ox: seq<string>, y: Desired, oy: seq<string>)
    : (r: Shared)
    requires Fits(own, x) && Lists(ox, x.files) && Fits(own, y) && Lists(oy, y.files)
    ensures |r.nodes| == 1
  {
    var q := AfterOne(digest, own, x, ox);
    SweptBy(digest, own, q, Turn(false, Whole(digest, own, q.nodes[0], y, oy)))
  }

  lemma WholeSucceeds(digest: string -> string, own: string, p: Shared, first: bool, d: Desired, order: seq<string>)
    requires |p.nodes| == 1 && Fits(own, d) && Lists(order, d.files) && !Seen(p, first).ok
    ensures var s := Whole(digest, own, p.nodes[0], d, order);
      var q := SweptBy(digest, own, p, Turn(first, s));
      && Seen(q, first) == State(Digest(digest, d), true, q.nodes)
      && Seen(q, !first) == Seen(p, !first).(nodes := q.nodes)
      && q.nodes == [Synced(p.nodes[0], own, ManifestFor(digest, d), order, d.files, s.faults[0])]
      && Succeeds(Steps(p.nodes[0], own, ManifestFor(digest, d), order, d.files), s.faults[0])
  {
    hide Digest, ManifestFor, Steps, Synced;
  }

  /** Two deliveries in turn, both recorded ok; a file only the first wants was there and is gone,
      and the first one's next sweep leaves it at that. */
  lemma FileGone(digest: string -> string, own: string, x: Desired, ox: seq<string>, y: Desired, oy: seq<string>,
                 name: string, again: Sweep)
    requires Sound(digest) && Fits(own, x) && Lists(ox, x.files) && Fits(own, y) && Lists(oy, y.files)
    requires SweepOK(own, 1, again) && again.want == Some(x) && name in x.files && name !in y.files
    ensures var q, r := AfterOne(digest, own, x, ox), AfterTwo(digest, own, x, ox, y, oy);
      && name in q.nodes[0] && name !in r.nodes[0] && r.a.ok && r.b.ok
      && SweptBy(digest, own, r, Turn(true, again)) == r
  {
    var none: Volume := map[];
    var p := Shared([none], Row("", false), Row("", false));
    var q, r := AfterOne(digest, own, x, ox), AfterTwo(digest, own, x, ox, y, oy);
    var sx, sy := Whole(digest, own, none, x, ox), Whole(digest, own, q.nodes[0], y, oy);
    WholeSucceeds(digest, own, p, true, x, ox);
    WholeSucceeds(digest, own, q, false, y, oy);
    hide Digest, ManifestFor, Sound, Fits, SweptBy, Steps, Synced, Whole, Has, Covers, AfterOne, AfterTwo;
    FirstStandsExactly(digest, own, none, x, ox, sx.faults[0], y, oy, sy.faults[0]);
    assert Get(q.nodes[0], name).Some?;
    SkippedStays(digest, own, r, Turn(true, again));
  }

  lemma SkippedStays(digest: string -> string, own: string, p: Shared, t: Turn)
    requires SweepOK(own, |p.nodes|, t.sweep) && Skips(digest, Seen(p, t.first), t.sweep)
    ensures SweptBy(digest, own, p, t) == p
  {
    hide Always, Skips;
  }

  const CERTS_MANIFEST := ".daffa-certs-manifest"

  lemma PlainName(s: string)
    requires s != "" && s[0] != '#' && !IsSpace(s[0]) && !IsSpace(s[|s| - 1]) && '\n' !in s
    ensures Proper(s)
  {
  }

  function CarryingX(): (d: Desired)
    ensures Fits(CERTS_MANIFEST, d) && Lists(["x.crt", "x.key"], d.files)
  {
    PlainName("x.crt");
    PlainName("x.key");
    Desired(map["x.crt" := "certificate", "x.key" := "key"], 0, 0)
  }

  function CarryingY(): (d: Desired)
    ensures Fits(CERTS_MANIFEST, d) && Lists(["y.crt", "y.key"], d.files)
  {
    PlainName("y.crt");
    PlainName("y.key");
    Desired(map["y.crt" := "certificate", "y.key" := "key"], 0, 0)
  }

  /** Two plain deliveries of one certificate each, of different names. */
  lemma KeyGone(digest: string -> string, again: Sweep)
    requires Sound(digest) && SweepOK(CERTS_MANIFEST, 1, again) && again.want == Some(CarryingX())
    ensures CarryingX().files.Keys !! CarryingY().files.Keys
    ensures var q := AfterOne(digest, CERTS_MANIFEST, CarryingX(), ["x.crt", "x.key"]);
      var r := AfterTwo(digest, CERTS_MANIFEST, CarryingX(), ["x.crt", "x.key"], CarryingY(), ["y.crt", "y.key"]);
      && "x.key" in q.nodes[0] && "x.key" !in r.nodes[0] && r.a.ok && r.b.ok
      && SweptBy(digest, CERTS_MANIFEST, r, Turn(true, again)) == r
  {
    hide Sound, Fits, SweptBy, AfterOne, AfterTwo;
    FileGone(digest, CERTS_MANIFEST, CarryingX(), ["x.crt", "x.key"], CarryingY(), ["y.crt", "y.key"], "x.key", again);
  }
}
