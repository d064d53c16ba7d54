/** Keyrings: one version encrypts, the others still decrypt, and what a volume holds is every
    version that has not been retired. */
module Keyring {
  import opened Wrappers

  datatype Phase = Active | DecryptOnly | Retired

  /** material is what unsealing gives back. */
  datatype Version = Version(id: nat, phase: Phase, material: string, created: int)

  // ── the two transitions ─────────────────────────────────────────────────────────────

  function Demoted(vs: seq<Version>): seq<Version> {
    seq(|vs|, i requires 0 <= i < |vs| => if vs[i].phase == Active then vs[i].(phase := DecryptOnly) else vs[i])
  }

  function Rotated(vs: seq<Version>, id: nat, material: string, now: int): seq<Version> {
    Demoted(vs) + [Version(id, Active, material, now)]
  }

  function Retire(vs: seq<Version>, id: nat): seq<Version> {
    seq(|vs|, i requires 0 <= i < |vs| =>
      if vs[i].id == id && vs[i].phase == DecryptOnly then vs[i].(phase := Retired) else vs[i])
  }

  ghost predicate Retirable(vs: seq<Version>, id: nat) {
    exists i :: 0 <= i < |vs| && vs[i].id == id && vs[i].phase == DecryptOnly
  }

  // ── the delivered document ──────────────────────────────────────────────────────────

  datatype Entry = Entry(material: string, phase: Phase, created: int)
  datatype Document = Document(current: nat, keys: map<nat, Entry>, raw: string)

  function EntryOf(v: Version): Entry { Entry(v.material, v.phase, v.created) }

  class Ring {
    var versions: seq<Version>
    var nextID: nat

    ghost predicate Valid() reads this { Minted(versions, nextID) }

    /** A new keyring, before its first version is minted. */
    constructor ()
      ensures Valid() && versions == []
    {
      versions, nextID := [], 0;
    }

    /** One transaction: the active version is demoted and a fresh one appended. */
    method Rotate(material: string, now: int) returns (id: nat)
      requires Valid()
      modifies this
      ensures Valid() && id == old(nextID) && nextID == old(nextID) + 1
      ensures versions == Rotated(old(versions), id, material, now)
    {
      var demoted: seq<Version> := [];
      for i := 0 to |versions|
        invariant versions == old(versions) && nextID == old(nextID)
        invariant demoted == Demoted(versions[..i])
      {
        var v := versions[i];
        demoted := demoted + [if v.phase == Active then v.(phase := DecryptOnly) else v];
        assert versions[..i + 1] == versions[..i] + [v];
      }
      assert versions[..|versions|] == versions;
      id := nextID;
      versions, nextID := demoted + [Version(id, Active, material, now)], nextID + 1;
    }

    /** Retires a version if it may be: the store's own guard, and the answer the handler gives. */
    method RetireVersion(id: nat) returns (ok: bool)
      requires Valid()
      modifies this`versions
      ensures Valid() && ok == Retirable(old(versions), id) && versions == Retire(old(versions), id)
    {
      ok := false;
      var next: seq<Version> := [];
      for i := 0 to |versions|
        invariant versions == old(versions) && next == Retire(versions[..i], id)
        invariant ok <==> Retirable(versions[..i], id)
      {
        var v := versions[i];
        assert versions[..i + 1] == versions[..i] + [v] && versions[..i + 1][i] == v;
        if v.id == id && v.phase == DecryptOnly {
          next, ok := next + [v.(phase := Retired)], true;
        } else {
          next := next + [v];
          if Retirable(versions[..i + 1], id) {
            var j :| 0 <= j < |versions[..i + 1]| && versions[..i + 1][j].id == id
                && versions[..i + 1][j].phase == DecryptOnly;
            assert versions[..i][j] == versions[j];
          }
        }
        if Retirable(versions[..i], id) {
          var j :| 0 <= j < i && versions[..i][j].id == id && versions[..i][j].phase == DecryptOnly;
          assert versions[..i + 1][j] == versions[j];
        }
      }
      assert versions[..|versions|] == versions;
      versions := next;
    }

    /** Builds the document: fails on material that cannot be unsealed, on an active version
        that is not base64, and when nothing is active. */
    method Files(sealed: set<nat>, decode: string -> Option<string>) returns (doc: Option<Document>)
      requires Valid()
      ensures doc.Some? <==> Buildable(versions, sealed, decode)
      ensures doc.Some? ==> Describes(doc.value, versions, decode)
    {
      var keys: map<nat, Entry>, current: Option<nat>, raw := map[], None, "";
      for i := 0 to |versions|
        invariant forall j :: 0 <= j < i ==> Readable(versions[j], sealed, decode)
        invariant forall j :: 0 <= j < i && versions[j].phase != Retired ==>
                  versions[j].id in keys && keys[versions[j].id] == EntryOf(versions[j])
        invariant forall k :: k in keys ==>
                  exists j :: 0 <= j < i && versions[j].id == k && versions[j].phase != Retired
        invariant current.None? ==> forall j :: 0 <= j < i ==> versions[j].phase != Active
        invariant current.Some? ==>
                  exists j :: 0 <= j < i && versions[j].phase == Active && versions[j].id == current.value
                                                && decode(versions[j].material) == Some(raw)
      {
        var v := versions[i];
        if v.phase == Retired { continue; }
        if v.id in sealed { return None; }
        keys := keys[v.id := EntryOf(v)];
        if v.phase == Active {
          current := Some(v.id);
          var bytes := decode(v.material);
          if bytes.None? { return None; }
          raw := bytes.value;
        }
      }
      if current.None? { return None; }
      doc := Some(Document(current.value, keys, raw));
    }
  }

  predicate Readable(v: Version, sealed: set<nat>, decode: string -> Option<string>) {
    v.phase == Retired || (v.id !in sealed && (v.phase == Active ==> decode(v.material).Some?))
  }

  ghost predicate Buildable(vs: seq<Version>, sealed: set<nat>, decode: string -> Option<string>) {
    && (forall i :: 0 <= i < |vs| ==> Readable(vs[i], sealed, decode))
    && exists i :: 0 <= i < |vs| && vs[i].phase == Active
  }

  /** What a document says of the versions: it holds exactly those not retired, as they are,
      names an active one as current, and carries its raw bytes beside. */
  ghost predicate Describes(d: Document, vs: seq<Version>, decode: string -> Option<string>) {
    && (forall i :: 0 <= i < |vs| && vs[i].phase != Retired ==>
        vs[i].id in d.keys && d.keys[vs[i].id] == EntryOf(vs[i]))
    && (forall k :: k in d.keys ==> exists i :: 0 <= i < |vs| && vs[i].id == k && vs[i].phase != Retired)
    && exists i ::
         0 <= i < |vs| && vs[i].phase == Active && vs[i].id == d.current && decode(vs[i].material) == Some(d.raw)
  }

  /** Version ids are handed out once. */
  ghost predicate Minted(vs: seq<Version>, next: nat) {
    && (forall i :: 0 <= i < |vs| ==> vs[i].id < next)
    && (forall i, j :: 0 <= i < j < |vs| ==> vs[i].id != vs[j].id)
  }

  // ── runs ────────────────────────────────────────────────────────────────────────────

  datatype Event = Rotation(material: string, now: int) | Retirement(id: nat)

  datatype State = State(versions: seq<Version>, next: nat)

  function Step(s: State, e: Event): State {
    match e
    case Rotation(m, now) => State(Rotated(s.versions, s.next, m, now), s.next + 1)
    case Retirement(id) => State(Retire(s.versions, id), s.next)
  }

  function Run(s: State, events: seq<Event>): State
    decreases events
  {
    if events == [] then s else Run(Step(s, events[0]), events[1..])
  }

  /** The ids retired along a run: asked for while they may only decrypt. */
  ghost function RetiredIn(s: State, events: seq<Event>): set<nat>
    decreases events
  {
    if events == [] then {}
    else (if events[0].Retirement? && Retirable(s.versions, events[0].id) then {events[0].id} else {})
         + RetiredIn(Step(s, events[0]), events[1..])
  }

  ghost predicate OneActive(s: State) {
    && Minted(s.versions, s.next)
    && (exists i :: 0 <= i < |s.versions| && s.versions[i].phase == Active)
    && (forall i, j :: 0 <= i < j < |s.versions| ==> s.versions[i].phase != Active || s.versions[j].phase != Active)
  }

  ghost predicate Live(s: State, id: nat) {
    exists i :: 0 <= i < |s.versions| && s.versions[i].id == id && s.versions[i].phase != Retired
  }

  lemma StepKeepsOne(s: State, e: Event)
    requires Minted(s.versions, s.next) && (e.Rotation? || OneActive(s))
    requires forall i, j :: 0 <= i < j < |s.versions| ==> s.versions[i].phase != Active || s.versions[j].phase != Active
    ensures OneActive(Step(s, e))
  {
    var t := Step(s, e);
    match e {
      case Rotation(m, now) =>
        assert t.versions[|s.versions|].phase == Active;
      case Retirement(id) =>
        var i :| 0 <= i < |s.versions| && s.versions[i].phase == Active;
        assert t.versions[i].phase == Active;
    }
  }

  /** Who is live after one step: everyone who was, less the version retired, plus the one minted. */
  lemma StepLive(s: State, e: Event, id: nat)
    requires Minted(s.versions, s.next)
    ensures Live(Step(s, e), id) <==>
            if e.Rotation? && id == s.next then true
            else Live(s, id) && !(e.Retirement? && e.id == id && Retirable(s.versions, id))
  {
    var t := Step(s, e);
    if Live(s, id) {
      var i :| 0 <= i < |s.versions| && s.versions[i].id == id && s.versions[i].phase != Retired;
      assert t.versions[i].id == id;
      if e.Retirement? && e.id == id && Retirable(s.versions, id) {
        var j :| 0 <= j < |s.versions| && s.versions[j].id == id && s.versions[j].phase == DecryptOnly;
        assert i == j;
      }
    }
    if Live(t, id) {
      var i :| 0 <= i < |t.versions| && t.versions[i].id == id && t.versions[i].phase != Retired;
      if i < |s.versions| { assert s.versions[i].id == id && s.versions[i].phase != Retired; }
    }
    if e.Rotation? { assert t.versions[|s.versions|].id == s.next; }
  }

  /** The last version minted along a run, or the one active at its start. */
  ghost predicate IsCurrent(s: State, id: nat) {
    exists i :: 0 <= i < |s.versions| && s.versions[i].id == id && s.versions[i].phase == Active
  }

  lemma StartsMinted(s: State, id: nat)
    requires OneActive(s)
    ensures Live(s, id) ==> id < s.next
    ensures Retirable(s.versions, id) ==> Live(s, id)
    ensures Minted(s.versions, s.next)
    ensures forall i, j :: 0 <= i < j < |s.versions| ==> s.versions[i].phase != Active || s.versions[j].phase != Active
  {
  }

  lemma StepCurrent(s: State, e: Event, id: nat)
    ensures e.Rotation? ==> IsCurrent(Step(s, e), s.next)
    ensures e.Retirement? ==> (IsCurrent(Step(s, e), id) <==> IsCurrent(s, id))
  {
    var t := Step(s, e);
    match e {
      case Rotation(_, _) => assert t.versions[|s.versions|].id == s.next;
      case Retirement(_) =>
        if IsCurrent(s, id) {
          var i :| 0 <= i < |s.versions| && s.versions[i].id == id && s.versions[i].phase == Active;
          assert t.versions[i].id == id;
        }
    }
  }

  function Rotations(events: seq<Event>): nat {
    if events == [] then 0 else (if events[0].Rotation? then 1 else 0) + Rotations(events[1..])
  }

  /** Over any run after seeding: exactly one version is active, it is the last one minted, and
      the live versions are those minted and not retired. */
  lemma {:induction false} RunReadable(s: State, events: seq<Event>, id: nat)
    requires OneActive(s)
    ensures var t := Run(s, events);
      && OneActive(t)
      && t.next == s.next + Rotations(events)
      && (Live(t, id) <==> (Live(s, id) || s.next <= id < t.next) && id !in RetiredIn(s, events))
      && (Rotations(events) > 0 ==> IsCurrent(t, t.next - 1))
      && (Rotations(events) == 0 ==> (IsCurrent(t, id) <==> IsCurrent(s, id)))
    decreases events
  {
    hide OneActive, Live, IsCurrent, Rotated, Retire, Retirable;
    if events != [] {
      var e := events[0];
      StartsMinted(s, id);
      StepKeepsOne(s, e);
      StepLive(s, e, id);
      StepCurrent(s, e, id);
      RunReadable(Step(s, e), events[1..], id);
      if e.Rotation? { RunReadable(Step(s, e), events[1..], s.next); }
    }
  }

  /** A keyring seeded by its first rotation is such a start. */
  lemma SeedIsOneActive(material: string, now: int)
    ensures OneActive(Step(State([], 0), Rotation(material, now)))
  {
    StepKeepsOne(State([], 0), Rotation(material, now));
  }

  /** What every volume that is written receives: the last version minted as the current one,
      and exactly the versions minted and not retired. */
  lemma DocumentIsReadable(s: State, events: seq<Event>, decode: string -> Option<string>, d: Document)
    requires OneActive(s) && Describes(d, Run(s, events).versions, decode)
    ensures var t := Run(s, events);
      && (forall id: nat :: id in d.keys <==> (Live(s, id) || s.next <= id < t.next) && id !in RetiredIn(s, events))
      && d.current in d.keys
      && (forall id :: id in d.keys ==> d.keys[id].phase == if id == d.current then Active else DecryptOnly)
      && (Rotations(events) > 0 ==> d.current == t.next - 1)
      && (Rotations(events) == 0 ==> IsCurrent(s, d.current))
  {
    var t := Run(s, events);
    forall id: nat ensures id in d.keys <==> (Live(s, id) || s.next <= id < t.next) && id !in RetiredIn(s, events) {
      RunReadable(s, events, id);
      assert Live(t, id) <==> id in d.keys;
    }
    RunReadable(s, events, d.current);
    CurrentIsUnique(t);
    forall id | id in d.keys ensures d.keys[id].phase == if id == d.current then Active else DecryptOnly {
      Described(t.versions, decode, d, id);
      PhaseIn(t, d, id);
    }
  }

  lemma PhaseIn(s: State, d: Document, id: nat)
    requires OneActive(s) && IsCurrent(s, d.current) && id in d.keys
    requires exists i :: 0 <= i < |s.versions| && s.versions[i].id == id && s.versions[i].phase != Retired
    requires exists i :: 0 <= i < |s.versions| && s.versions[i].id == id && d.keys[id] == EntryOf(s.versions[i])
    ensures d.keys[id].phase == if id == d.current then Active else DecryptOnly
  {
  }

  lemma CurrentIsUnique(s: State)
    requires OneActive(s)
    ensures forall a, b :: IsCurrent(s, a) && IsCurrent(s, b) ==> a == b
  {
  }

  /** No unretired key disappears: a key in one document is in every later one, with the same
      material, unless it was retired in between. */
  lemma KeysPersist(s: State, events: seq<Event>, decode: string -> Option<string>, before: Document, after: Document,
                    id: nat)
    requires OneActive(s) && Describes(before, s.versions, decode) && Describes(after, Run(s, events).versions, decode)
    requires id in before.keys
    ensures id in after.keys <==> id !in RetiredIn(s, events)
    ensures id in after.keys ==> after.keys[id].material == before.keys[id].material
  {
    RunReadable(s, events, id);
    var t := Run(s, events);
    Described(s.versions, decode, before, id);
    Described(t.versions, decode, after, id);
    if id in after.keys {
      var i :| 0 <= i < |s.versions| && s.versions[i].id == id && before.keys[id] == EntryOf(s.versions[i]);
      var j :| 0 <= j < |t.versions| && t.versions[j].id == id && after.keys[id] == EntryOf(t.versions[j]);
      MaterialStays(s, events, i);
      StartsMinted(t, id);
      hide Describes, Run, RetiredIn, Live, OneActive;
      assert i == j;
    }
  }

  lemma Described(vs: seq<Version>, decode: string -> Option<string>, d: Document, id: nat)
    requires Describes(d, vs, decode)
    ensures id in d.keys <==> exists i :: 0 <= i < |vs| && vs[i].id == id && vs[i].phase != Retired
    ensures id in d.keys ==> exists i :: 0 <= i < |vs| && vs[i].id == id && d.keys[id] == EntryOf(vs[i])
  {
  }

  lemma {:induction false} MaterialStays(s: State, events: seq<Event>, i: nat)
    requires i < |s.versions|
    ensures var t := Run(s, events);
      i < |t.versions| && t.versions[i].id == s.versions[i].id && t.versions[i].material == s.versions[i].material
    decreases events
  {
    if events != [] { MaterialStays(Step(s, events[0]), events[1..], i); }
  }

  // ── what each version holds ─────────────────────────────────────────────────────────

  /** The rotations of a run, in order: the n-th of them mints the n-th id from the start's next. */
  function Mints(events: seq<Event>): seq<Event>
    ensures forall e :: e in Mints(events) ==> e.Rotation?
    ensures |Mints(events)| == Rotations(events)
  {
    if events == [] then [] else (if events[0].Rotation? then [events[0]] else []) + Mints(events[1..])
  }

  /** Some version holds this. */
  ghost predicate Holds(s: State, id: nat, material: string, created: int) {
    exists i :: 0 <= i < |s.versions| && s.versions[i].id == id && s.versions[i].material == material
                && s.versions[i].created == created
  }

  lemma StepHolds(s: State, e: Event, id: nat, material: string, created: int)
    requires Holds(s, id, material, created)
    ensures Holds(Step(s, e), id, material, created)
  {
    var i :| 0 <= i < |s.versions| && s.versions[i].id == id && s.versions[i].material == material
        && s.versions[i].created == created;
    assert Step(s, e).versions[i].id == id;
  }

  lemma {:induction false} RunHolds(s: State, events: seq<Event>, id: nat, material: string, created: int)
    requires Holds(s, id, material, created)
    ensures Holds(Run(s, events), id, material, created)
    decreases events
  {
    hide Holds, Step;
    if events != [] {
      StepHolds(s, events[0], id, material, created);
      RunHolds(Step(s, events[0]), events[1..], id, material, created);
    }
  }

  /** Every version minted along a run holds what its own rotation was given. */
  lemma {:induction false} MintedHolds(s: State, events: seq<Event>, n: nat)
    requires n < Rotations(events)
    ensures Holds(Run(s, events), s.next + n, Mints(events)[n].material, Mints(events)[n].now)
    decreases events
  {
    var e := events[0];
    var t := Step(s, e);
    if e.Rotation? && n == 0 {
      assert t.versions[|s.versions|].material == e.material;
      hide Step;
      RunHolds(t, events[1..], s.next, e.material, e.now);
    } else {
      MintedHolds(t, events[1..], if e.Rotation? then n - 1 else n);
    }
  }

  lemma HoldsOne(s: State, i: nat, material: string, created: int)
    requires Minted(s.versions, s.next) && i < |s.versions| && Holds(s, s.versions[i].id, material, created)
    ensures s.versions[i].material == material && s.versions[i].created == created
  {
  }

  /** A document gives for each version minted along the way, and not retired since, what its own
      rotation was given. */
  lemma DocumentHolds(s: State, events: seq<Event>, decode: string -> Option<string>, d: Document, n: nat)
    requires OneActive(s) && Describes(d, Run(s, events).versions, decode)
    requires n < Rotations(events) && s.next + n in d.keys
    ensures var key, mint := d.keys[s.next + n], Mints(events)[n];
      key.material == mint.material && key.created == mint.now
  {
    var t := Run(s, events);
    RunReadable(s, events, s.next + n);
    MintedHolds(s, events, n);
    Described(t.versions, decode, d, s.next + n);
    hide Run, Mints, RetiredIn, Describes, Live, Holds, IsCurrent;
    var i :| 0 <= i < |t.versions| && t.versions[i].id == s.next + n && d.keys[s.next + n] == EntryOf(t.versions[i]);
    HoldsOne(t, i, Mints(events)[n].material, Mints(events)[n].now);
  }

  /** The key every volume is told to encrypt with: after any run that rotated at all, the material
      and the time of the last rotation, and that material's own bytes beside. */
  lemma CurrentIsLastMinted(s: State, events: seq<Event>, decode: string -> Option<string>, d: Document)
    requires OneActive(s) && Describes(d, Run(s, events).versions, decode) && Rotations(events) > 0
    ensures var last := Mints(events)[Rotations(events) - 1];
      && d.current in d.keys && d.keys[d.current].phase == Active
      && d.keys[d.current].material == last.material && d.keys[d.current].created == last.now
      && decode(last.material) == Some(d.raw)
  {
    var t, n := Run(s, events), Rotations(events) - 1;
    DocumentIsReadable(s, events, decode, d);
    RunReadable(s, events, d.current);
    DocumentHolds(s, events, decode, d, n);
    MintedHolds(s, events, n);
    var i := CurrentOf(d, t.versions, decode);
    StartsMinted(t, d.current);
    hide Run, Mints, RetiredIn, Holds, Live, IsCurrent, Describes, OneActive, Minted, Rotations;
    HoldsOne(t, i, Mints(events)[n].material, Mints(events)[n].now);
  }

  lemma CurrentOf(d: Document, vs: seq<Version>, decode: string -> Option<string>) returns (i: nat)
    requires Describes(d, vs, decode)
    ensures i < |vs| && vs[i].id == d.current && vs[i].phase == Active && decode(vs[i].material) == Some(d.raw)
  {
    i :| 0 <= i < |vs| && vs[i].phase == Active && vs[i].id == d.current && decode(vs[i].material) == Some(d.raw);
  }

  /** After any run that rotated at all the document can be built exactly when every version minted and
      not retired unseals and the material minted last decodes. */
  lemma BuildsExactly(s: State, events: seq<Event>, sealed: set<nat>, decode: string -> Option<string>)
    requires OneActive(s) && Rotations(events) > 0
    ensures var t, last := Run(s, events), Mints(events)[Rotations(events) - 1];
      Buildable(t.versions, sealed, decode) <==>
      && (forall id: nat :: (Live(s, id) || s.next <= id < t.next) && id !in RetiredIn(s, events) ==> id !in sealed)
      && decode(last.material).Some?
  {
    var t, n := Run(s, events), Rotations(events) - 1;
    forall id: nat ensures Live(t, id) <==> (Live(s, id) || s.next <= id < t.next) && id !in RetiredIn(s, events) {
      RunReadable(s, events, id);
    }
    RunReadable(s, events, s.next + n);
    MintedHolds(s, events, n);
    CurrentIsUnique(t);
    var last := Mints(events)[n];
    hide Run, Mints, RetiredIn;
    var c :| 0 <= c < |t.versions| && t.versions[c].id == s.next + n && t.versions[c].phase == Active;
    HoldsOne(t, c, last.material, last.now);
    BuildsWhenOpen(t, c, sealed, decode);
  }

  lemma BuildsWhenOpen(t: State, c: nat, sealed: set<nat>, decode: string -> Option<string>)
    requires OneActive(t) && c < |t.versions| && t.versions[c].phase == Active
    ensures Buildable(t.versions, sealed, decode) <==>
            (forall id: nat :: Live(t, id) ==> id !in sealed) && decode(t.versions[c].material).Some?
  {
    if Buildable(t.versions, sealed, decode) {
      assert Readable(t.versions[c], sealed, decode);
    }
    if forall id: nat :: Live(t, id) ==> id !in sealed {
      assert forall i :: 0 <= i < |t.versions| && t.versions[i].phase != Retired ==> Live(t, t.versions[i].id);
    }
  }

  // ── the schedule ────────────────────────────────────────────────────────────────────

  const DAY := 24 * 60 * 60 * 1_000_000_000   // nanoseconds
  const WORD := 0x1_0000_0000_0000_0000

  /** 64-bit two's complement. */
  function Wrap(n: int): int {
    var m := n % WORD;
    if m < WORD / 2 then m else m - WORD
  }

  /** The age at which a version is due, as the worker multiplies it out. */
  function DueAfter(days: int): int { Wrap(days * DAY) }

  /** The first active version listed; listing does not depend on the phase. */
  function ActiveOf(vs: seq<Version>): Option<Version> {
    if vs == [] then None else if vs[0].phase == Active then Some(vs[0]) else ActiveOf(vs[1..])
  }

  predicate Due(vs: seq<Version>, days: int, now: int) {
    days > 0 && ActiveOf(vs).Some? && now - ActiveOf(vs).value.created >= DueAfter(days)
  }

  /** One keyring's turn in a sweep: the loop stops at the first active version. */
  method Sweep(ring: Ring, days: int, now: int, material: Option<string>) returns (rotated: bool)
    requires ring.Valid()
    modifies ring
    ensures ring.Valid() && rotated == (Due(old(ring.versions), days, now) && material.Some?)
    ensures ring.versions == if rotated then Rotated(old(ring.versions), old(ring.nextID), material.value, now)
            else old(ring.versions)
  {
    if days <= 0 { return false; }
    var active: Option<Version> := None;
    for i := 0 to |ring.versions|
      invariant active.None? && ActiveOf(ring.versions) == ActiveOf(ring.versions[i..])
    {
      if ring.versions[i].phase == Active {
        active := Some(ring.versions[i]);
        break;
      }
    }
    if active.None? || now - active.value.created < DueAfter(days) { return false; }
    if material.None? { return false; }
    var _ := ring.Rotate(material.value, now);
    rotated := true;
  }

  /** The schedule means days exactly up to 106751 of them; the next value already wraps. */
  lemma ScheduleExactly(days: nat)
    ensures DueAfter(days) == days * DAY <==> days <= 106751
  {
    assert 106751 * DAY < WORD / 2 <= 106752 * DAY;
  }

  /** Beyond it a keyring may be due the moment it has rotated. */
  lemma ScheduleRunsAway(vs: seq<Version>, now: int)
    requires ActiveOf(vs).Some? && ActiveOf(vs).value.created <= now
    ensures Due(vs, 150000, now)
  {
    assert 150000 * DAY == 12_960_000_000_000_000_000;
  }

  /** Within it a sweep rotates once: straight after, nothing is due for the whole period; and never
      without a schedule. */
  lemma OncePerPeriod(s: State, material: string, now: int, days: int, later: int)
    requires OneActive(s) && days <= 106751
    ensures Due(Step(s, Rotation(material, now)).versions, days, later) <==> days > 0 && later - now >= days * DAY
  {
    if days > 0 { ScheduleExactly(days); }
    var vs := Rotated(s.versions, s.next, material, now);
    ActiveIsLast(Demoted(s.versions), Version(s.next, Active, material, now));
  }

  lemma {:induction false} ActiveIsLast(vs: seq<Version>, v: Version)
    requires v.phase == Active && forall i :: 0 <= i < |vs| ==> vs[i].phase != Active
    ensures ActiveOf(vs + [v]) == Some(v)
  {
    if vs != [] {
      ActiveIsLast(vs[1..], v);
      assert (vs + [v])[1..] == vs[1..] + [v];
    }
  }
}
