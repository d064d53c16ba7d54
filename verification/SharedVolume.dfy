/** A delivery and a volume source syncing into one volume at the same time, each reading a manifest
    of its own name when it starts and then working through its steps, in whatever order their steps
    fall. (Two certificate deliveries share one manifest: that is TwoDeliveries.) */
module SharedVolume {
  import opened Wrappers
  import opened VolumeManifest
  import opened Delivery
  import opened DeliverySafety

  /** One sync: what it is to write, how far it gets, and what is left of it once it has read its
      manifest. */
  datatype Writer = Writer(own: string, text: string, order: seq<string>, files: Volume, fault: Fault,
                           left: Option<seq<Step>>)
  {
    predicate Fine() { Lists(order, files) }

    /** What it executes if it reads its manifest now. */
    function Planned(v: Volume): seq<Step>
      requires Fine()
    {
      Executed(Steps(v, own, text, order, files), own, fault)
    }

    /** The volume after it, if it runs alone. */
    function Alone(v: Volume): Volume
      requires Fine()
    {
      Synced(v, own, text, order, files, fault)
    }

    /** Its manifest, what it is to write, and what its last manifest names. */
    ghost predicate Concerns(v: Volume, p: string) { p == own || p in files || p in Previous(v, own) }
  }

  datatype Both = Both(v: Volume, a: Writer, b: Writer)

  /** One turn: reading the manifest, or the next step, or nothing once all is done. */
  function Turn(v: Volume, w: Writer): (r: (Volume, Writer))
    requires w.Fine()
    ensures r.1.Fine() && r.1.(left := w.left) == w
  {
    match w.left
    case None => (v, w.(left := Some(w.Planned(v))))
    case Some(steps) => if steps == [] then (v, w) else (Do(v, steps[0]), w.(left := Some(steps[1..])))
  }

  function Take(s: Both, first: bool): (r: Both)
    requires s.a.Fine() && s.b.Fine()
    ensures r.a.Fine() && r.b.Fine()
  {
    if first then
      var t := Turn(s.v, s.a);
      Both(t.0, t.1, s.b)
    else
      var t := Turn(s.v, s.b);
      Both(t.0, s.a, t.1)
  }

  function Interleaved(s: Both, turns: seq<bool>): Both
    requires s.a.Fine() && s.b.Fine()
    decreases turns
  {
    if turns == [] then s else Interleaved(Take(s, turns[0]), turns[1..])
  }

  /** How far one writer has come, on the paths it is concerned with: not begun, or what is left of
      it still leads where it leads alone. */
  ghost predicate OnItsWay(v: Volume, now: Volume, w: Writer)
    requires w.Fine()
  {
    match w.left
    case None => forall p :: w.Concerns(v, p) ==> Get(now, p) == Get(v, p)
    case Some(steps) =>
      && (forall s :: s in steps ==> w.Concerns(v, s.path))
      && forall p :: w.Concerns(v, p) ==> At(Get(now, p), steps, p) == Get(w.Alone(v), p)
  }

  ghost predicate Apart(v: Volume, a: Writer, b: Writer) { forall p :: !(a.Concerns(v, p) && b.Concerns(v, p)) }

  ghost predicate Between(v: Volume, s: Both)
    requires s.a.Fine() && s.b.Fine()
  {
    && Apart(v, s.a, s.b) && OnItsWay(v, s.v, s.a) && OnItsWay(v, s.v, s.b)
    && forall p :: !s.a.Concerns(v, p) && !s.b.Concerns(v, p) ==> Get(s.v, p) == Get(v, p)
  }

  lemma PlannedConcerns(v: Volume, w: Writer)
    requires w.Fine()
    ensures forall s :: s in w.Planned(v) ==> w.Concerns(v, s.path)
    ensures forall p :: At(Get(v, p), w.Planned(v), p) == Get(w.Alone(v), p)
  {
    hide Parse, Steps;
    ExecutedAre(v, w.own, w.text, w.order, w.files, w.fault);
    forall p: string ensures At(Get(v, p), w.Planned(v), p) == Get(w.Alone(v), p) {
      PathByPath(v, w.Planned(v), p);
    }
  }

  /** A manifest that reads as it did at the start gives the same plan. */
  lemma SamePlan(v: Volume, now: Volume, w: Writer)
    requires w.Fine() && Get(now, w.own) == Get(v, w.own)
    ensures w.Planned(now) == w.Planned(v) && Previous(now, w.own) == Previous(v, w.own)
  {
    hide Parse, Puts, Dels, Stale, Executed;
  }

  lemma TurnKeeps(v: Volume, now: Volume, w: Writer)
    requires w.Fine() && OnItsWay(v, now, w)
    ensures var t := Turn(now, w);
      OnItsWay(v, t.0, t.1) && forall p :: !w.Concerns(v, p) ==> Get(t.0, p) == Get(now, p)
  {
    hide Parse, Steps, Executed, Synced, Previous;
    var t := Turn(now, w);
    if w.left.None? {
      assert w.Concerns(v, w.own);
      SamePlan(v, now, w);
      PlannedConcerns(v, w);
      forall p | w.Concerns(v, p) ensures At(Get(now, p), w.Planned(v), p) == Get(w.Alone(v), p) {
        assert Get(now, p) == Get(v, p);
      }
    } else if w.left.value != [] {
      var steps := w.left.value;
      assert steps[0] in steps;
      assert forall s :: s in steps[1..] ==> s in steps;
      forall p: string ensures At(Get(t.0, p), steps[1..], p) == At(Get(now, p), steps, p) {
        hide Writer.Concerns;
      }
    }
  }

  /** The other writer is not concerned by what this one's turn changes. */
  lemma OtherKeeps(v: Volume, now: Volume, after: Volume, w: Writer)
    requires w.Fine() && OnItsWay(v, now, w) && forall p :: w.Concerns(v, p) ==> Get(after, p) == Get(now, p)
    ensures OnItsWay(v, after, w)
  {
    hide Parse, Steps, Executed, Synced, Previous;
  }

  lemma TakeKeeps(v: Volume, s: Both, first: bool)
    requires s.a.Fine() && s.b.Fine() && Between(v, s)
    ensures Between(v, Take(s, first))
  {
    hide OnItsWay, Turn, Previous;
    var t := Turn(s.v, if first then s.a else s.b);
    TurnKeeps(v, s.v, if first then s.a else s.b);
    OtherKeeps(v, s.v, t.0, if first then s.b else s.a);
    SameConcern(v, s.a, Take(s, first).a);
    SameConcern(v, s.b, Take(s, first).b);
    assert forall p :: Take(s, first).a.Concerns(v, p) == s.a.Concerns(v, p);
  }

  lemma SameConcern(v: Volume, w: Writer, w': Writer)
    requires w'.own == w.own && w'.files == w.files
    ensures forall p :: w'.Concerns(v, p) == w.Concerns(v, p)
  {
  }

  lemma {:induction false} RunKeeps(v: Volume, s: Both, turns: seq<bool>)
    requires s.a.Fine() && s.b.Fine() && Between(v, s)
    ensures var t := Interleaved(s, turns);
      && t.a.Fine() && t.b.Fine() && Between(v, t) && t.a.(left := s.a.left) == s.a && t.b.(left := s.b.left) == s.b
    decreases turns
  {
    hide Between, Turn;
    if turns != [] {
      TakeKeeps(v, s, turns[0]);
      RunKeeps(v, Take(s, turns[0]), turns[1..]);
    }
  }

  /** A delivery and a volume source beside it do not get into each other's way: two syncs that are
      concerned with different paths, their manifests among them, each reading its own when its turn
      comes and each going as far as its own faults let it, leave under any interleaving what running
      one after the other leaves. */
  lemma SyncsCommute(v: Volume, a: Writer, b: Writer, turns: seq<bool>)
    requires a.Fine() && b.Fine() && a.left.None? && b.left.None? && Apart(v, a, b)
    requires var end := Interleaved(Both(v, a, b), turns); end.a.left == Some([]) && end.b.left == Some([])
    ensures var end := Interleaved(Both(v, a, b), turns).v;
      end == b.Alone(a.Alone(v)) && end == a.Alone(b.Alone(v))
  {
    var end := Interleaved(Both(v, a, b), turns);
    RunKeeps(v, Both(v, a, b), turns);
    OneAfterOther(v, a, b);
    OneAfterOther(v, b, a);
    SameConcern(v, a, end.a);
    SameConcern(v, b, end.b);
    hide Interleaved, Synced, Previous, Writer.Concerns;
    forall p: string
      ensures Get(end.v, p) == Get(b.Alone(a.Alone(v)), p) && Get(end.v, p) == Get(a.Alone(b.Alone(v)), p)
    {
      assert a.Concerns(v, p) ==> At(Get(end.v, p), [], p) == Get(a.Alone(v), p);
      assert b.Concerns(v, p) ==> At(Get(end.v, p), [], p) == Get(b.Alone(v), p);
    }
    SameGets(end.v, b.Alone(a.Alone(v)));
    SameGets(end.v, a.Alone(b.Alone(v)));
  }

  /** Running b after a: b finds its paths as they were, and leaves a's as a left them. */
  lemma OneAfterOther(v: Volume, a: Writer, b: Writer)
    requires a.Fine() && b.Fine() && Apart(v, a, b)
    ensures forall p :: Get(b.Alone(a.Alone(v)), p)
                        == if b.Concerns(v, p) then Get(b.Alone(v), p)
                           else if a.Concerns(v, p) then Get(a.Alone(v), p) else Get(v, p)
  {
    var mid := a.Alone(v);
    forall p | !a.Concerns(v, p) ensures Get(mid, p) == Get(v, p) {
      TouchesOwn(v, a.own, a.text, a.order, a.files, a.fault, p);
    }
    assert b.Concerns(v, b.own);
    SamePlan(v, mid, b);
    PlannedConcerns(v, b);
    PlannedConcerns(mid, b);
    hide Parse, Steps, Executed, Synced, Previous;
    forall p: string
      ensures Get(b.Alone(mid), p)
              == if b.Concerns(v, p) then Get(b.Alone(v), p)
                 else if a.Concerns(v, p) then Get(a.Alone(v), p) else Get(v, p)
    {
      if b.Concerns(v, p) {
        assert Get(mid, p) == Get(v, p);
      } else {
        AtUntouched(Get(mid, p), b.Planned(v), p);
      }
    }
  }
}
