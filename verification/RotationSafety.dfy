/** What holds in every reachable state of certificate authorities, and what activation does to
    the bundles clients hold. */
module RotationSafety {
  import opened Wrappers
  import opened Rotation

  // ── membership ──────────────────────────────────────────────────────────────────────

  lemma PlacedHas(cas: seq<CA>, ca: CA, at: nat, x: CA)
    ensures x in Placed(cas, ca, at) <==> x in cas || x == ca
  {
    if at <= |cas| { assert cas == cas[..at] + cas[at..]; }
  }

  lemma {:induction false} WithoutHas(cas: seq<CA>, id: nat, x: CA)
    ensures x in Without(cas, id) <==> x in cas && x.id != id
  {
    if cas != [] { WithoutHas(cas[1..], id, x); }
  }

  /** What promotion makes of one authority. */
  function Promote(a: CA, next: CA): CA {
    if a.id == next.id then a.(status := Active)
    else if next.rotates == Some(a.id) then a.(status := Retired, overlap := next.overlap)
    else a
  }

  lemma PromotedHas(cas: seq<CA>, next: CA)
    ensures forall a :: a in cas ==> Promote(a, next) in Promoted(cas, next)
    ensures forall x :: x in Promoted(cas, next) ==> exists a :: a in cas && x == Promote(a, next)
  {
    var r := Promoted(cas, next);
    forall a | a in cas ensures Promote(a, next) in r {
      var i :| 0 <= i < |cas| && cas[i] == a;
      assert r[i] == Promote(a, next);
    }
    forall x | x in r ensures exists a :: a in cas && x == Promote(a, next) {
      var i :| 0 <= i < |r| && r[i] == x;
      assert x == Promote(cas[i], next);
    }
  }

  // ── the invariant ───────────────────────────────────────────────────────────────────

  ghost predicate Trusted(cas: seq<CA>, l: Leaf) {
    l.ca.Some? ==> l.signer == l.ca.value && exists a :: a in cas && a.id == l.ca.value && a.status != Retired
  }

  /** Identities are unique; an authority replaces at most one older one and is replaced by at
      most one; the one being replaced is active while the successor is staged and retired from
      its activation on; and every leaf is signed by an authority that is not retired. */
  ghost predicate Lineage(s: State) {
    && (forall a :: a in s.cas ==> a.id < s.next && (a.rotates.Some? ==> a.rotates.value < a.id))
    && (forall a, b :: a in s.cas && b in s.cas && a.id == b.id ==> a == b)
    && (forall a, b :: a in s.cas && b in s.cas && a.rotates.Some? && a.rotates == b.rotates ==> a == b)
    && (forall a :: a in s.cas && a.status == Staged ==> a.rotates.Some?)
    && (forall a, b :: a in s.cas && b in s.cas && a.rotates == Some(b.id) ==>
          b.status == if a.status == Staged then Active else Retired)
  }

  ghost predicate Sound(s: State) {
    Lineage(s) && forall l :: l in s.leaves ==> Trusted(s.cas, l)
  }

  datatype Event =
    | Adding(canSign: bool, at: nat)
    | Staging(id: nat, overlap: int, at: nat)
    | Activation(id: nat, confirmed: bool, budget: nat)
    | Deletion(id: nat)
    | Issuing(ca: nat)
    | Uploading(signer: nat)
    | Renewal(leaf: nat)
    | Removal(leaf: nat)
    | Selecting(bundles: seq<seq<nat>>)

  function Step(s: State, e: Event): State {
    match e
    case Adding(canSign, at) => Add(s, canSign, at)
    case Staging(id, overlap, at) => Stage(s, id, overlap, at)
    case Activation(id, confirmed, budget) => Activate(s, id, confirmed, budget)
    case Deletion(id) => Delete(s, id)
    case Issuing(ca) => Issue(s, ca)
    case Uploading(signer) => s.(leaves := s.leaves + [Leaf(s.next, None, signer)], next := s.next + 1)
    case Renewal(i) => Renew(s, i)
    case Removal(i) => Remove(s, i)
    case Selecting(bundles) => s.(bundles := bundles)
  }

  /** The one thing the create handler does not check. */
  predicate FromRetired(s: State, e: Event) {
    e.Issuing? && Lookup(s.cas, e.ca).Some? && Lookup(s.cas, e.ca).value.canSign
      && Lookup(s.cas, e.ca).value.status == Retired
  }

  lemma NewIsLineage(s: State, ca: CA, at: nat)
    requires Lineage(s) && ca.id == s.next && ca.status != Retired
    requires ca.status == Staged ==> ca.rotates.Some?
    requires ca.rotates.Some? ==> ca.status == Staged && ca.rotates.value < s.next
                                  && forall b :: b in s.cas ==>
                                     b.rotates != ca.rotates && (b.id == ca.rotates.value ==> b.status == Active)
    ensures Lineage(s.(cas := Placed(s.cas, ca, at), next := s.next + 1))
  {
    forall x ensures x in Placed(s.cas, ca, at) <==> x in s.cas || x == ca { PlacedHas(s.cas, ca, at, x); }
  }

  lemma TrustGrows(cas: seq<CA>, more: seq<CA>, leaves: seq<Leaf>)
    requires forall a :: a in cas ==> a in more
    requires forall l :: l in leaves ==> Trusted(cas, l)
    ensures forall l :: l in leaves ==> Trusted(more, l)
  {
  }

  lemma StagingSound(s: State, id: nat, overlap: int, at: nat)
    requires Sound(s)
    ensures Sound(Stage(s, id, overlap, at))
  {
    LookupHas(s.cas, id);
    if MayRotate(s, id) {
      var incumbent := Lookup(s.cas, id).value;
      var ca := CA(s.next, Staged, Some(id), overlap, true);
      forall b | b in s.cas ensures b.rotates != Some(id) {
        var i :| 0 <= i < |s.cas| && s.cas[i] == b;
        assert b.rotates == Some(incumbent.id) ==> b.status == Staged;
      }
      NewIsLineage(s, ca, at);
      forall x | x in s.cas ensures x in Placed(s.cas, ca, at) { PlacedHas(s.cas, ca, at, x); }
      TrustGrows(s.cas, Placed(s.cas, ca, at), s.leaves);
    }
  }

  lemma AddingSound(s: State, canSign: bool, at: nat)
    requires Sound(s)
    ensures Sound(Add(s, canSign, at))
  {
    var ca := CA(s.next, Active, None, 0, canSign);
    NewIsLineage(s, ca, at);
    forall x | x in s.cas ensures x in Placed(s.cas, ca, at) { PlacedHas(s.cas, ca, at, x); }
    TrustGrows(s.cas, Placed(s.cas, ca, at), s.leaves);
  }

  lemma {:induction false} ResignedHas(leaves: seq<Leaf>, from: nat, to: nat, budget: nat)
    ensures forall x :: x in Resigned(leaves, from, to, budget) ==>
              (x in leaves && (x.ca == Some(from) ==> budget < LeavesOf(leaves, from)))
                || (x.ca == Some(to) && x.signer == to)
    decreases leaves
  {
    if leaves != [] && !(leaves[0].ca == Some(from) && budget == 0) {
      ResignedHas(leaves[1..], from, to, if leaves[0].ca == Some(from) then budget - 1 else budget);
    }
  }

  lemma PromotionLineage(s: State, next: CA)
    requires Lineage(s) && next in s.cas && next.status == Staged
    ensures Lineage(s.(cas := Promoted(s.cas, next)))
  {
    PromotedHas(s.cas, next);
    var t := s.(cas := Promoted(s.cas, next));
    forall x, y | x in t.cas && y in t.cas
      ensures x.id == y.id ==> x == y
      ensures x.rotates.Some? && x.rotates == y.rotates ==> x == y
      ensures x.rotates == Some(y.id) ==> y.status == if x.status == Staged then Active else Retired
    {
      var a :| a in s.cas && x == Promote(a, next);
      var b :| b in s.cas && y == Promote(b, next);
      PromotedPair(s, next, a, b);
    }
  }

  lemma PromotedPair(s: State, next: CA, a: CA, b: CA)
    requires Lineage(s) && next in s.cas && next.status == Staged && a in s.cas && b in s.cas
    ensures var x, y := Promote(a, next), Promote(b, next);
      && (x.id == y.id ==> x == y)
      && (x.rotates.Some? && x.rotates == y.rotates ==> x == y)
      && (x.rotates == Some(y.id) ==> y.status == if x.status == Staged then Active else Retired)
  {
  }

  /** Leaves moved so far are trusted as they stand, and after promotion once all have moved. */
  lemma MovedTrusted(s: State, next: CA, from: nat, budget: nat)
    requires Sound(s) && next in s.cas && next.status == Staged && next.rotates == Some(from)
             && Lookup(s.cas, from).Some?
    ensures forall l :: l in Resigned(s.leaves, from, next.id, budget) ==> Trusted(s.cas, l)
    ensures LeavesOf(s.leaves, from) <= budget ==>
      forall l :: l in Resigned(s.leaves, from, next.id, budget) ==> Trusted(Promoted(s.cas, next), l)
  {
    ResignedHas(s.leaves, from, next.id, budget);
    var moved := Resigned(s.leaves, from, next.id, budget);
    LookupHas(s.cas, from);
    hide Resigned, Promoted, Lookup, LeavesOf;
    forall l | l in moved
      ensures Trusted(s.cas, l)
      ensures LeavesOf(s.leaves, from) <= budget ==> Trusted(Promoted(s.cas, next), l)
    {
      if l in s.leaves { assert Trusted(s.cas, l); }
      if LeavesOf(s.leaves, from) <= budget { PromotionTrust(s, next, l); }
    }
  }

  lemma ActivationSound(s: State, id: nat, confirmed: bool, budget: nat)
    requires Sound(s)
    ensures Sound(Activate(s, id, confirmed, budget))
  {
    LookupHas(s.cas, id);
    var found := Lookup(s.cas, id);
    if found.Some? && found.value.status == Staged && confirmed {
      var next := found.value;
      var from := next.rotates.value;
      PromotionLineage(s, next);
      hide Promoted, Resigned, LeavesOf;
      if Lookup(s.cas, from).None? {
        forall l | l in s.leaves ensures Trusted(Promoted(s.cas, next), l) { PromotionTrust(s, next, l); }
      } else {
        MovedTrusted(s, next, from, budget);
      }
    }
  }

  /** A leaf that is not the incumbent's stays trusted through promotion. */
  lemma PromotionTrust(s: State, next: CA, l: Leaf)
    requires (forall a, b :: a in s.cas && b in s.cas && a.id == b.id ==> a == b)
    requires next in s.cas && next.status == Staged && Trusted(s.cas, l)
    requires l.ca.Some? ==> l.ca != next.rotates || Lookup(s.cas, l.ca.value).None?
    ensures Trusted(Promoted(s.cas, next), l)
  {
    PromotedHas(s.cas, next);
    if l.ca.Some? {
      LookupHas(s.cas, l.ca.value);
      var a :| a in s.cas && a.id == l.ca.value && a.status != Retired;
      assert Promote(a, next) in Promoted(s.cas, next);
    }
  }

  lemma DeletionSound(s: State, id: nat)
    requires Sound(s)
    ensures Sound(Delete(s, id))
  {
    forall x ensures x in Without(s.cas, id) <==> x in s.cas && x.id != id { WithoutHas(s.cas, id, x); }
    if !InUse(s, id) {
      forall l | l in s.leaves ensures Trusted(Without(s.cas, id), l) {
        NotItsLeaf(s.leaves, id, l);
        if l.ca.Some? {
          var a :| a in s.cas && a.id == l.ca.value && a.status != Retired;
          assert a in Without(s.cas, id);
        }
      }
    }
  }

  lemma {:induction false} NotItsLeaf(leaves: seq<Leaf>, id: nat, l: Leaf)
    requires LeavesOf(leaves, id) == 0 && l in leaves
    ensures l.ca != Some(id)
  {
    if leaves[0] != l { NotItsLeaf(leaves[1..], id, l); }
  }

  /** Issuing keeps the invariant exactly when it is not from a retired authority. */
  lemma IssuingExactly(s: State, ca: nat)
    requires Sound(s)
    ensures Sound(Issue(s, ca)) <==> !FromRetired(s, Issuing(ca))
  {
    LookupHas(s.cas, ca);
    var t := Issue(s, ca);
    if t != s {
      assert t.leaves[|s.leaves|] == Leaf(s.next, Some(ca), ca);
      assert Leaf(s.next, Some(ca), ca) in t.leaves;
      assert forall l :: l in t.leaves <==> l in s.leaves || l == Leaf(s.next, Some(ca), ca);
    }
  }

  lemma StepSound(s: State, e: Event)
    requires Sound(s)
    ensures Sound(Step(s, e)) <==> !FromRetired(s, e)
  {
    hide Sound, Stage, Activate, Delete, Issue;
    match e
    case Adding(canSign, at) => AddingSound(s, canSign, at);
    case Staging(id, overlap, at) => StagingSound(s, id, overlap, at);
    case Activation(id, confirmed, budget) => ActivationSound(s, id, confirmed, budget);
    case Deletion(id) => DeletionSound(s, id);
    case Issuing(ca) => IssuingExactly(s, ca);
    case _ => LeafStepSound(s, e);
  }

  lemma LeafStepSound(s: State, e: Event)
    requires Sound(s) && (e.Uploading? || e.Renewal? || e.Removal? || e.Selecting?)
    ensures Sound(Step(s, e))
  {
    var t := Step(s, e);
    if e.Renewal? && e.leaf < |s.leaves| && s.leaves[e.leaf].ca.Some? {
      LookupHas(s.cas, s.leaves[e.leaf].ca.value);
      assert s.leaves[e.leaf] in s.leaves;
      assert t == s;
    }
    forall l | l in t.leaves ensures Trusted(t.cas, l) {
      if e.Uploading? { assert l in s.leaves || l.ca.None?; } else { assert l in s.leaves; }
    }
  }

  // ── trust continuity ────────────────────────────────────────────────────────────────

  function Run(s: State, events: seq<Event>): State
    decreases events
  {
    if events == [] then s else Run(Step(s, events[0]), events[1..])
  }

  /** No leaf is ever issued from a retired authority. */
  predicate Prudent(s: State, events: seq<Event>)
    decreases events
  {
    events == [] || (!FromRetired(s, events[0]) && Prudent(Step(s, events[0]), events[1..]))
  }

  lemma {:induction false} InBundle(all: seq<CA>, cas: seq<CA>, sel: seq<nat>, now: int, id: nat)
    ensures id in Picked(all, cas, sel, now)
            <==> exists a :: a in cas && a.id == id && Wanted(all, sel, a) && Carried(a, now)
    decreases cas
  {
    hide Wanted, Carried;
    if cas != [] {
      InBundle(all, cas[1..], sel, now, id);
      assert cas == [cas[0]] + cas[1..];
    }
  }

  /** Trust continuity: in every reachable state, a re-signing stopped at any leaf included,
      every issued leaf's signer is an active or staged authority, and so is among the roots
      the full bundle carries at any time. */
  lemma {:induction false} TrustContinuity(s: State, events: seq<Event>, now: int)
    requires Sound(s) && Prudent(s, events)
    ensures var t := Run(s, events);
      && Sound(t)
      && forall l :: l in t.leaves && l.ca.Some? ==> l.signer in Bundle(t.cas, [], now)
    decreases events
  {
    hide Sound, Step, FromRetired;
    if events != [] {
      StepSound(s, events[0]);
      TrustContinuity(Step(s, events[0]), events[1..], now);
    } else {
      LeavesInBundle(s, now);
    }
  }

  lemma LeavesInBundle(s: State, now: int)
    requires Sound(s)
    ensures forall l :: l in s.leaves && l.ca.Some? ==> l.signer in Bundle(s.cas, [], now)
  {
    forall l | l in s.leaves && l.ca.Some? ensures l.signer in Bundle(s.cas, [], now) {
      assert Trusted(s.cas, l);
      InBundle(s.cas, s.cas, [], now, l.signer);
    }
  }

  lemma StartIsSound()
    ensures Sound(State([], [], [], 0))
  {
  }

  /** Each authority has at most one staged successor, and a staged authority's incumbent is
      active or gone. */
  lemma OneSuccessor(s: State, a: CA, b: CA)
    requires Sound(s) && a in s.cas && a.status == Staged
    ensures a.rotates.Some?
    ensures b in s.cas && b.status == Staged && b.rotates == a.rotates ==> a == b
    ensures Lookup(s.cas, a.rotates.value).Some? ==> Lookup(s.cas, a.rotates.value).value.status == Active
  {
    LookupHas(s.cas, a.rotates.value);
  }

  // ── what activation does to a bundle ────────────────────────────────────────────────

  /** The incumbent's own predecessor, still carried and selected only through the incumbent. */
  ghost predicate DropsPredecessor(cas: seq<CA>, incumbent: CA, sel: seq<nat>, now: int) {
    incumbent.id in sel && exists p :: p in cas && incumbent.rotates == Some(p.id) && Carried(p, now) && p.id !in sel
  }

  lemma SwappedHas(sel: seq<nat>, from: nat, to: nat, x: nat)
    ensures x in Swapped(sel, from, to) <==> (x in sel && x != from) || (x == to && from in sel)
  {
    var r := Swapped(sel, from, to);
    forall i | 0 <= i < |sel| ensures r[i] in r && sel[i] in sel { }
    if x in sel && x != from { var i :| 0 <= i < |sel| && sel[i] == x; assert r[i] == x; }
    if x == to && from in sel { var i :| 0 <= i < |sel| && sel[i] == from; assert r[i] == x; }
  }

  /** Some selected authority replaced this one. */
  ghost predicate Pointed(cas: seq<CA>, sel: seq<nat>, id: nat) {
    exists b :: b in cas && b.id in sel && b.rotates == Some(id)
  }

  lemma WantedIs(cas: seq<CA>, sel: seq<nat>, a: CA)
    ensures Wanted(cas, sel, a) <==>
            sel == [] || a.id in sel || (a.rotates.Some? && a.status == Staged && a.rotates.value in sel)
              || Pointed(cas, sel, a.id)
  {
    if Pointed(cas, sel, a.id) {
      var b :| b in cas && b.id in sel && b.rotates == Some(a.id);
      var i :| 0 <= i < |cas| && cas[i] == b;
    }
  }

  ghost predicate Rotating(s: State, next: CA, incumbent: CA) {
    Lineage(s) && next in s.cas && next.status == Staged && incumbent in s.cas && next.rotates == Some(incumbent.id)
  }

  lemma PointedAfter(s: State, next: CA, incumbent: CA, sel: seq<nat>, id: nat)
    requires Rotating(s, next, incumbent)
    ensures Pointed(Promoted(s.cas, next), Swapped(sel, incumbent.id, next.id), id) <==>
            (exists b :: b in s.cas && b != incumbent && b.id in sel && b.rotates == Some(id))
            || (incumbent.id in sel && id == incumbent.id)
  {
    var cas', sel' := Promoted(s.cas, next), Swapped(sel, incumbent.id, next.id);
    PromotedHas(s.cas, next);
    forall x: nat ensures x in sel' <==> (x in sel && x != incumbent.id) || (x == next.id && incumbent.id in sel) {
      SwappedHas(sel, incumbent.id, next.id, x);
    }
    if b :| b in s.cas && b != incumbent && b.id in sel && b.rotates == Some(id) {
      assert Promote(b, next) in cas';
    }
    if incumbent.id in sel && id == incumbent.id { assert Promote(next, next) in cas'; }
    if Pointed(cas', sel', id) {
      var x :| x in cas' && x.id in sel' && x.rotates == Some(id);
      var b :| b in s.cas && x == Promote(b, next);
      assert b.id == next.id ==> b == next;
    }
  }

  /** The incumbent, the successor, and anyone else, before and after. */
  lemma WantedAfter(s: State, next: CA, incumbent: CA, sel: seq<nat>, now: int, a: CA)
    requires Rotating(s, next, incumbent) && a in s.cas && now < next.overlap && sel != []
    ensures var cas', sel' := Promoted(s.cas, next), Swapped(sel, incumbent.id, next.id);
      (Wanted(cas', sel', Promote(a, next)) && Carried(Promote(a, next), now))
      <==> (Wanted(s.cas, sel, a) && Carried(a, now)
            && !(incumbent.id in sel && incumbent.rotates == Some(a.id) && a.id !in sel))
  {
    var cas', sel' := Promoted(s.cas, next), Swapped(sel, incumbent.id, next.id);
    var a' := Promote(a, next);
    PointedAfter(s, next, incumbent, sel, a.id);
    WantedIs(s.cas, sel, a);
    WantedIs(cas', sel', a');
    SwappedHas(sel, incumbent.id, next.id, a.id);
    if a.rotates.Some? { SwappedHas(sel, incumbent.id, next.id, a.rotates.value); }
    hide Wanted, Promoted, Swapped;
    if a == incumbent {
      assert Pointed(s.cas, sel, a.id) <==> next.id in sel;
    } else if a == next {
      assert !Pointed(s.cas, sel, a.id);
    } else if incumbent.rotates == Some(a.id) {
      assert Pointed(s.cas, sel, a.id) <==> incumbent.id in sel;
    }
  }

  lemma {:induction false} PickedAlike(all: seq<CA>, cas: seq<CA>, all': seq<CA>, cas': seq<CA>, sel: seq<nat>,
                                       sel': seq<nat>, now: int)
    requires |cas| == |cas'| && forall i :: 0 <= i < |cas| ==> cas'[i].id == cas[i].id
    requires forall i :: 0 <= i < |cas| ==>
      (Wanted(all, sel, cas[i]) && Carried(cas[i], now) <==> Wanted(all', sel', cas'[i]) && Carried(cas'[i], now))
    ensures Picked(all', cas', sel', now) == Picked(all, cas, sel, now)
    decreases cas
  {
    hide Wanted, Carried;
    if cas != [] {
      assert cas[0].id == cas'[0].id;
      forall i | 0 <= i < |cas[1..]|
        ensures cas'[1..][i].id == cas[1..][i].id
        ensures Wanted(all, sel, cas[1..][i]) && Carried(cas[1..][i], now)
                <==> Wanted(all', sel', cas'[1..][i]) && Carried(cas'[1..][i], now)
      {
        assert cas[1..][i] == cas[i + 1] && cas'[1..][i] == cas'[i + 1];
      }
      PickedAlike(all, cas[1..], all', cas'[1..], sel, sel', now);
    }
  }

  /** Activation preserves a bundle, selected or full: at any instant before the overlap
      deadline, the roots after substituting the successor for the incumbent are those before,
      exactly when the selection does not reach, through the incumbent alone, a predecessor
      that is still in its own overlap. */
  lemma ActivationPreserves(s: State, next: CA, incumbent: CA, sel: seq<nat>, now: int)
    requires Rotating(s, next, incumbent) && now < next.overlap
    ensures Bundle(Promoted(s.cas, next), Swapped(sel, incumbent.id, next.id), now) == Bundle(s.cas, sel, now)
            <==> !DropsPredecessor(s.cas, incumbent, sel, now)
  {
    var cas', sel' := Promoted(s.cas, next), Swapped(sel, incumbent.id, next.id);
    if sel == [] {
      assert sel' == [];
      forall i | 0 <= i < |s.cas|
        ensures Carried(s.cas[i], now) && Wanted(s.cas, sel, s.cas[i])
                <==> Carried(cas'[i], now) && Wanted(cas', sel', cas'[i])
      {
        assert s.cas[i] in s.cas && cas'[i] == Promote(s.cas[i], next);
      }
      PickedAlike(s.cas, s.cas, cas', cas', sel, sel', now);
    } else if DropsPredecessor(s.cas, incumbent, sel, now) {
      var p :| p in s.cas && incumbent.rotates == Some(p.id) && Carried(p, now) && p.id !in sel;
      PredecessorLost(s, next, incumbent, sel, now, p);
    } else {
      forall i | 0 <= i < |s.cas|
        ensures Wanted(s.cas, sel, s.cas[i]) && Carried(s.cas[i], now)
                <==> Wanted(cas', sel', cas'[i]) && Carried(cas'[i], now)
      {
        WantedAfter(s, next, incumbent, sel, now, s.cas[i]);
        assert cas'[i] == Promote(s.cas[i], next);
      }
      hide Wanted, Carried;
      PickedAlike(s.cas, s.cas, cas', cas', sel, sel', now);
    }
  }

  lemma PromotedOnly(s: State, next: CA, p: CA)
    requires Lineage(s) && p in s.cas
    ensures forall x :: x in Promoted(s.cas, next) && x.id == p.id ==> x == Promote(p, next)
  {
    PromotedHas(s.cas, next);
    forall x | x in Promoted(s.cas, next) && x.id == p.id ensures x == Promote(p, next) {
      var b :| b in s.cas && x == Promote(b, next);
      assert b.id == p.id;
    }
  }

  lemma PredecessorLost(s: State, next: CA, incumbent: CA, sel: seq<nat>, now: int, p: CA)
    requires Rotating(s, next, incumbent) && now < next.overlap && sel != []
    requires incumbent.id in sel && p in s.cas && incumbent.rotates == Some(p.id) && Carried(p, now) && p.id !in sel
    ensures p.id in Bundle(s.cas, sel, now)
    ensures p.id !in Bundle(Promoted(s.cas, next), Swapped(sel, incumbent.id, next.id), now)
  {
    var cas', sel' := Promoted(s.cas, next), Swapped(sel, incumbent.id, next.id);
    WantedIs(s.cas, sel, p);
    assert Wanted(s.cas, sel, p) by { assert Pointed(s.cas, sel, p.id); }
    PromotedOnly(s, next, p);
    WantedAfter(s, next, incumbent, sel, now, p);
    hide Wanted, Carried, Promoted, Swapped, Picked, Rotating;
    InBundle(s.cas, s.cas, sel, now, p.id);
    InBundle(cas', cas', sel', now, p.id);
  }

  /** The same through the handler: once every leaf has moved, each delivery's own selection
      follows the lineage. */
  lemma HandlerPreserves(s: State, id: nat, budget: nat, i: nat, now: int)
    requires Sound(s) && i < |s.bundles|
    requires Lookup(s.cas, id).Some? && Lookup(s.cas, id).value.status == Staged
             && now < Lookup(s.cas, id).value.overlap
    requires Lookup(s.cas, id).value.rotates.Some? && Lookup(s.cas, Lookup(s.cas, id).value.rotates.value).Some?
    requires LeavesOf(s.leaves, Lookup(s.cas, id).value.rotates.value) <= budget
    ensures var t := Activate(s, id, true, budget);
      var incumbent := Lookup(s.cas, Lookup(s.cas, id).value.rotates.value).value;
      Bundle(t.cas, t.bundles[i], now) == Bundle(s.cas, s.bundles[i], now)
      <==> !DropsPredecessor(s.cas, incumbent, s.bundles[i], now)
  {
    LookupHas(s.cas, id);
    var next := Lookup(s.cas, id).value;
    LookupHas(s.cas, next.rotates.value);
    hide Bundle, Promoted, Swapped, DropsPredecessor, Resigned;
    ActivationPreserves(s, next, Lookup(s.cas, next.rotates.value).value, s.bundles[i], now);
  }

  lemma {:induction false} AllMoved(leaves: seq<Leaf>, from: nat, to: nat, budget: nat)
    requires LeavesOf(leaves, from) <= budget && from != to
    ensures var r := Resigned(leaves, from, to, budget);
      |r| == |leaves| && forall i :: 0 <= i < |r| ==>
        r[i] == if leaves[i].ca == Some(from) then leaves[i].(ca := Some(to), signer := to) else leaves[i]
    decreases leaves
  {
    if leaves != [] {
      var mine := leaves[0].ca == Some(from);
      AllMoved(leaves[1..], from, to, if mine then budget - 1 else budget);
    }
  }

  /** A confirmed activation that reaches every leaf: each of the incumbent's leaves is now the
      successor's, the successor is active, and the incumbent retired until the announced end of
      the overlap. */
  lemma ActivationCompletes(s: State, id: nat, budget: nat, i: nat)
    requires Sound(s) && Lookup(s.cas, id).Some? && Lookup(s.cas, id).value.status == Staged
             && Lookup(s.cas, id).value.rotates.Some?
    requires Lookup(s.cas, Lookup(s.cas, id).value.rotates.value).Some?
    requires LeavesOf(s.leaves, Lookup(s.cas, id).value.rotates.value) <= budget && i < |s.leaves|
    ensures var t := Activate(s, id, true, budget); var next := Lookup(s.cas, id).value; var from := next.rotates.value;
      && |t.leaves| == |s.leaves|
      && t.leaves[i] == (if s.leaves[i].ca == Some(from) then s.leaves[i].(ca := Some(id), signer := id)
                         else s.leaves[i])
      && Lookup(t.cas, id) == Some(next.(status := Active))
      && Lookup(t.cas, from) == Some(Lookup(s.cas, from).value.(status := Retired, overlap := next.overlap))
  {
    LookupHas(s.cas, id);
    var next := Lookup(s.cas, id).value;
    var from := next.rotates.value;
    LookupHas(s.cas, from);
    AllMoved(s.leaves, from, id, budget);
    PromotedLookup(s.cas, next, id);
    PromotedLookup(s.cas, next, from);
  }

  lemma {:induction false} PromotedLookup(cas: seq<CA>, next: CA, id: nat)
    ensures Lookup(Promoted(cas, next), id) ==
            match Lookup(cas, id) case None => None case Some(a) => Some(Promote(a, next))
  {
    if cas != [] {
      assert Promoted(cas, next)[0] == Promote(cas[0], next) && Promoted(cas, next)[1..] == Promoted(cas[1..], next);
      PromotedLookup(cas[1..], next, id);
    }
  }

  // ── what a bundle holds, and until when ─────────────────────────────────────────────

  ghost predicate Unique(cas: seq<CA>) { forall a, b :: a in cas && b in cas && a.id == b.id ==> a == b }

  /** A root is in a bundle exactly when some authority of that id is listed that is not retired or
      still in its overlap, and that is selected: all are, it is itself, it is staged for one that is,
      or one that is has replaced it. */
  lemma BundleExactly(cas: seq<CA>, sel: seq<nat>, now: int, id: nat)
    ensures id in Bundle(cas, sel, now) <==>
            exists a :: a in cas && a.id == id && (a.status == Retired ==> now < a.overlap)
                        && (sel == [] || id in sel
                            || (a.status == Staged && a.rotates.Some? && a.rotates.value in sel)
                            || exists b :: b in cas && b.id in sel && b.rotates == Some(id))
  {
    InBundle(cas, cas, sel, now, id);
    forall a ensures Wanted(cas, sel, a) <==>
                     sel == [] || a.id in sel || (a.status == Staged && a.rotates.Some? && a.rotates.value in sel)
                       || exists b :: b in cas && b.id in sel && b.rotates == Some(a.id)
    {
      WantedIs(cas, sel, a);
    }
    hide Wanted;
  }

  predicate ListedAt(cas: seq<CA>, i: int, id: nat) { 0 <= i < |cas| && cas[i].id == id }

  ghost predicate Before(cas: seq<CA>, x: nat, y: nat) {
    exists i, j :: ListedAt(cas, i, x) && ListedAt(cas, j, y) && i < j
  }

  lemma BeforeOn(cas: seq<CA>, x: nat, y: nat)
    requires cas != [] && Before(cas[1..], x, y)
    ensures Before(cas, x, y)
  {
    var i, j :| ListedAt(cas[1..], i, x) && ListedAt(cas[1..], j, y) && i < j;
    assert ListedAt(cas, i + 1, x) && ListedAt(cas, j + 1, y);
  }

  /** Roots come in the order the authorities are listed in, each as often as it is listed. */
  lemma {:induction false} BundleOrdered(all: seq<CA>, cas: seq<CA>, sel: seq<nat>, now: int, p: nat, q: nat)
    requires p < q < |Picked(all, cas, sel, now)|
    ensures Before(cas, Picked(all, cas, sel, now)[p], Picked(all, cas, sel, now)[q])
    decreases cas
  {
    hide Wanted, Carried, Before;
    var r, rest := Picked(all, cas, sel, now), Picked(all, cas[1..], sel, now);
    if |r| == |rest| {
      BundleOrdered(all, cas[1..], sel, now, p, q);
      BeforeOn(cas, r[p], r[q]);
    } else if p > 0 {
      BundleOrdered(all, cas[1..], sel, now, p - 1, q - 1);
      BeforeOn(cas, r[p], r[q]);
    } else {
      InBundle(all, cas[1..], sel, now, r[q]);
      assert rest[q - 1] == r[q];
      var a :| a in cas[1..] && a.id == r[q];
      var j :| 0 <= j < |cas[1..]| && cas[1..][j] == a;
      HeadBefore(cas, r[0], r[q], j + 1);
    }
  }

  lemma HeadBefore(cas: seq<CA>, x: nat, y: nat, j: nat)
    requires cas != [] && cas[0].id == x && 0 < j && ListedAt(cas, j, y)
    ensures Before(cas, x, y)
  {
    assert ListedAt(cas, 0, x);
  }

  /** A retired root leaves every bundle when its overlap ends. */
  lemma RetiredLeaves(cas: seq<CA>, sel: seq<nat>, now: int, a: CA)
    requires Unique(cas) && a in cas && a.status == Retired && now >= a.overlap
    ensures a.id !in Bundle(cas, sel, now)
  {
    BundleExactly(cas, sel, now, a.id);
  }

  /** After an activation that completes, the incumbent is carried by the full bundle up to the deadline
      its successor was staged with, and from then on by none. */
  lemma IncumbentLeaves(s: State, id: nat, budget: nat, sel: seq<nat>, now: int)
    requires Sound(s) && Lookup(s.cas, id).Some? && Lookup(s.cas, id).value.status == Staged
             && Lookup(s.cas, id).value.rotates.Some?
    requires Lookup(s.cas, Lookup(s.cas, id).value.rotates.value).Some?
    requires LeavesOf(s.leaves, Lookup(s.cas, id).value.rotates.value) <= budget
    ensures var t := Activate(s, id, true, budget);
      var deadline, from := Lookup(s.cas, id).value.overlap, Lookup(s.cas, id).value.rotates.value;
      && (from in Bundle(t.cas, [], now) <==> now < deadline)
      && (now >= deadline ==> from !in Bundle(t.cas, sel, now))
      && id in Bundle(t.cas, [], now)
  {
    var t := Activate(s, id, true, budget);
    LookupHas(s.cas, id);
    var next := Lookup(s.cas, id).value;
    var from := next.rotates.value;
    LookupHas(s.cas, from);
    ActivationSound(s, id, true, budget);
    PromotedLookup(s.cas, next, id);
    PromotedLookup(s.cas, next, from);
    hide Promoted, Resigned, LeavesOf, AllSwapped, Picked, Bundle;
    LookupHas(t.cas, id);
    LookupHas(t.cas, from);
    var was := Lookup(t.cas, from).value;
    assert was.status == Retired && was.overlap == next.overlap;
    assert Lookup(t.cas, id).value.status == Active;
    BundleExactly(t.cas, [], now, from);
    BundleExactly(t.cas, [], now, id);
    if now >= next.overlap { RetiredLeaves(t.cas, sel, now, was); }
  }

  // ── what the other handlers add and remove ──────────────────────────────────────────

  /** Staging adds one authority, able to sign and trusted from then on, exactly when the incumbent is
      active and has no successor staged; and it changes nothing else. */
  lemma StagingExactly(s: State, id: nat, overlap: int, at: nat, x: CA)
    requires Sound(s)
    ensures var t := Stage(s, id, overlap, at);
      var may := (exists a :: a in s.cas && a.id == id && a.status == Active)
                 && forall b :: b in s.cas && b.status == Staged ==> b.rotates != Some(id);
      && (x in t.cas <==> x in s.cas || (may && x == CA(s.next, Staged, Some(id), overlap, true)))
      && t.leaves == s.leaves && t.bundles == s.bundles && t.next == s.next + if may then 1 else 0
  {
    LookupHas(s.cas, id);
    var ca := CA(s.next, Staged, Some(id), overlap, true);
    PlacedHas(s.cas, ca, at, x);
    if HasStaged(s.cas, id) {
      var i :| 0 <= i < |s.cas| && s.cas[i].status == Staged && s.cas[i].rotates == Some(id);
      assert s.cas[i] in s.cas;
    }
    hide Placed;
  }

  /** A rotation from beginning to end, with nothing done in between: every leaf of the incumbent is the
      successor's, and the incumbent is trusted up to the deadline it was given and no longer. */
  lemma RotatesThrough(s: State, id: nat, overlap: int, at: nat, budget: nat, i: nat, now: int)
    requires Sound(s) && Lookup(s.cas, id).Some? && Lookup(s.cas, id).value.status == Active
    requires forall b :: b in s.cas && b.status == Staged ==> b.rotates != Some(id)
    requires LeavesOf(s.leaves, id) <= budget && i < |s.leaves|
    ensures var t := Activate(Stage(s, id, overlap, at), s.next, true, budget);
      && |t.leaves| == |s.leaves|
      && t.leaves[i] == (if s.leaves[i].ca == Some(id) then s.leaves[i].(ca := Some(s.next), signer := s.next)
                         else s.leaves[i])
      && (id in Bundle(t.cas, [], now) <==> now < overlap) && s.next in Bundle(t.cas, [], now)
  {
    var m := Stage(s, id, overlap, at);
    var ca := CA(s.next, Staged, Some(id), overlap, true);
    LookupHas(s.cas, id);
    var incumbent := Lookup(s.cas, id).value;
    StagingSound(s, id, overlap, at);
    StagingExactly(s, id, overlap, at, ca);
    StagingExactly(s, id, overlap, at, incumbent);
    LookupHas(m.cas, s.next);
    LookupHas(m.cas, id);
    hide Stage, Activate, Picked, Bundle, LeavesOf;
    assert Lookup(m.cas, s.next) == Some(ca) && Lookup(m.cas, id) == Some(incumbent);
    ActivationCompletes(m, s.next, budget, i);
    IncumbentLeaves(m, s.next, budget, [], now);
  }

  /** An authority goes exactly when no leaf is its and no delivery selects it; nothing else goes. */
  lemma DeletionExactly(s: State, id: nat, x: CA)
    ensures var t := Delete(s, id);
      && (x in t.cas <==> x in s.cas && (x.id == id ==> (exists l :: l in s.leaves && l.ca == Some(id))
                                                        || exists b :: b in s.bundles && id in b))
      && t == s.(cas := t.cas)
  {
    LookupHas(s.cas, id);
    WithoutHas(s.cas, id, x);
    OwnLeaf(s.leaves, id);
    if InUse(s, id) && LeavesOf(s.leaves, id) == 0 {
      var i :| 0 <= i < |s.bundles| && id in s.bundles[i];
      assert s.bundles[i] in s.bundles;
    }
  }

  lemma {:induction false} OwnLeaf(leaves: seq<Leaf>, id: nat)
    ensures LeavesOf(leaves, id) > 0 <==> exists l :: l in leaves && l.ca == Some(id)
  {
    if leaves != [] {
      OwnLeaf(leaves[1..], id);
      assert leaves == [leaves[0]] + leaves[1..];
    }
  }

  /** A new authority is active, trusted from then on, and nobody's successor; nothing else changes. */
  lemma AddingExactly(s: State, canSign: bool, at: nat, now: int, x: CA)
    ensures var t, ca := Add(s, canSign, at), CA(s.next, Active, None, 0, canSign);
      && (x in t.cas <==> x in s.cas || x == ca) && s.next in Bundle(t.cas, [], now)
      && t == s.(cas := t.cas, next := s.next + 1)
  {
    var t, ca := Add(s, canSign, at), CA(s.next, Active, None, 0, canSign);
    PlacedHas(s.cas, ca, at, x);
    PlacedHas(s.cas, ca, at, ca);
    BundleExactly(t.cas, [], now, s.next);
    hide Placed, Bundle;
  }

  /** Removing a leaf takes it off the list, and no other. */
  lemma RemovalExactly(s: State, i: nat)
    ensures var t := Remove(s, i);
      if i < |s.leaves|
      then t == s.(leaves := t.leaves) && multiset(t.leaves) == multiset(s.leaves) - multiset{s.leaves[i]}
      else t == s
  {
    if i < |s.leaves| { assert s.leaves == s.leaves[..i] + [s.leaves[i]] + s.leaves[i + 1..]; }
  }

  /** A leaf is issued exactly when its authority is there and can sign, and is signed by it. */
  lemma IssueExactly(s: State, ca: nat)
    requires Sound(s)
    ensures var may := exists a :: a in s.cas && a.id == ca && a.canSign;
      Issue(s, ca) == if may then s.(leaves := s.leaves + [Leaf(s.next, Some(ca), ca)], next := s.next + 1) else s
  {
    LookupHas(s.cas, ca);
  }

  lemma {:induction false} ResignedCount(leaves: seq<Leaf>, from: nat, to: nat, budget: nat)
    requires from != to
    ensures var r := Resigned(leaves, from, to, budget);
      && |r| == |leaves|
      && LeavesOf(r, from) == (if budget < LeavesOf(leaves, from) then LeavesOf(leaves, from) - budget else 0)
      && forall i :: 0 <= i < |r| ==>
           r[i] == leaves[i] || (leaves[i].ca == Some(from) && r[i] == leaves[i].(ca := Some(to), signer := to))
    decreases leaves
  {
    if leaves != [] && !(leaves[0].ca == Some(from) && budget == 0) {
      ResignedCount(leaves[1..], from, to, if leaves[0].ca == Some(from) then budget - 1 else budget);
    }
  }

  /** An activation does nothing unless it is confirmed and of a staged authority. Stopped at a leaf, it
      has moved as many as it could and nothing else. With the incumbent gone it only promotes. */
  lemma ActivationStops(s: State, id: nat, confirmed: bool, budget: nat)
    requires Sound(s)
    ensures var t := Activate(s, id, confirmed, budget); var next := Lookup(s.cas, id);
      if next.None? || next.value.status != Staged || !confirmed then t == s
      else
        && next.value.rotates.Some?
        && var from := next.value.rotates.value;
        && (Lookup(s.cas, from).None? ==>
              && t == s.(cas := t.cas) && |t.cas| == |s.cas|
              && forall i :: 0 <= i < |t.cas| ==>
                   t.cas[i] == if s.cas[i].id == id then s.cas[i].(status := Active) else s.cas[i])
        && (Lookup(s.cas, from).Some? && budget < LeavesOf(s.leaves, from) ==>
              && t == s.(leaves := t.leaves) && |t.leaves| == |s.leaves|
              && LeavesOf(t.leaves, from) == LeavesOf(s.leaves, from) - budget
              && forall i :: 0 <= i < |t.leaves| && t.leaves[i] != s.leaves[i] ==>
                   s.leaves[i].ca == Some(from) && t.leaves[i] == s.leaves[i].(ca := Some(id), signer := id))
  {
    LookupHas(s.cas, id);
    var next := Lookup(s.cas, id);
    if next.Some? && next.value.status == Staged {
      var from := next.value.rotates.value;
      LookupHas(s.cas, from);
      ResignedCount(s.leaves, from, id, budget);
      hide LeavesOf, Resigned;
    }
  }
}
