/** Rotating a certificate authority in two phases: stage a successor, then re-sign every leaf
    and promote it. */
module Rotation {
  import opened Wrappers

  datatype Status = Active | Staged | Retired

  /** rotates names the authority this one was staged to replace; it is kept after activation. */
  datatype CA = CA(id: nat, status: Status, rotates: Option<nat>, overlap: int, canSign: bool)

  /** ca is the recorded issuer, empty for an upload; signer is whose key made the signature. */
  datatype Leaf = Leaf(id: nat, ca: Option<nat>, signer: nat)

  /** Authorities and leaves in the order the store lists them, the bundle selection of every
      delivery, and the supply of ids. */
  datatype State = State(cas: seq<CA>, leaves: seq<Leaf>, bundles: seq<seq<nat>>, next: nat)

  function Lookup(cas: seq<CA>, id: nat): Option<CA> {
    if cas == [] then None else if cas[0].id == id then Some(cas[0]) else Lookup(cas[1..], id)
  }

  // ── what each handler does ──────────────────────────────────────────────────────────

  predicate HasStaged(cas: seq<CA>, id: nat) {
    exists i :: 0 <= i < |cas| && cas[i].status == Staged && cas[i].rotates == Some(id)
  }

  predicate MayRotate(s: State, id: nat) {
    var ca := Lookup(s.cas, id);
    ca.Some? && ca.value.status == Active && !HasStaged(s.cas, id)
  }

  /** Where a new authority is listed depends on its name. */
  function Placed(cas: seq<CA>, ca: CA, at: nat): seq<CA> {
    if at <= |cas| then cas[..at] + [ca] + cas[at..] else cas + [ca]
  }

  function Stage(s: State, id: nat, overlap: int, at: nat): State {
    if !MayRotate(s, id) then s
    else s.(cas := Placed(s.cas, CA(s.next, Staged, Some(id), overlap, true), at), next := s.next + 1)
  }

  function Add(s: State, canSign: bool, at: nat): State {
    s.(cas := Placed(s.cas, CA(s.next, Active, None, 0, canSign), at), next := s.next + 1)
  }

  /** Moving the leaves of one authority to another, as far as the budget goes. */
  function Resigned(leaves: seq<Leaf>, from: nat, to: nat, budget: nat): seq<Leaf>
    decreases leaves
  {
    if leaves == [] then []
    else if leaves[0].ca != Some(from) then [leaves[0]] + Resigned(leaves[1..], from, to, budget)
    else if budget == 0 then leaves
    else [leaves[0].(ca := Some(to), signer := to)] + Resigned(leaves[1..], from, to, budget - 1)
  }

  function LeavesOf(leaves: seq<Leaf>, ca: nat): nat {
    if leaves == [] then 0 else (if leaves[0].ca == Some(ca) then 1 else 0) + LeavesOf(leaves[1..], ca)
  }

  function Promoted(cas: seq<CA>, next: CA): seq<CA> {
    seq(|cas|, i requires 0 <= i < |cas| =>
      if cas[i].id == next.id then cas[i].(status := Active)
      else if next.rotates == Some(cas[i].id) then cas[i].(status := Retired, overlap := next.overlap)
      else cas[i])
  }

  function Swapped(sel: seq<nat>, from: nat, to: nat): seq<nat> {
    seq(|sel|, i requires 0 <= i < |sel| => if sel[i] == from then to else sel[i])
  }

  function AllSwapped(bundles: seq<seq<nat>>, from: nat, to: nat): seq<seq<nat>> {
    seq(|bundles|, i requires 0 <= i < |bundles| => Swapped(bundles[i], from, to))
  }

  /** Activation: leaves first, and only when every one has moved the promotion. */
  function Activate(s: State, id: nat, confirmed: bool, budget: nat): State {
    var found := Lookup(s.cas, id);
    if found.None? || found.value.status != Staged || !confirmed then s
    else
      var next := found.value;
      if next.rotates.None? || Lookup(s.cas, next.rotates.value).None? then s.(cas := Promoted(s.cas, next))
      else
        var from := next.rotates.value;
        var moved := s.(leaves := Resigned(s.leaves, from, id, budget));
        if budget < LeavesOf(s.leaves, from) then moved
        else moved.(cas := Promoted(s.cas, next), bundles := AllSwapped(s.bundles, from, id))
  }

  predicate InUse(s: State, id: nat) {
    LeavesOf(s.leaves, id) > 0 || exists i :: 0 <= i < |s.bundles| && id in s.bundles[i]
  }

  function Without(cas: seq<CA>, id: nat): seq<CA> {
    if cas == [] then [] else (if cas[0].id == id then [] else [cas[0]]) + Without(cas[1..], id)
  }

  function Delete(s: State, id: nat): State {
    if Lookup(s.cas, id).None? || InUse(s, id) then s else s.(cas := Without(s.cas, id))
  }

  /** Issuing asks only whether the authority can sign. */
  function Issue(s: State, ca: nat): State {
    var found := Lookup(s.cas, ca);
    if found.None? || !found.value.canSign then s
    else s.(leaves := s.leaves + [Leaf(s.next, Some(ca), ca)], next := s.next + 1)
  }

  /** Renewal signs again with the recorded issuer, when it is there and can. */
  function Renew(s: State, i: nat): State {
    if i >= |s.leaves| || s.leaves[i].ca.None? then s
    else
      var ca := Lookup(s.cas, s.leaves[i].ca.value);
      if ca.None? || !ca.value.canSign then s
      else s.(leaves := s.leaves[i := s.leaves[i].(signer := ca.value.id)])
  }

  function Remove(s: State, i: nat): State {
    if i >= |s.leaves| then s else s.(leaves := s.leaves[..i] + s.leaves[i + 1..])
  }

  // ── the trust bundle ────────────────────────────────────────────────────────────────

  predicate Wanted(cas: seq<CA>, sel: seq<nat>, ca: CA) {
    || sel == []
    || ca.id in sel
    || (ca.rotates.Some? && ca.status == Staged && ca.rotates.value in sel)
    || exists i :: 0 <= i < |cas| && cas[i].id in sel && cas[i].rotates == Some(ca.id)
  }

  predicate Carried(ca: CA, now: int) {
    ca.status != Retired || now < ca.overlap
  }

  /** The roots a client is told to trust, in listing order; an empty selection means all. */
  function Bundle(cas: seq<CA>, sel: seq<nat>, now: int): seq<nat> {
    Picked(cas, cas, sel, now)
  }

  function Picked(all: seq<CA>, cas: seq<CA>, sel: seq<nat>, now: int): seq<nat>
    decreases cas
  {
    if cas == [] then []
    else
      (if Wanted(all, sel, cas[0]) && Carried(cas[0], now) then [cas[0].id] else []) + Picked(all, cas[1..], sel, now)
  }

  // ── the server's form ───────────────────────────────────────────────────────────────

  class Authority {
    var cas: seq<CA>
    var leaves: seq<Leaf>
    var bundles: seq<seq<nat>>
    var next: nat

    constructor ()
      ensures Holds() == State([], [], [], 0)
    {
      cas, leaves, bundles, next := [], [], [], 0;
    }

    function Holds(): State reads this { State(cas, leaves, bundles, next) }

    method Find(id: nat) returns (ca: Option<CA>)
      ensures ca == Lookup(cas, id)
    {
      for i := 0 to |cas|
        invariant Lookup(cas, id) == Lookup(cas[i..], id)
      {
        if cas[i].id == id { return Some(cas[i]); }
      }
      ca := None;
    }

    /** Phase 1. */
    method RotateCA(id: nat, overlap: int, at: nat) returns (ok: bool)
      modifies this
      ensures Holds() == Stage(old(Holds()), id, overlap, at) && ok == MayRotate(old(Holds()), id)
    {
      var ca := Find(id);
      if ca.None? || ca.value.status != Active { return false; }
      for i := 0 to |cas|
        invariant forall j :: 0 <= j < i ==> cas[j].status != Staged || cas[j].rotates != Some(id)
      {
        if cas[i].status == Staged && cas[i].rotates == Some(id) { return false; }
      }
      cas, next := Placed(cas, CA(next, Staged, Some(id), overlap, true), at), next + 1;
      ok := true;
    }

    /** Moves leaves one at a time; the first that cannot be moved stops it. */
    method ResignLeaves(from: nat, to: nat, budget: nat) returns (ok: bool)
      modifies this`leaves
      ensures leaves == Resigned(old(leaves), from, to, budget) && ok == (LeavesOf(old(leaves), from) <= budget)
    {
      hide Resigned, LeavesOf;
      var left: nat, done: seq<Leaf> := budget, [];
      ResignNone(leaves, from, to);
      for i := 0 to |leaves|
        invariant leaves == old(leaves) && |done| == i && left <= budget
        invariant done + Resigned(leaves[i..], from, to, left) == Resigned(leaves, from, to, budget)
        invariant budget - left + LeavesOf(leaves[i..], from) == LeavesOf(leaves, from)
      {
        var c := leaves[i];
        ResignNext(leaves, i, from, to, left, done);
        if c.ca == Some(from) {
          if left == 0 {
            leaves := done + leaves[i..];
            return false;
          }
          left := left - 1;
          c := c.(ca := Some(to), signer := to);
        }
        done := done + [c];
      }
      leaves := done;
      ok := true;
    }

    /** Phase 2. */
    method ActivateCA(id: nat, confirmed: bool, budget: nat)
      modifies this
      ensures Holds() == Activate(old(Holds()), id, confirmed, budget)
    {
      hide Resigned, LeavesOf;
      var found := Find(id);
      if found.None? || found.value.status != Staged || !confirmed { return; }
      var successor := found.value;
      var incumbent: Option<CA> := None;
      if successor.rotates.Some? { incumbent := Find(successor.rotates.value); }
      if incumbent.Some? {
        LookupHas(cas, successor.rotates.value);
        var ok := ResignLeaves(incumbent.value.id, id, budget);
        if !ok { return; }
      }
      LookupHas(cas, id);
      cas := Promoted(cas, successor);
      if incumbent.Some? { bundles := AllSwapped(bundles, incumbent.value.id, id); }
    }

    /** Selected itself, staged for a selected root, or replaced by one. */
    method IsWanted(sel: seq<nat>, ca: CA) returns (yes: bool)
      ensures yes == Wanted(cas, sel, ca)
    {
      if sel == [] || ca.id in sel { return true; }
      if ca.rotates.Some? && ca.status == Staged && ca.rotates.value in sel { return true; }
      for j := 0 to |cas|
        invariant forall m :: 0 <= m < j ==> !(cas[m].id in sel && cas[m].rotates == Some(ca.id))
      {
        if cas[j].id in sel && cas[j].rotates == Some(ca.id) { return true; }
      }
      yes := false;
    }

    method TrustBundle(sel: seq<nat>, now: int) returns (roots: seq<nat>)
      ensures roots == Bundle(cas, sel, now)
    {
      hide Wanted, Picked;
      roots := [];
      PickedNone(cas, sel, now);
      for i := 0 to |cas|
        invariant roots + Picked(cas, cas[i..], sel, now) == Bundle(cas, sel, now)
      {
        PickedNext(cas, i, sel, now, roots);
        var wanted := IsWanted(sel, cas[i]);
        if wanted && (cas[i].status != Retired || now < cas[i].overlap) {
          roots := roots + [cas[i].id];
        }
      }
    }
  }

  lemma ResignNone(leaves: seq<Leaf>, from: nat, to: nat)
    ensures leaves[0..] == leaves && LeavesOf(leaves[|leaves|..], from) == 0
    ensures forall left: nat :: Resigned(leaves[|leaves|..], from, to, left) == []
  {
  }

  lemma ResignNext(leaves: seq<Leaf>, i: nat, from: nat, to: nat, left: nat, done: seq<Leaf>)
    requires i < |leaves|
    ensures LeavesOf(leaves[i..], from)
            == (if leaves[i].ca == Some(from) then 1 else 0) + LeavesOf(leaves[i + 1..], from)
    ensures done + Resigned(leaves[i..], from, to, left) ==
            if leaves[i].ca != Some(from) then done + [leaves[i]] + Resigned(leaves[i + 1..], from, to, left)
            else if left == 0 then done + leaves[i..]
            else done + [leaves[i].(ca := Some(to), signer := to)] + Resigned(leaves[i + 1..], from, to, left - 1)
  {
    assert leaves[i..][0] == leaves[i] && leaves[i..][1..] == leaves[i + 1..];
  }

  lemma PickedNext(cas: seq<CA>, i: nat, sel: seq<nat>, now: int, roots: seq<nat>)
    requires i < |cas|
    ensures roots + Picked(cas, cas[i..], sel, now) ==
            (if Wanted(cas, sel, cas[i]) && Carried(cas[i], now) then roots + [cas[i].id] else roots)
            + Picked(cas, cas[i + 1..], sel, now)
  {
    hide Wanted;
    assert cas[i..][0] == cas[i] && cas[i..][1..] == cas[i + 1..];
  }

  lemma PickedNone(cas: seq<CA>, sel: seq<nat>, now: int)
    ensures Picked(cas, cas[|cas|..], sel, now) == [] && cas[0..] == cas
  {
  }

  lemma {:induction false} LookupHas(cas: seq<CA>, id: nat)
    ensures Lookup(cas, id).Some? ==> Lookup(cas, id).value.id == id && Lookup(cas, id).value in cas
    ensures Lookup(cas, id).None? <==> forall i :: 0 <= i < |cas| ==> cas[i].id != id
  {
    if cas != [] { LookupHas(cas[1..], id); }
  }
}
