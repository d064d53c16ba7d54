/** The login limiter: failed attempts are counted per key in buckets that open with a failure
    and close a window later. */
module Limiter {

  datatype Bucket = Bucket(count: nat, until: int)

  type Attempts = map<string, Bucket>

  /** No bucket, or one whose last instant has passed: the next failure opens another. */
  predicate Closed(a: Attempts, key: string, now: int) {
    key !in a || now > a[key].until
  }

  predicate Admits(a: Attempts, max: int, key: string, now: int) {
    Closed(a, key, now) || a[key].count < max
  }

  /** A failure recorded now; the clock is read again, at later, when a bucket is opened. */
  function Failed(a: Attempts, window: nat, key: string, now: int, later: int): Attempts {
    if Closed(a, key, now) then a[key := Bucket(1, later + window)]
    else a[key := Bucket(a[key].count + 1, a[key].until)]
  }

  class Limiter {
    const max: int
    const window: nat
    var attempts: Attempts

    constructor (max: int, window: nat)
      ensures this.max == max && this.window == window && attempts == map[]
    {
      this.max, this.window, attempts := max, window, map[];
    }

    method Allow(key: string, now: int) returns (yes: bool)
      ensures yes == Admits(attempts, max, key, now)
    {
      if key !in attempts || now > attempts[key].until { return true; }
      yes := attempts[key].count < max;
    }

    method Fail(key: string, now: int, later: int)
      modifies this`attempts
      ensures attempts == Failed(old(attempts), window, key, now, later)
    {
      if key !in attempts || now > attempts[key].until {
        attempts := attempts[key := Bucket(1, later + window)];
        return;
      }
      var b := attempts[key];
      attempts := attempts[key := b.(count := b.count + 1)];
    }

    method Reset(key: string)
      modifies this`attempts
      ensures attempts == old(attempts) - {key}
    {
      attempts := attempts - {key};
    }
  }

  // ── traces ──────────────────────────────────────────────────────────────────────────

  datatype Op =
    | Ask(key: string, at: int)
    | Miss(key: string, at: int, later: int)
    | Clear(key: string, at: int)

  function Apply(a: Attempts, window: nat, op: Op): Attempts {
    match op
    case Ask(_, _) => a
    case Miss(k, at, later) => Failed(a, window, k, at, later)
    case Clear(k, _) => a - {k}
  }

  /** One client of one key: every recorded failure follows its own admitted question, the
      clock never runs back, and nobody resets the key. Other keys do as they like. */
  predicate Disciplined(a: Attempts, max: int, window: nat, key: string, admitted: bool, now: int, ops: seq<Op>)
    decreases ops
  {
    ops == [] ||
    var op := ops[0];
    && now <= op.at
    && (op.Miss? ==> op.at <= op.later)
    && (op.key == key ==> !op.Clear? && (op.Miss? ==> admitted))
    && Disciplined(Apply(a, window, op), max, window, key,
                   if op.key != key then admitted else op.Ask? && Admits(a, max, key, op.at),
                   if op.Miss? then op.later else op.at, ops[1..])
  }

  /** When the key's failures were recorded, in order. */
  function Hits(ops: seq<Op>, key: string): seq<int> {
    if ops == [] then []
    else (if ops[0].Miss? && ops[0].key == key then [ops[0].at] else []) + Hits(ops[1..], key)
  }

  function CountIn(hits: seq<int>, from: int, to: int): nat {
    if hits == [] then 0 else (if from <= hits[0] <= to then 1 else 0) + CountIn(hits[1..], from, to)
  }

  /** The limit in force: the first failure of a bucket is never refused. */
  function Most(max: int): nat { if max < 1 then 1 else max }

  // ── at most 2·max − 1 in any window ─────────────────────────────────────────────────

  /** Failures split into buckets: where each bucket starts, none longer than the limit, each
      starting more than a window after the one before. */
  ghost predicate Split(hits: seq<int>, starts: seq<nat>, max: int, window: nat) {
    && (hits == [] <==> starts == [])
    && (starts != [] ==> starts[0] == 0)
    && (forall i :: 0 <= i < |starts| ==> starts[i] < |hits|)
    && (forall i, j :: 0 <= i && j == i + 1 < |starts| ==> starts[i] < starts[j] <= starts[i] + Most(max))
    && (starts != [] ==> |hits| <= starts[|starts| - 1] + Most(max))
    && (forall i, j :: 0 <= i && j == i + 1 < |starts| ==> hits[starts[i]] + window < hits[starts[j]])
  }

  ghost predicate Sorted(hits: seq<int>) {
    forall i, j :: 0 <= i <= j < |hits| ==> hits[i] <= hits[j]
  }

  /** The limiter's bucket for the key is the last of the split. */
  ghost predicate Tracks(a: Attempts, key: string, hits: seq<int>, starts: seq<nat>, now: int, window: nat) {
    if hits == [] then key !in a
    else
      && key in a && starts != []
      && a[key].count == |hits| - starts[|starts| - 1]
      && starts[|starts| - 1] < |hits| && hits[starts[|starts| - 1]] + window <= a[key].until
      && hits[|hits| - 1] <= now
  }

  lemma SplitOpens(hits: seq<int>, starts: seq<nat>, max: int, window: nat, at: int)
    requires Split(hits, starts, max, window)
    requires starts != [] ==> hits[starts[|starts| - 1]] + window < at
    ensures Split(hits + [at], starts + [|hits|], max, window)
  {
  }

  lemma SplitJoins(hits: seq<int>, starts: seq<nat>, max: int, window: nat, at: int)
    requires Split(hits, starts, max, window)
    requires starts != [] && |hits| < starts[|starts| - 1] + Most(max)
    ensures Split(hits + [at], starts, max, window)
  {
  }

  lemma MissSplits(a: Attempts, max: int, window: nat, key: string, hits: seq<int>, starts: seq<nat>, now: int, at: int,
                   later: int)
    returns (starts': seq<nat>)
    requires Split(hits, starts, max, window) && Sorted(hits) && Tracks(a, key, hits, starts, now, window)
    requires Admits(a, max, key, now) && now <= at <= later
    ensures Split(hits + [at], starts', max, window) && Sorted(hits + [at])
    ensures Tracks(Failed(a, window, key, at, later), key, hits + [at], starts', later, window)
  {
    if Closed(a, key, at) {
      starts' := starts + [|hits|];
      assert starts != [] <==> hits != [];
      SplitOpens(hits, starts, max, window, at);
    } else {
      starts' := starts;
      SplitJoins(hits, starts, max, window, at);
    }
    hide Split;
  }

  lemma TracksOn(a: Attempts, a': Attempts, key: string, hits: seq<int>, starts: seq<nat>, now: int, now': int,
                 window: nat)
    requires Tracks(a, key, hits, starts, now, window) && now <= now'
    requires key in a <==> key in a'
    requires key in a ==> a'[key] == a[key]
    ensures Tracks(a', key, hits, starts, now', window)
  {
  }

  function NowAfter(op: Op): int { if op.Miss? then op.later else op.at }

  function AdmittedAfter(a: Attempts, max: int, key: string, admitted: bool, op: Op): bool {
    if op.key != key then admitted else op.Ask? && Admits(a, max, key, op.at)
  }

  lemma FirstStep(a: Attempts, max: int, window: nat, key: string, admitted: bool, now: int, ops: seq<Op>)
    requires ops != [] && Disciplined(a, max, window, key, admitted, now, ops)
    ensures var op := ops[0];
      && now <= op.at <= NowAfter(op)
      && (op.key == key ==> !op.Clear? && (op.Miss? ==> admitted))
      && Disciplined(Apply(a, window, op), max, window, key, AdmittedAfter(a, max, key, admitted, op), NowAfter(op),
                     ops[1..])
  {
  }

  lemma StillAdmits(a: Attempts, max: int, window: nat, key: string, admitted: bool, now: int, op: Op)
    requires (admitted ==> Admits(a, max, key, now)) && now <= op.at <= NowAfter(op)
    ensures AdmittedAfter(a, max, key, admitted, op) ==> Admits(Apply(a, window, op), max, key, NowAfter(op))
  {
  }

  /** Running a trace on keeps the key's failures splittable into buckets. */
  lemma {:induction false} TraceSplits(a: Attempts, max: int, window: nat, key: string, admitted: bool, now: int,
                                       ops: seq<Op>, hits: seq<int>, starts: seq<nat>) returns (all: seq<nat>)
    requires Disciplined(a, max, window, key, admitted, now, ops)
    requires Split(hits, starts, max, window) && Sorted(hits) && Tracks(a, key, hits, starts, now, window)
    requires admitted ==> Admits(a, max, key, now)
    ensures Split(hits + Hits(ops, key), all, max, window) && Sorted(hits + Hits(ops, key))
    decreases ops
  {
    hide Split, Sorted, Tracks, Disciplined, Admits, AdmittedAfter;
    if ops == [] {
      assert hits + Hits(ops, key) == hits;
      return starts;
    }
    var op := ops[0];
    FirstStep(a, max, window, key, admitted, now, ops);
    StillAdmits(a, max, window, key, admitted, now, op);
    var hits', starts' := hits, starts;
    if op.key == key && op.Miss? {
      hits' := hits + [op.at];
      starts' := MissSplits(a, max, window, key, hits, starts, now, op.at, op.later);
    } else {
      TracksOn(a, Apply(a, window, op), key, hits, starts, now, NowAfter(op), window);
    }
    assert hits' + Hits(ops[1..], key) == hits + Hits(ops, key);
    all := TraceSplits(Apply(a, window, op), max, window, key, AdmittedAfter(a, max, key, admitted, op), NowAfter(op),
                       ops[1..], hits', starts');
  }

  // ── counting inside a window ────────────────────────────────────────────────────────

  /** In sorted failures, those inside an interval sit side by side. */
  lemma {:induction false} InsideIsContiguous(hits: seq<int>, from: int, to: int) returns (p: nat, q: nat)
    requires Sorted(hits)
    ensures p <= q <= |hits| && CountIn(hits, from, to) == q - p
    ensures forall i :: 0 <= i < |hits| ==> (from <= hits[i] <= to <==> p <= i < q)
  {
    if hits == [] { return 0, 0; }
    var rest := hits[1..];
    var p', q' := InsideIsContiguous(rest, from, to);
    assert forall i :: 0 < i < |hits| ==> hits[i] == rest[i - 1];
    if from <= hits[0] <= to {
      if p' < q' {
        assert rest[p'] <= to;
        assert from <= rest[0] <= to;
      }
      p, q := 0, q' - p' + 1;
    } else {
      p, q := p' + 1, q' + 1;
    }
  }

  /** The bucket a failure belongs to. */
  lemma {:induction false} BucketOf(starts: seq<nat>, n: nat, max: int, p: nat) returns (m: nat)
    requires starts != [] && starts[0] == 0 && p < n <= starts[|starts| - 1] + Most(max)
    requires forall i, j :: 0 <= i && j == i + 1 < |starts| ==> starts[i] < starts[j] <= starts[i] + Most(max)
    ensures m < |starts| && starts[m] <= p
    ensures if m + 1 < |starts| then p < starts[m + 1] else true
  {
    m := 0;
    while m + 1 < |starts| && starts[m + 1] <= p
      invariant m < |starts| && starts[m] <= p
    {
      m := m + 1;
    }
  }

  lemma SplitBounds(hits: seq<int>, starts: seq<nat>, max: int, window: nat, from: int)
    requires Split(hits, starts, max, window) && Sorted(hits)
    ensures CountIn(hits, from, from + window) <= 2 * Most(max) - 1
  {
    var p, q := InsideIsContiguous(hits, from, from + window);
    if p < q {
      var m := BucketOf(starts, |hits|, max, p);
      if m + 1 < |starts| {
        // a failure that opens a bucket inside the interval shuts the next bucket out of it
        assert hits[starts[m]] + window < hits[starts[m + 1]];
        if starts[m] == p {
          assert q <= starts[m + 1];
        } else if m + 2 < |starts| {
          assert hits[starts[m + 1]] + window < hits[starts[m + 2]];
          assert from <= hits[p] <= hits[starts[m + 1]];
          assert q <= starts[m + 2];
        }
      }
    }
  }

  /** The bound: whatever happens on other keys, any closed interval one window long holds at
      most 2·max − 1 of the key's recorded failures. */
  lemma FailuresBounded(max: int, window: nat, key: string, now: int, ops: seq<Op>, from: int)
    requires Disciplined(map[], max, window, key, false, now, ops)
    ensures CountIn(Hits(ops, key), from, from + window) <= 2 * Most(max) - 1
  {
    var starts := TraceSplits(map[], max, window, key, false, now, ops, [], []);
    assert [] + Hits(ops, key) == Hits(ops, key);
    hide Split, Sorted, Disciplined, Hits;
    SplitBounds(Hits(ops, key), starts, max, window, from);
  }

  // ── and no fewer ────────────────────────────────────────────────────────────────────

  function Tries(key: string, at: int, n: nat): seq<Op> {
    if n == 0 then [] else [Ask(key, at), Miss(key, at, at)] + Tries(key, at, n - 1)
  }

  /** One failure opens a bucket, the rest of it is spent at its last instant, and a whole new
      bucket one instant later. */
  function Worst(key: string, max: int, window: nat): seq<Op> {
    Tries(key, 0, 1) + Tries(key, window, Most(max) - 1) + Tries(key, window + 1, Most(max))
  }

  lemma OneTry(a: Attempts, max: int, window: nat, key: string, now: int, at: int, rest: seq<Op>)
    requires now <= at && Admits(a, max, key, at)
    requires Disciplined(Failed(a, window, key, at, at), max, window, key, false, at, rest)
    ensures var ops := [Ask(key, at), Miss(key, at, at)] + rest;
      Disciplined(a, max, window, key, false, now, ops) && Hits(ops, key) == [at] + Hits(rest, key)
  {
    var ops := [Ask(key, at), Miss(key, at, at)] + rest;
    assert ops[1..] == [Miss(key, at, at)] + rest && ops[1..][1..] == rest;
    assert Disciplined(a, max, window, key, true, at, ops[1..]);
  }

  function Spent(a: Attempts, window: nat, key: string, at: int, n: nat): Attempts
    decreases n
  {
    if n == 0 then a else Spent(Failed(a, window, key, at, at), window, key, at, n - 1)
  }

  /** Room for n more failures at this instant. */
  predicate Room(a: Attempts, max: int, key: string, at: int, n: nat) {
    if Closed(a, key, at) then n <= Most(max) else 1 <= a[key].count && a[key].count + n <= Most(max)
  }

  lemma {:induction false} SpentIs(a: Attempts, window: nat, key: string, at: int, n: nat)
    requires n > 0
    ensures Spent(a, window, key, at, n) ==
            a[key := if Closed(a, key, at) then Bucket(n, at + window) else Bucket(a[key].count + n, a[key].until)]
    decreases n
  {
    if n > 1 {
      SpentIs(Failed(a, window, key, at, at), window, key, at, n - 1);
    }
  }

  lemma {:induction false} TriesRun(a: Attempts, max: int, window: nat, key: string, now: int, at: int, n: nat,
                                    rest: seq<Op>)
    requires now <= at && Room(a, max, key, at, n)
    requires Disciplined(Spent(a, window, key, at, n), max, window, key, false, if n == 0 then now else at, rest)
    ensures Disciplined(a, max, window, key, false, now, Tries(key, at, n) + rest)
    ensures Hits(Tries(key, at, n) + rest, key) == seq(n, i => at) + Hits(rest, key)
    decreases n
  {
    hide Disciplined, Hits;
    if n == 0 {
      assert Tries(key, at, n) + rest == rest;
      assert seq(n, i => at) + Hits(rest, key) == Hits(rest, key);
    } else {
      var more := Tries(key, at, n - 1) + rest;
      assert Tries(key, at, n) + rest == [Ask(key, at), Miss(key, at, at)] + more;
      TriesRun(Failed(a, window, key, at, at), max, window, key, at, at, n - 1, rest);
      OneTry(a, max, window, key, now, at, more);
      assert [at] + seq(n - 1, i => at) == seq(n, i => at);
    }
  }

  lemma {:induction false} CountAll(hits: seq<int>, from: int, to: int)
    requires forall i :: 0 <= i < |hits| ==> from <= hits[i] <= to
    ensures CountIn(hits, from, to) == |hits|
  {
    if hits != [] { CountAll(hits[1..], from, to); }
  }

  lemma SpentChain(max: int, window: nat, key: string)
    ensures Spent(map[], window, key, 0, 1) == map[key := Bucket(1, window)]
    ensures Spent(map[key := Bucket(1, window)], window, key, window, Most(max) - 1)
            == map[key := Bucket(Most(max), window)]
  {
    var none: Attempts := map[];
    var first: Attempts := map[key := Bucket(1, window)];
    SpentIs(none, window, key, 0, 1);
    if Most(max) > 1 { SpentIs(first, window, key, window, Most(max) - 1); }
  }

  lemma NothingLeft(a: Attempts, max: int, window: nat, key: string, now: int)
    ensures Disciplined(a, max, window, key, false, now, []) && Hits([], key) == []
  {
  }

  /** The bound is attained: as soon as a window has any length, some disciplined trace puts
      2·max − 1 failures in one interval of that length. */
  lemma BoundAttained(max: int, window: nat, key: string)
    requires window >= 1
    ensures Disciplined(map[], max, window, key, false, 0, Worst(key, max, window))
    ensures CountIn(Hits(Worst(key, max, window), key), window, window + window) == 2 * Most(max) - 1
  {
    hide Disciplined, Hits, Tries, Spent;
    var m := Most(max);
    var first, spent: Attempts := map[key := Bucket(1, window)], map[key := Bucket(m, window)];
    var ops3 := Tries(key, window + 1, m);
    var ops2 := Tries(key, window, m - 1) + ops3;
    assert ops3 + [] == ops3 && Worst(key, max, window) == Tries(key, 0, 1) + ops2;
    SpentChain(max, window, key);
    NothingLeft(Spent(spent, window, key, window + 1, m), max, window, key, window + 1);
    TriesRun(spent, max, window, key, if m == 1 then 0 else window, window + 1, m, []);
    TriesRun(first, max, window, key, 0, window, m - 1, ops3);
    TriesRun(map[], max, window, key, 0, 0, 1, ops2);
    var late := seq(m - 1, i => window) + seq(m, i => window + 1);
    assert Hits(ops2, key) == late;
    assert Hits(Worst(key, max, window), key) == [0] + late;
    CountAll(late, window, window + window);
  }
}
