/** Merging declared variables and secret files into a stack's stored rows: what is declared
    must exist, what a human added or filled stays. */
module SlotMerge {
  import opened Wrappers
  import opened ManifestModel

  /** What a declaration says about its slot's content. Awaited: it is composed from generated
      material that does not exist yet, which only a plan can meet. */
  datatype Intent = Known(value: string) | Awaited | Open

  /** One declared slot. placeholder: an absent row is created empty (variables) rather than
      left out (secret files). */
  datatype Want = Want(key: string, secret: bool, intent: Intent, placeholder: bool)

  function Expand(pieces: seq<Piece>, db: Store): Option<string> {
    if pieces == [] then Some("")
    else match Expand(pieces[1..], db)
      case None => None
      case Some(rest) =>
        match pieces[0]
        case Text(t) => Some(t + rest)
        case Reference(n) => if db.Generated(n).Some? then Some(db.Generated(n).value.value + rest) else None
  }

  function FromGenerated(name: string, db: Store): Intent {
    if db.Generated(name).Some? then Known(db.Generated(name).value.value) else Awaited
  }

  function Composed(w: World, value: string, db: Store): Intent {
    match Expand(w.pieces(value), db)
    case Some(v) => Known(v)
    case None => Awaited
  }

  function Submitted(w: World, variable: string): Intent {
    match ValueOf(w, variable)
    case Some(v) => Known(v)
    case None => Open
  }

  function EnvWant(w: World, db: Store, v: EnvDecl): Want {
    var intent :=
      if !v.secret then Known(v.value)
      else if v.fromGenerated != "" then FromGenerated(v.fromGenerated, db)
      else if v.value != "" then Composed(w, v.value, db)
      else Submitted(w, v.valueFromEnv);
    Want(v.key, v.secret, intent, true)
  }

  function FileWant(w: World, db: Store, f: SecretFileDecl): Want {
    var intent :=
      if f.valueFromEnv != "" then Submitted(w, f.valueFromEnv)
      else if f.fromGenerated != "" then FromGenerated(f.fromGenerated, db)
      else if f.value != "" then Composed(w, f.value, db)
      else Open;
    Want(f.name, true, intent, false)
  }

  function EnvWants(w: World, db: Store, env: seq<EnvDecl>): seq<Want> {
    seq(|env|, i requires 0 <= i < |env| => EnvWant(w, db, env[i]))
  }

  function FileWants(w: World, db: Store, files: seq<SecretFileDecl>): seq<Want> {
    seq(|files|, i requires 0 <= i < |files| => FileWant(w, db, files[i]))
  }

  // ── the merge ───────────────────────────────────────────────────────────────────

  /** The index of the row with this key, or |rows|. */
  function Find(rows: seq<SlotRow>, key: string): (i: nat)
    ensures i <= |rows|
    ensures i < |rows| ==> rows[i].key == key
    ensures forall j :: 0 <= j < i ==> rows[j].key != key
  {
    if rows == [] || rows[0].key == key then 0 else 1 + Find(rows[1..], key)
  }

  datatype Merged = Merged(rows: seq<SlotRow>, changed: bool)

  /** One declared slot against the rows. */
  function MergeOne(rows: seq<SlotRow>, want: Want): Merged {
    var i := Find(rows, want.key);
    var content := if want.intent.Known? then want.intent.value else "";
    var row := SlotRow(want.key, content, want.secret);
    if i == |rows| then
      if want.intent.Known? || want.placeholder then Merged(rows + [row], true)
      else Merged(rows, want.intent.Awaited?)
    else if want.intent.Known? && rows[i] != row then Merged(rows[i := row], true)
    else Merged(rows, want.intent.Awaited?)
  }

  function Merge(rows: seq<SlotRow>, wants: seq<Want>): Merged
    decreases wants
  {
    if wants == [] then Merged(rows, false)
    else
      var first := MergeOne(rows, wants[0]);
      var rest := Merge(first.rows, wants[1..]);
      Merged(rest.rows, first.changed || rest.changed)
  }

  lemma MergeOneDistinct(rows: seq<SlotRow>, want: Want)
    requires DistinctRows(rows)
    ensures DistinctRows(MergeOne(rows, want).rows)
  {
  }

  /** The loop both merges run: an index of the stored keys, kept current while declared slots
      are appended or rewritten. */
  method MergeSlots(stored: seq<SlotRow>, wants: seq<Want>) returns (rows: seq<SlotRow>, changed: bool)
    requires DistinctRows(stored)
    ensures Merged(rows, changed) == Merge(stored, wants)
  {
    rows, changed := stored, false;
    var byKey: map<string, nat> := IndexRows(stored);
    for i := 0 to |wants|
      invariant DistinctRows(rows) && Indexes(byKey, rows)
      invariant Merge(stored, wants) ==
                Merged(Merge(rows, wants[i..]).rows, changed || Merge(rows, wants[i..]).changed)
    {
      var want := wants[i];
      ghost var before, was := rows, changed;
      assert wants[i..][0] == want && wants[i..][1..] == wants[i + 1..];
      MergeOneDistinct(rows, want);
      IndexFinds(byKey, rows, want.key);
      var content := if want.intent.Known? then want.intent.value else "";
      if want.intent.Awaited? {
        changed := true;
      }
      if want.key !in byKey {
        if want.intent.Known? || want.placeholder {
          rows := rows + [SlotRow(want.key, content, want.secret)];
          byKey := byKey[want.key := |rows| - 1];
          changed := true;
        }
      } else {
        var at := byKey[want.key];
        if want.intent.Known? && (rows[at].value != content || rows[at].secret != want.secret) {
          rows := rows[at := SlotRow(want.key, content, want.secret)];
          changed := true;
        }
      }
      assert rows == MergeOne(before, want).rows && changed == (was || MergeOne(before, want).changed);
    }
  }

  method IndexRows(rows: seq<SlotRow>) returns (byKey: map<string, nat>)
    ensures Indexes(byKey, rows)
  {
    byKey := map[];
    for i := 0 to |rows|
      invariant Indexes(byKey, rows[..i])
    {
      byKey := byKey[rows[i].key := i];
      assert rows[..i + 1] == rows[..i] + [rows[i]];
    }
    assert rows[..|rows|] == rows;
  }

  ghost predicate Indexes(byKey: map<string, nat>, rows: seq<SlotRow>) {
    && (forall k :: k in byKey ==> byKey[k] < |rows| && rows[byKey[k]].key == k)
    && (forall j :: 0 <= j < |rows| ==> rows[j].key in byKey)
  }

  lemma IndexFinds(byKey: map<string, nat>, rows: seq<SlotRow>, key: string)
    requires DistinctRows(rows) && Indexes(byKey, rows)
    ensures Find(rows, key) == if key in byKey then byKey[key] else |rows|
  {
    if key in byKey {
      FindDistinct(rows, byKey[key]);
    }
  }

  // ── what the merge means ────────────────────────────────────────────────────────

  ghost predicate DistinctRows(rows: seq<SlotRow>) {
    forall i, j :: 0 <= i < j < |rows| ==> rows[i].key != rows[j].key
  }

  ghost predicate DistinctWants(wants: seq<Want>) {
    forall i, j :: 0 <= i < j < |wants| ==> wants[i].key != wants[j].key
  }

  /** The declared content of a slot once merged, given the row that was there. */
  function Landed(want: Want, before: Option<SlotRow>): Option<SlotRow> {
    match want.intent
    case Known(v) => Some(SlotRow(want.key, v, want.secret))
    case _ => if before.None? && want.placeholder then Some(SlotRow(want.key, "", want.secret)) else before
  }

  function Lookup(rows: seq<SlotRow>, key: string): Option<SlotRow> {
    if Find(rows, key) < |rows| then Some(rows[Find(rows, key)]) else None
  }

  lemma FindDistinct(rows: seq<SlotRow>, i: nat)
    requires DistinctRows(rows) && i < |rows|
    ensures Find(rows, rows[i].key) == i
  {
  }

  lemma MergeOneIsLocal(rows: seq<SlotRow>, want: Want, key: string)
    requires DistinctRows(rows)
    ensures var m := MergeOne(rows, want);
      && DistinctRows(m.rows)
      && |rows| <= |m.rows|
      && (forall i :: 0 <= i < |rows| ==> m.rows[i].key == rows[i].key)
      && Lookup(m.rows, want.key) == Landed(want, Lookup(rows, want.key))
      && (key != want.key ==> Lookup(m.rows, key) == Lookup(rows, key))
      && (m.changed <==> m.rows != rows || want.intent.Awaited?)
  {
    var m := MergeOne(rows, want);
    var i := Find(rows, want.key);
    if i == |rows| {
      if m.rows != rows {
        FindAppend(rows, m.rows[|rows|], key);
        FindAppend(rows, m.rows[|rows|], want.key);
      }
    } else if m.rows != rows {
      FindUpdate(rows, i, m.rows[i], key);
      FindUpdate(rows, i, m.rows[i], want.key);
    }
  }

  lemma FindAppend(rows: seq<SlotRow>, row: SlotRow, key: string)
    ensures Find(rows + [row], key) ==
            if Find(rows, key) < |rows| then Find(rows, key) else if row.key == key then |rows| else |rows| + 1
  {
    if rows != [] && rows[0].key != key {
      FindAppend(rows[1..], row, key);
      assert (rows + [row])[1..] == rows[1..] + [row];
    }
  }

  lemma FindUpdate(rows: seq<SlotRow>, i: nat, row: SlotRow, key: string)
    requires i < |rows| && row.key == rows[i].key
    ensures Find(rows[i := row], key) == Find(rows, key)
  {
    if rows[0].key != key {
      if i > 0 {
        FindUpdate(rows[1..], i - 1, row, key);
        assert rows[i := row][1..] == rows[1..][i - 1 := row];
      } else {
        assert rows[i := row][1..] == rows[1..];
      }
    }
  }

  lemma {:induction false} MergeKeepsDistinct(rows: seq<SlotRow>, wants: seq<Want>)
    requires DistinctRows(rows)
    ensures DistinctRows(Merge(rows, wants).rows)
    ensures !Merge(rows, wants).changed ==> Merge(rows, wants).rows == rows
    decreases wants
  {
    if wants != [] {
      MergeOneIsLocal(rows, wants[0], wants[0].key);
      MergeKeepsDistinct(MergeOne(rows, wants[0]).rows, wants[1..]);
    }
  }

  /** No slot is lost and none moves: the stored keys are a prefix of the merged ones. */
  predicate KeysStay(rows: seq<SlotRow>, merged: seq<SlotRow>) {
    |rows| <= |merged| && forall i :: 0 <= i < |rows| ==> merged[i].key == rows[i].key
  }

  lemma {:induction false} MergeKeepsKeys(rows: seq<SlotRow>, wants: seq<Want>)
    ensures KeysStay(rows, Merge(rows, wants).rows)
    decreases wants
  {
    if wants != [] { MergeKeepsKeys(MergeOne(rows, wants[0]).rows, wants[1..]); }
  }

  /** Rows keep their position and key, undeclared rows keep their content, and a declared
      slot ends exactly as its intent says. */
  lemma {:induction false} MergeLookup(rows: seq<SlotRow>, wants: seq<Want>, key: string)
    requires DistinctRows(rows) && DistinctWants(wants)
    ensures var m := Merge(rows, wants);
      && DistinctRows(m.rows)
      && |rows| <= |m.rows|
      && (forall i :: 0 <= i < |rows| ==> m.rows[i].key == rows[i].key)
      && (forall i :: 0 <= i < |wants| && wants[i].key == key ==>
            Lookup(m.rows, key) == Landed(wants[i], Lookup(rows, key)))
      && ((forall i :: 0 <= i < |wants| ==> wants[i].key != key) ==> Lookup(m.rows, key) == Lookup(rows, key))
    decreases wants
  {
    if wants != [] {
      var first := MergeOne(rows, wants[0]);
      MergeOneIsLocal(rows, wants[0], key);
      MergeLookup(first.rows, wants[1..], key);
      forall i | 0 <= i < |wants| && wants[i].key == key
        ensures Lookup(Merge(rows, wants).rows, key) == Landed(wants[i], Lookup(rows, key))
      {
        if i > 0 { assert wants[1..][i - 1] == wants[i]; }
      }
    }
  }

  /** Without awaited material, the merge reports a change exactly when a stored row differs. */
  lemma {:induction false} ChangedIsHonest(rows: seq<SlotRow>, wants: seq<Want>)
    requires DistinctRows(rows) && DistinctWants(wants)
    ensures Merge(rows, wants).changed <==>
            Merge(rows, wants).rows != rows || exists i :: 0 <= i < |wants| && wants[i].intent.Awaited?
    decreases wants
  {
    if wants != [] {
      var first := MergeOne(rows, wants[0]);
      var tail := wants[1..];
      MergeOneIsLocal(rows, wants[0], wants[0].key);
      ChangedIsHonest(first.rows, tail);
      MergeLookup(first.rows, tail, wants[0].key);
      assert forall i :: 0 <= i < |tail| ==> tail[i] == wants[i + 1];
      if first.rows != rows {
        // a slot rewritten by its own declaration is not rewritten back by another
        if Merge(rows, wants).rows == rows {
          assert Lookup(rows, wants[0].key) == Landed(wants[0], Lookup(rows, wants[0].key));
          UnlandedIsUnchanged(rows, wants[0]);
        }
      }
      if exists i :: 0 <= i < |wants| && wants[i].intent.Awaited? {
        var i :| 0 <= i < |wants| && wants[i].intent.Awaited?;
        if i > 0 { assert tail[i - 1].intent.Awaited?; }
      }
    }
  }

  lemma UnlandedIsUnchanged(rows: seq<SlotRow>, want: Want)
    requires Landed(want, Lookup(rows, want.key)) == Lookup(rows, want.key)
    ensures MergeOne(rows, want).rows == rows
  {
  }

  /** Merging again, with every intent as it was, finds nothing left to do. */
  lemma {:induction false} MergeIsIdempotent(rows: seq<SlotRow>, wants: seq<Want>)
    requires DistinctRows(rows) && DistinctWants(wants)
    requires forall i :: 0 <= i < |wants| ==> !wants[i].intent.Awaited?
    ensures Merge(Merge(rows, wants).rows, wants) == Merged(Merge(rows, wants).rows, false)
  {
    var m := Merge(rows, wants);
    forall i | 0 <= i < |wants|
      ensures Landed(wants[i], Lookup(m.rows, wants[i].key)) == Lookup(m.rows, wants[i].key)
    {
      MergeLookup(rows, wants, wants[i].key);
    }
    LandedStays(m.rows, wants);
  }

  lemma {:induction false} LandedStays(rows: seq<SlotRow>, wants: seq<Want>)
    requires forall i :: 0 <= i < |wants| ==>
               !wants[i].intent.Awaited? && Landed(wants[i], Lookup(rows, wants[i].key)) == Lookup(rows, wants[i].key)
    ensures Merge(rows, wants) == Merged(rows, false)
  {
    if wants != [] {
      UnlandedIsUnchanged(rows, wants[0]);
      assert forall i :: 0 <= i < |wants[1..]| ==> wants[1..][i] == wants[i + 1];
      LandedStays(rows, wants[1..]);
    }
  }
}
