/** The walk's own answers about references, sources, values and file names, tied to the stored rows. */
module ManifestReads {
  import opened Wrappers
  import opened ManifestModel
  import opened Text
  import opened SlotMerge
  import opened Comparisons
  import opened ManifestSpec
  import opened ManifestFixpoint
  import opened ManifestDeclared

  // ── references and sources ──────────────────────────────────────────────────────────

  lemma CredExactly(doc: Doc, db: Store, name: string, has: Link)
    ensures FindCred(doc, true, db, name) == Some(has) <==> CredAs(db, name, has)
    ensures FindCred(doc, true, db, name).Some? <==> (name == "" || db.GitCred(name).Some?)
  {
  }

  lemma StackLinkExactly(doc: Doc, db: Store, env: string, name: string, has: Link)
    ensures FindStack(doc, true, db, env, name) == Some(has) <==> StackLinkAs(db, env, name, has)
    ensures FindStack(doc, true, db, env, name).Some? <==> (name == "" || db.Stack(env, name).Some?)
  {
  }

  /** The link a target has, given the one it names: that one; or, when it names none and
      deploys on push, any at all. */
  predicate LinkedAs(named: Link, has: Link, auto: bool) {
    if named != NoLink then has == named else auto ==> has != NoLink
  }

  lemma HookExactly(doc: Doc, db: Store, env: string, name: string, auto: bool, has: Link)
    ensures var named := NamedWebhook(doc, true, db, name, env);
      && (named.Some? <==> HookFound(db, env, name))
      && (named.Some? && LinkedAs(named.value, has, auto) <==> HookAs(db, env, name, auto, has))
  {
  }

  lemma SourceExactly(doc: Doc, db: Store, source: StackSource, has: SourceCols)
    ensures var cred := FindCred(doc, true, db, CredName(source));
      cred.Some? && has == StackCols(source, cred.value) <==> SourceAs(db, source, has)
  {
    CredExactly(doc, db, CredName(source), has.cred);
    hide FindCred, Trim;
    if source.Inline? { CredExactly(doc, db, "", NoLink); }
  }

  lemma VolSourceExactly(doc: Doc, db: Store, v: VolDecl, has: SourceCols)
    ensures var cred := FindCred(doc, true, db, VolCred(v));
      cred.Some? && has == VolCols(v, cred.value) <==>
      match v.content
      case GitContent(g) => GitAs(db, g, has)
      case InlineContent(_) => NoGit(has) && has.inlineYAML == ""
  {
    CredExactly(doc, db, VolCred(v), has.cred);
    hide FindCred, Trim;
    if v.content.InlineContent? { CredExactly(doc, db, "", NoLink); }
  }

  lemma PlaceExactly(w: World, doc: Doc, shared: bool, cluster: string)
    ensures PlaceOf(w, doc, shared, cluster) == Landing(w, doc, shared, cluster)
  {
  }

  // ── names a delivery carries ────────────────────────────────────────────────────────

  lemma {:induction false} CarriesExactly(doc: Doc, db: Store, env: string, refs: seq<CertRef>, certs: seq<Carried>)
    ensures var found := ResolveCerts(doc, true, db, env, refs);
      found.Resolved? && found.found == certs <==> CarriesAs(db, env, refs, certs)
    decreases refs
  {
    if refs == [] {
    } else if certs == [] {
      if ResolveCerts(doc, true, db, env, refs).Resolved? {
        NothingPending(doc, db, env, refs, []);
        assert ResolveCerts(doc, true, db, env, refs).found != [];
      }
    } else {
      CarriesExactly(doc, db, env, refs[1..], certs[1..]);
      assert certs == [certs[0]] + certs[1..];
      CarriesSplit(db, env, refs, certs);
      hide CarriesAs;
    }
  }

  lemma CarriesSplit(db: Store, env: string, refs: seq<CertRef>, certs: seq<Carried>)
    requires refs != [] && certs != []
    ensures CarriesAs(db, env, refs, certs) <==>
            CarriedAs(db, env, refs[0], certs[0]) && CarriesAs(db, env, refs[1..], certs[1..])
  {
    hide CarriedAs;
    if CarriedAs(db, env, refs[0], certs[0]) && CarriesAs(db, env, refs[1..], certs[1..]) {
      assert forall i :: 1 <= i < |refs| ==> refs[i] == refs[1..][i - 1] && certs[i] == certs[1..][i - 1];
    }
  }

  lemma {:induction false} BundleExactly(doc: Doc, db: Store, names: seq<string>, bundle: seq<nat>)
    ensures var found := ResolveCAs(doc, true, db, names);
      found.Resolved? && found.found == bundle <==> BundleAs(db, names, bundle)
    decreases names
  {
    if names == [] {
    } else if bundle == [] {
      if ResolveCAs(doc, true, db, names).Resolved? {
        assert ResolveCAs(doc, true, db, names).found != [];
      }
    } else {
      BundleExactly(doc, db, names[1..], bundle[1..]);
      assert bundle == [bundle[0]] + bundle[1..];
      if db.CA(names[0]).Some? && bundle[0] == db.CA(names[0]).value.id && BundleAs(db, names[1..], bundle[1..]) {
        assert forall i :: 1 <= i < |names| ==> names[i] == names[1..][i - 1] && bundle[i] == bundle[1..][i - 1];
      }
    }
  }

  // ── values of slots ─────────────────────────────────────────────────────────────────

  /** A stored slot satisfies a declaration: it holds a known value as declared; an unfilled
      variable is merely there. */
  predicate SlotAs(rows: seq<SlotRow>, want: Want) {
    match want.intent
    case Known(v) => Lookup(rows, want.key) == Some(SlotRow(want.key, v, want.secret))
    case _ => want.placeholder ==> Lookup(rows, want.key).Some?
  }

  lemma LookupExactly(rows: seq<SlotRow>, row: SlotRow)
    requires DistinctRows(rows)
    ensures Lookup(rows, row.key) == Some(row) <==> row in rows
    ensures Lookup(rows, row.key).Some? <==> HasKey(rows, row.key)
  {
    if row in rows {
      var i :| 0 <= i < |rows| && rows[i] == row;
      FindDistinct(rows, i);
    }
    if HasKey(rows, row.key) {
      var i :| 0 <= i < |rows| && rows[i].key == row.key;
      FindDistinct(rows, i);
    }
  }

  lemma {:induction false} JoinedFirst(part: string, parts: seq<string>)
    ensures Joined([part] + parts) == part + Joined(parts)
    decreases |parts|
  {
    var all := [part] + parts;
    if parts == [] {
      assert all[..0] == [] && all[0] == part;
    } else {
      JoinedFirst(part, parts[..|parts| - 1]);
      assert all[..|all| - 1] == [part] + parts[..|parts| - 1];
    }
  }

  lemma {:induction false} ExpandSpells(pieces: seq<Piece>, db: Store) returns (parts: seq<string>)
    requires Expand(pieces, db).Some?
    ensures |parts| == |pieces| && Expand(pieces, db) == Some(Joined(parts))
    ensures forall i :: 0 <= i < |parts| ==> PieceIs(db, pieces[i], parts[i])
  {
    if pieces == [] { return []; }
    var rest := ExpandSpells(pieces[1..], db);
    var part := if pieces[0].Text? then pieces[0].text else db.Generated(pieces[0].name).value.value;
    JoinedFirst(part, rest);
    parts := [part] + rest;
  }

  lemma {:induction false} SpeltExpands(pieces: seq<Piece>, db: Store, parts: seq<string>)
    requires |parts| == |pieces| && forall i :: 0 <= i < |parts| ==> PieceIs(db, pieces[i], parts[i])
    ensures Expand(pieces, db) == Some(Joined(parts))
    decreases pieces
  {
    if pieces != [] {
      SpeltExpands(pieces[1..], db, parts[1..]);
      JoinedFirst(parts[0], parts[1..]);
      assert parts == [parts[0]] + parts[1..] && PieceIs(db, pieces[0], parts[0]);
    }
  }

  /** A composed value is its pieces one after the other, and has none while a generated one is missing. */
  lemma SpellsExactly(pieces: seq<Piece>, db: Store, text: string)
    ensures Expand(pieces, db) == Some(text) <==> Spells(db, pieces, text)
  {
    if Expand(pieces, db).Some? {
      var parts := ExpandSpells(pieces, db);
      assert Expand(pieces, db) == Some(text) ==> Spells(db, pieces, text);
    }
    if Spells(db, pieces, text) {
      var parts: seq<string> :| |parts| == |pieces| && text == Joined(parts)
          && forall i :: 0 <= i < |parts| ==> PieceIs(db, pieces[i], parts[i]);
      SpeltExpands(pieces, db, parts);
    }
  }

  lemma VarExactly(w: World, db: Store, rows: seq<SlotRow>, v: EnvDecl)
    requires DistinctRows(rows) && !EnvWant(w, db, v).intent.Awaited?
    ensures SlotAs(rows, EnvWant(w, db, v)) <==> VarAs(w, db, rows, v)
  {
    var want := EnvWant(w, db, v);
    var text := if want.intent.Known? then want.intent.value else "";
    LookupExactly(rows, SlotRow(v.key, text, v.secret));
    forall t ensures Expand(w.pieces(v.value), db) == Some(t) <==> Spells(db, w.pieces(v.value), t) {
      SpellsExactly(w.pieces(v.value), db, t);
    }
    hide Lookup, Expand, Spells, HasKey, DistinctRows;
  }

  lemma FileExactly(w: World, db: Store, rows: seq<SlotRow>, f: SecretFileDecl)
    requires DistinctRows(rows) && !FileWant(w, db, f).intent.Awaited?
    ensures SlotAs(rows, FileWant(w, db, f)) <==> FileAs(w, db, rows, f)
  {
    var want := FileWant(w, db, f);
    var text := if want.intent.Known? then want.intent.value else "";
    LookupExactly(rows, SlotRow(f.name, text, true));
    forall t ensures Expand(w.pieces(f.value), db) == Some(t) <==> Spells(db, w.pieces(f.value), t) {
      SpellsExactly(w.pieces(f.value), db, t);
    }
    hide Lookup, Expand, Spells, HasKey, DistinctRows;
  }

  // ── files ───────────────────────────────────────────────────────────────────────────

  lemma {:induction false} LastIs(files: seq<VolFile>, f: VolFile)
    ensures f.path in Files(files) && Files(files)[f.path] == f.content <==> Has(files, f)
  {
    if files != [] {
      var init, last := files[..|files| - 1], files[|files| - 1];
      LastIs(init, f);
      if last.path == f.path {
        if last == f { assert files[|files| - 1] == f; }
      } else {
        HasBefore(files, f);
      }
    }
  }

  lemma HasBefore(files: seq<VolFile>, f: VolFile)
    requires files != [] && files[|files| - 1].path != f.path
    ensures Has(files, f) <==> Has(files[..|files| - 1], f)
  {
    var init := files[..|files| - 1];
    if Has(files, f) {
      var i :| 0 <= i < |files| && files[i] == f && forall k :: i < k < |files| ==> files[k].path != f.path;
      assert init[i] == f;
    }
    if Has(init, f) {
      var i :| 0 <= i < |init| && init[i] == f && forall k :: i < k < |init| ==> init[k].path != f.path;
      assert files[i] == f;
      forall k | i < k < |files| ensures files[k].path != f.path {
        if k < |init| { assert files[k] == init[k]; }
      }
    }
  }

  lemma FilesExactly(has: seq<VolFile>, want: seq<VolFile>)
    ensures SameFiles(has, want) <==> FilesAs(has, want)
  {
    forall f: VolFile ensures f.path in Files(has) && Files(has)[f.path] == f.content <==> Has(has, f) {
      LastIs(has, f);
    }
    hide Files, Has;
    if FilesAs(has, want) {
      forall j | 0 <= j < |want| ensures want[j].path in Files(has) && Files(has)[want[j].path] == want[j].content {
        assert want[j] in want;
      }
    }
  }

  lemma {:induction false} TraefikIs(rows: seq<DeliveryRow>, i: nat)
    requires i < |rows|
    ensures TraefikOn(rows).Some? && FirstTraefik(rows, i) ==> TraefikOn(rows).value == rows[i]
    ensures FirstTraefik(rows, i) ==> TraefikOn(rows).Some?
  {
    if i > 0 {
      assert rows[1..][i - 1] == rows[i];
      if FirstTraefik(rows, i) {
        assert forall j :: 0 <= j < i - 1 ==> rows[1..][j] == rows[j + 1];
        assert FirstTraefik(rows[1..], i - 1);
        TraefikIs(rows[1..], i - 1);
      }
    }
  }

  lemma {:induction false} TraefikFound(rows: seq<DeliveryRow>) returns (i: nat)
    requires TraefikOn(rows).Some?
    ensures i < |rows| && FirstTraefik(rows, i) && TraefikOn(rows).value == rows[i]
  {
    if rows[0].traefik { return 0; }
    i := TraefikFound(rows[1..]);
    assert forall j :: 1 <= j <= i ==> rows[j] == rows[1..][j - 1];
    i := i + 1;
  }

  lemma TakenExactly(db: Store, env: string, volume: string, path: string)
    ensures DeliveryOwns(db, env, volume, path) <==> Taken(db, env, volume, path)
  {
    var rows := db.Deliveries(env, volume);
    forall i | 0 <= i < |rows| && FirstTraefik(rows, i) ensures TraefikOn(rows) == Some(rows[i]) { TraefikIs(rows, i); }
    if TraefikOn(rows).Some? {
      var i := TraefikFound(rows);
      PathExactly(db, rows[i], path);
    }
    hide TraefikOn, CertFile, CertPath;
  }

  lemma PathExactly(db: Store, row: DeliveryRow, path: string)
    ensures CertFile(db, row.certs, path) <==> CertPath(db, row, path)
  {
    if CertPath(db, row, path) {
      var c, k :| c in row.certs && k in db.rows && db.rows[k].CertIn? && k.kind == CertKind
                  && db.rows[k].cert.id == c.certID
                  && path in {db.rows[k].cert.name + ".crt", db.rows[k].cert.name + ".key"};
      var i :| 0 <= i < |row.certs| && row.certs[i] == c;
      assert db.rows[k].cert.id == row.certs[i].certID;
    }
  }

  lemma FreeExactly(w: World, db: Store, env: string, v: VolDecl)
    ensures !Refused(w, db, env, v.volume, VolFiles(v)) <==> Free(w, db, env, v)
  {
    var files := VolFiles(v);
    forall i | 0 <= i < |files|
      ensures DeliveryOwns(db, env, v.volume, files[i].path) <==> Taken(db, env, v.volume, files[i].path)
    {
      TakenExactly(db, env, v.volume, files[i].path);
    }
    hide DeliveryOwns, Taken;
    if v.content.InlineContent? { assert forall i :: 0 <= i < |files| ==> files[i] in v.content.files; }
  }
}
