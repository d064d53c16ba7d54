/** The walk as the server runs it: one object whose fields every step updates in place. Each
    step's effect on the rows and on the report is the specification's. */
module ManifestRun {
  import opened Wrappers
  import opened ManifestModel
  import opened Text
  import opened SlotMerge
  import opened Comparisons
  import opened ManifestSpec
  import opened ManifestFrame
  import opened ManifestFixpoint

  class Run {
    const w: World
    const doc: Doc
    const apply: bool
    var db: Store
    var report: seq<Verdict>
    var envs: map<string, string>              // cluster name → environment id, "" for a miss
    var genValues: map<string, string>         // plaintext of the generated secrets met so far
    var declaredIdx: Option<set<(Kind, string)>>  // built on first use

    ghost predicate Valid()
      reads this
    {
      && (forall c :: c in w.envs ==> w.envs[c] != "")
      && (forall c :: c in envs ==> envs[c] == if c in w.envs then w.envs[c] else "")
      && (forall n :: n in genValues ==> db.Generated(n).Some? && db.Generated(n).value.value == genValues[n])
      && (declaredIdx.Some? ==> forall k, n :: (k, n) in declaredIdx.value <==> Declares(doc, k, n))
      && RowsDistinct(db)
    }

    constructor (w: World, doc: Doc, apply: bool, db: Store)
      requires (forall c :: c in w.envs ==> w.envs[c] != "") && RowsDistinct(db)
      ensures Valid() && this.w == w && this.doc == doc && this.apply == apply && this.db == db && report == []
    {
      this.w, this.doc, this.apply, this.db := w, doc, apply, db;
      report, envs, genValues, declaredIdx := [], map[], map[], None;
    }

    /** One resource was visited, as the specification says. */
    twostate predicate Did(x: Item, ok: bool)
      reads this
    {
      var s := Ensure(w, doc, apply, old(db), x);
      && Valid() && db == s.db && ok == !s.failed
      && report == old(report) + if s.failed then [] else [s.verdict]
    }

    // ── lookups that fill a cache ─────────────────────────────────────────────────────

    method DeclaresIt(kind: Kind, name: string) returns (yes: bool)
      requires Valid()
      modifies this`declaredIdx
      ensures Valid() && yes == Declares(doc, kind, name)
    {
      if declaredIdx.None? {
        var idx := {};
        for i := 0 to |doc.items|
          invariant forall k, n :: (k, n) in idx <==>
                      exists x :: x in doc.items[..i] && x.Kind() == k && x.Name() == n
        {
          idx := idx + {(doc.items[i].Kind(), doc.items[i].Name())};
          assert doc.items[..i + 1] == doc.items[..i] + [doc.items[i]];
        }
        assert doc.items[..|doc.items|] == doc.items;
        declaredIdx := Some(idx);
      }
      yes := (kind, name) in declaredIdx.value;
    }

    method Pending(kind: Kind, name: string) returns (yes: bool)
      requires Valid()
      modifies this`declaredIdx
      ensures Valid() && yes == (!apply && Declares(doc, kind, name))
    {
      if apply { return false; }
      yes := DeclaresIt(kind, name);
    }

    method ResolveCluster(name: string) returns (env: string)
      requires Valid()
      modifies this`envs
      ensures Valid() && (if env == "" then EnvOf(w, name).None? else EnvOf(w, name) == Some(env))
    {
      if name !in envs {
        envs := envs[name := if name in w.envs then w.envs[name] else ""];
      }
      env := envs[name];
    }

    method GeneratedValue(name: string) returns (v: Option<string>)
      requires Valid()
      modifies this`genValues
      ensures Valid() && v == (if db.Generated(name).Some? then Some(db.Generated(name).value.value) else None)
    {
      if name in genValues { return Some(genValues[name]); }
      var row := db.Generated(name);
      if row.None? { return None; }
      genValues := genValues[name := row.value.value];
      v := Some(row.value.value);
    }

    method ExpandGenerated(pieces: seq<Piece>) returns (v: Option<string>)
      requires Valid()
      modifies this`genValues
      ensures Valid() && v == Expand(pieces, db)
    {
      v := Some("");
      var i := |pieces|;
      while i > 0
        invariant 0 <= i <= |pieces| && Valid() && v == Expand(pieces[i..], db)
      {
        i := i - 1;
        assert pieces[i..][1..] == pieces[i + 1..];
        match pieces[i]
        case Text(t) =>
          v := if v.Some? then Some(t + v.value) else None;
        case Reference(n) =>
          var known := GeneratedValue(n);
          v := if v.Some? && known.Some? then Some(known.value + v.value) else None;
      }
      assert pieces[0..] == pieces;
    }

    method Push(v: Verdict)
      modifies this`report
      ensures report == old(report) + [v] && (old(Valid()) ==> Valid())
    {
      report := report + [v];
    }

    method Insert(k: RowKey, row: Row)
      requires Valid() && k.kind != StackKind && k.kind != GeneratedKind
      modifies this`db
      ensures Valid() && db == old(db).Insert(k, row)
    {
      db := db.Insert(k, row);
    }

    method Rewrite(k: RowKey, row: Row)
      requires Valid() && k.kind != StackKind && k.kind != GeneratedKind
      modifies this`db
      ensures Valid() && db == old(db).Update(k, row)
    {
      db := db.Update(k, row);
    }

    // ── one method per kind ───────────────────────────────────────────────────────────

    method EnsureSSHKey(k: SSHKeyDecl) returns (ok: bool)
      requires Valid()
      modifies this
      ensures Did(SSHKeyItem(k), ok)
    {
      var verdict := Create;
      var existing := db.SSHKey(k.name);
      if existing.Some? {
        verdict := if k.algo != "" && Lower(k.algo) != Lower(existing.value.algo) then Drifted else InSync;
      } else if apply {
        var algo := GenerateAlgo(k.algo);
        if algo.None? {
          verdict := Blocked;
        } else {
          Insert(RowKey(SSHKeyKind, "", k.name), SSHKeyIn(SSHKeyRow(db.nextID, algo.value)));
        }
      }
      Push(verdict);
      ok := true;
    }

    method EnsureGitCred(g: GitCredDecl) returns (ok: bool)
      requires Valid()
      modifies this
      ensures Did(GitCredItem(g), ok)
    {
      ok := true;
      var existing := db.GitCred(g.name);
      if existing.Some? {
        var row := existing.value;
        var drift := row.kind != g.kind || row.username != Trim(g.username);
        if g.kind == GitSSH && !drift {
          var key := db.SSHKey(g.sshKey);
          drift := key.None? || row.sshKey != LinkTo(key.value.id);
        }
        if g.hostKey != "" && row.hostKey != Trim(g.hostKey) {
          drift := true;
        }
        Push(if drift then Drifted else InSync);
        return;
      }
      var row := GitCredRow(db.nextID, g.kind, Trim(g.username), Trim(g.hostKey), NoLink, "");
      match g.kind {
        case GitToken =>
          var token := ValueOf(w, g.tokenFrom);
          if token.None? { Push(Blocked); return; }
          row := row.(token := token.value);
        case GitSSH =>
          var key := db.SSHKey(g.sshKey);
          if key.None? {
            var pending := Pending(SSHKeyKind, g.sshKey);
            if !pending { Push(Blocked); return; }
          } else {
            row := row.(sshKey := LinkTo(key.value.id));
          }
      }
      if apply {
        Insert(RowKey(GitCredKind, "", g.name), GitCredIn(row));
      }
      Push(Create);
    }

    method EnsureCA(ca: CADecl) returns (ok: bool)
      requires Valid()
      modifies this
      ensures Did(CAItem(ca), ok)
    {
      ok := true;
      var key := RowKey(CAKind, "", ca.name);
      var verdict := Create;
      var existing := db.CA(ca.name);
      if existing.Some? {
        var row := existing.value;
        if ca.keyAlgo != "" && row.keyAlgo != ca.keyAlgo {
          verdict := Drifted;
        } else if !Contains(row.subject, "CN=" + Trim(ca.commonName)) {
          verdict := Drifted;
        } else if row.outboundTrust != Outbound(ca) {
          verdict := Update;
          if apply {
            Rewrite(key, CAIn(row.(outboundTrust := Outbound(ca))));
          }
        } else {
          verdict := InSync;
        }
      } else if apply {
        if w.caRefused(ca) {
          verdict := Blocked;
        } else {
          Insert(key, CAIn(NewCA(w, db.nextID, ca)));
        }
      }
      Push(verdict);
    }

    method EnsureCert(c: CertDecl) returns (ok: bool)
      requires Valid()
      modifies this
      ensures Did(CertItem(c), ok)
    {
      hide PlaceCert, Declares, RowsDistinct;
      ok := true;
      var env := "";
      if !c.shared {
        env := ResolveCluster(Effective(doc, c.cluster));
        if env == "" { Push(Blocked); return; }
      }
      var sans, usages := w.sans(c.sans), w.usages(c.usages);
      if sans.None? || usages.None? { Push(Blocked); return; }
      PlaceCertRow(env, c, sans.value, usages.value);
    }

    method PlaceCertRow(env: string, c: CertDecl, sans: string, usages: string)
      requires Valid()
      modifies this
      ensures Valid() && PlaceCert(w, doc, apply, old(db), env, c, sans, usages).db == db
      ensures !PlaceCert(w, doc, apply, old(db), env, c, sans, usages).failed
      ensures report == old(report) + [PlaceCert(w, doc, apply, old(db), env, c, sans, usages).verdict]
    {
      var key := RowKey(CertKind, env, c.name);
      var existing, ca := db.Cert(env, c.name), db.CA(c.ca);
      if existing.Some? {
        var row := existing.value;
        if sans != row.sans || (usages != "" && usages != row.usages)
           || (c.keyAlgo != "" && row.keyAlgo != c.keyAlgo)
           || (ca.Some? && row.caID != NoLink && row.caID != LinkTo(ca.value.id)) {
          Push(Drifted);
          return;
        }
        if c.renewBeforeDays == 0 || row.renewBeforeDays == c.renewBeforeDays {
          Push(InSync);
          return;
        }
        if apply {
          Rewrite(key, CertIn(row.(renewBeforeDays := c.renewBeforeDays)));
        }
        Push(Update);
        return;
      }
      if ca.None? {
        var pending := Pending(CAKind, c.ca);
        Push(if pending then Create else Blocked);
        return;
      }
      if !ca.value.canSign || (apply && w.issueRefused(c)) {
        Push(Blocked);
        return;
      }
      if apply {
        Insert(key, CertIn(NewCert(db.nextID, c, ca.value.id, sans, usages)));
      }
      Push(Create);
    }

    /** Fresh material, remembered for the rest of the walk. */
    method Mint(name: string, format: string, length: nat)
      requires Valid() && db.Generated(name).None?
      modifies this`db, this`genValues
      ensures Valid()
      ensures var row := GeneratedRow(old(db).nextID, w.mint(old(db).nextID), format, length);
        db == old(db).Insert(RowKey(GeneratedKind, "", name), GeneratedIn(row))
    {
      hide Declares, DistinctRows, RowsDistinct;
      var value := w.mint(db.nextID);
      MintingKeeps(db, name, GeneratedRow(db.nextID, value, format, length));
      db := db.Insert(RowKey(GeneratedKind, "", name), GeneratedIn(GeneratedRow(db.nextID, value, format, length)));
      genValues := genValues[name := value];
    }

    method EnsureGenerated(g: GeneratedDecl) returns (ok: bool)
      requires Valid()
      modifies this
      ensures Did(GeneratedItem(g), ok)
    {
      hide Declares, RowsDistinct;
      ok := true;
      var format, length := GeneratedFormat(g), GeneratedLength(g);
      var existing := db.Generated(g.name);
      if existing.Some? {
        Push(if existing.value.format != format || existing.value.length != length then Drifted else InSync);
        return;
      }
      if apply { Mint(g.name, format, length); }
      Push(Create);
    }

    method EnsureWebhook(h: WebhookDecl) returns (ok: bool)
      requires Valid()
      modifies this
      ensures Did(WebhookItem(h), ok)
    {
      hide Declares, RowsDistinct, Trim;
      ok := true;
      var env := "";
      if !h.shared {
        env := ResolveCluster(Effective(doc, h.cluster));
        if env == "" { Push(Blocked); return; }
      }
      var existing := db.Webhook(h.name);
      if existing.Some? {
        Push(if existing.value.env != env then Drifted else InSync);
        return;
      }
      var plain := ValueOf(w, h.secretFrom);
      if h.secretFrom != "" && plain.None? { Push(Blocked); return; }
      if apply {
        var secret := if plain.Some? then plain.value else w.mint(db.nextID);
        Insert(HookKey(h.name), WebhookIn(WebhookRow(db.nextID, env, secret)));
      }
      Push(Create);
    }

    // ── deliveries ────────────────────────────────────────────────────────────────────

    /** The names of a delivery, one after the other; the first that is nowhere ends it. */
    method FindCerts(env: string, refs: seq<CertRef>) returns (certs: Refs<Carried>)
      requires Valid()
      modifies this`declaredIdx
      ensures Valid() && certs == ResolveCerts(doc, apply, db, env, refs)
    {
      hide Declares, RowsDistinct, ResolveCerts;
      CertsDone(doc, apply, db, env, refs);
      var found: seq<Carried>, pendingRefs := [], false;
      for i := 0 to |refs|
        invariant Valid()
        invariant ResolveCerts(doc, apply, db, env, refs)
                  == After(found, pendingRefs, ResolveCerts(doc, apply, db, env, refs[i..]))
      {
        var dc := refs[i];
        CertsNext(doc, apply, db, env, refs, i, found, pendingRefs);
        var c := FindCert(db, env, dc.name);
        if c.None? {
          var pending := Pending(CertKind, dc.name);
          if !pending { return Missing; }
          pendingRefs := true;
        } else {
          found := found + [Carried(c.value.id, dc.isDefault)];
        }
      }
      return Resolved(found, pendingRefs);
    }

    method FindCAs(names: seq<string>) returns (bundle: Refs<nat>)
      requires Valid()
      modifies this`declaredIdx
      ensures Valid() && bundle == ResolveCAs(doc, apply, db, names)
    {
      hide Declares, RowsDistinct, ResolveCAs;
      CAsDone(doc, apply, db, names);
      var ids: seq<nat>, pendingRefs := [], false;
      for i := 0 to |names|
        invariant Valid()
        invariant ResolveCAs(doc, apply, db, names) == After(ids, pendingRefs, ResolveCAs(doc, apply, db, names[i..]))
      {
        var name := names[i];
        CAsNext(doc, apply, db, names, i, ids, pendingRefs);
        var ca := db.CA(name);
        if ca.None? {
          var pending := Pending(CAKind, name);
          if !pending { return Missing; }
          pendingRefs := true;
        } else {
          ids := ids + [ca.value.id];
        }
      }
      return Resolved(ids, pendingRefs);
    }

    method EnsureDelivery(d: DeliveryDecl) returns (ok: bool)
      requires Valid()
      modifies this
      ensures Did(DeliveryItem(d), ok)
    {
      ok := true;
      var env := ResolveCluster(Effective(doc, d.cluster));
      if env == "" { Push(Blocked); return; }
      var certs := FindCerts(env, d.certs);
      if certs.Missing? { Push(Blocked); return; }
      var bundle := FindCAs(d.bundleCAs);
      if bundle.Missing? { Push(Blocked); return; }
      var mount := w.mount(d.mountPath);
      if mount.None? { Push(Blocked); return; }
      ok := PlaceDeliveryRow(env, d, certs.found, bundle.found, certs.pending || bundle.pending, mount.value);
    }

    method PlaceDeliveryRow(env: string, d: DeliveryDecl, certs: seq<Carried>, bundle: seq<nat>, pending: bool,
                            mount: string)
      returns (ok: bool)
      requires Valid()
      modifies this
      ensures var s := PlaceDelivery(w, apply, old(db), env, d, certs, bundle, pending, mount);
        && Valid() && db == s.db && ok == !s.failed
        && report == old(report) + if s.failed then [] else [s.verdict]
    {
      ok := true;
      var key := RowKey(DeliveryKind, env, d.volume);
      var rows := db.Deliveries(env, d.volume);
      if |rows| > 1 { Push(Blocked); return; }
      if |rows| == 1 {
        if pending { Push(Update); return; }
        var row := rows[0];
        var certsAlike := CertSetEqual(row.certs, certs);
        var bundleAlike := BundleEqual(row.bundle, bundle);
        if certsAlike && row.mountPath == mount && row.uid == d.uid && row.gid == d.gid && row.traefik == d.traefik
           && row.restartTargets == Trim(d.restartTargets) && bundleAlike {
          Push(InSync);
          return;
        }
        if apply {
          if RepeatsCert(certs) { return false; }
          Rewrite(key, DeliveriesIn([WantedDelivery(rows[0].id, d, certs, bundle, mount)]));
        }
        Push(Update);
        return;
      }
      if env !in w.connected { Push(Blocked); return; }
      if apply {
        if (env, d.volume) in w.fleetOwned { Push(Blocked); return; }
        if RepeatsCert(certs) { return false; }
        Insert(key, DeliveriesIn([WantedDelivery(db.nextID, d, certs, bundle, mount)]));
      }
      Push(Create);
    }

    // ── webhooks of targets ───────────────────────────────────────────────────────────

    method FindNamedWebhook(name: string, env: string) returns (link: Option<Link>)
      requires Valid()
      modifies this`declaredIdx
      ensures Valid() && link == NamedWebhook(doc, apply, db, name, env)
    {
      if name == "" { return Some(NoLink); }
      var row := db.Webhook(name);
      if row.None? {
        var pending := Pending(WebhookKind, name);
        return if pending then Some(PendingLink) else None;
      }
      if row.value.env != "" && row.value.env != env { return None; }
      link := Some(LinkTo(row.value.id));
    }

    /** Tries the target's own name, then the one with its cluster, then a random suffix. */
    method PickFreeName(base: string, cluster: string) returns (name: string)
      ensures name == FreeName(w, db, base, cluster)
    {
      var candidates := [base, base + "-" + cluster];
      for i := 0 to 2
        invariant forall j :: 0 <= j < i ==> db.Webhook(candidates[j]).Some?
      {
        if db.Webhook(candidates[i]).None? {
          assert i == 1 ==> db.Webhook(candidates[0]).Some?;
          return candidates[i];
        }
      }
      assert db.Webhook(candidates[0]).Some? && db.Webhook(candidates[1]).Some?;
      name := w.suffixed(base, db.nextID);
    }

    method LinkTarget(named: Link, current: Link, auto: bool, base: string, env: string, cluster: string)
      returns (link: Link, ok: bool)
      requires Valid()
      modifies this`db
      ensures var h := TargetWebhook(w, apply, old(db), named, current, auto, base, env, cluster);
        Valid() && db == h.db && link == h.link && ok == !h.failed
    {
      if named != NoLink { return named, true; }
      if current != NoLink || !auto { return current, true; }
      if !apply { return PendingLink, true; }
      var name := PickFreeName(base, cluster);
      var key := RowKey(WebhookKind, "", name);
      if key in db.rows { return NoLink, false; }
      link, ok := LinkTo(db.nextID), true;
      Insert(key, WebhookIn(WebhookRow(db.nextID, env, w.mint(db.nextID))));
    }

    method FindCredential(name: string) returns (link: Option<Link>)
      requires Valid()
      modifies this`declaredIdx
      ensures Valid() && link == FindCred(doc, apply, db, name)
    {
      if name == "" { return Some(NoLink); }
      var row := db.GitCred(name);
      if row.Some? { return Some(LinkTo(row.value.id)); }
      var pending := Pending(GitCredKind, name);
      link := if pending then Some(NoLink) else None;
    }

    // ── stacks ────────────────────────────────────────────────────────────────────────

    method ReadEnvWants(env: seq<EnvDecl>) returns (wants: seq<Want>)
      requires Valid()
      modifies this`genValues
      ensures Valid() && wants == EnvWants(w, db, env)
    {
      wants := [];
      for i := 0 to |env|
        invariant Valid() && wants == EnvWants(w, db, env[..i])
      {
        var v := env[i];
        var intent := Open;
        if !v.secret {
          intent := Known(v.value);
        } else if v.fromGenerated != "" {
          var val := GeneratedValue(v.fromGenerated);
          intent := if val.Some? then Known(val.value) else Awaited;
        } else if v.value != "" {
          var val := ExpandGenerated(w.pieces(v.value));
          intent := if val.Some? then Known(val.value) else Awaited;
        } else {
          intent := Submitted(w, v.valueFromEnv);
        }
        wants := wants + [Want(v.key, v.secret, intent, true)];
        assert env[..i + 1] == env[..i] + [v];
      }
      assert env[..|env|] == env;
    }

    method ReadFileWants(files: seq<SecretFileDecl>) returns (wants: seq<Want>)
      requires Valid()
      modifies this`genValues
      ensures Valid() && wants == FileWants(w, db, files)
    {
      wants := [];
      for i := 0 to |files|
        invariant Valid() && wants == FileWants(w, db, files[..i])
      {
        var f := files[i];
        var intent := Open;
        if f.valueFromEnv != "" {
          intent := Submitted(w, f.valueFromEnv);
        } else if f.fromGenerated != "" {
          var val := GeneratedValue(f.fromGenerated);
          intent := if val.Some? then Known(val.value) else Awaited;
        } else if f.value != "" {
          var val := ExpandGenerated(w.pieces(f.value));
          intent := if val.Some? then Known(val.value) else Awaited;
        }
        wants := wants + [Want(f.name, true, intent, false)];
        assert files[..i + 1] == files[..i] + [f];
      }
      assert files[..|files|] == files;
    }

    method WriteStack(key: RowKey, row: StackRow)
      requires Valid() && key.kind == StackKind && DistinctRows(row.env) && DistinctRows(row.secrets)
      modifies this`db
      ensures Valid() && db == old(db).Update(key, StackIn(row))
    {
      db := db.Update(key, StackIn(row));
    }

    /** Merging the declared variables into the stored ones; nothing is written unless something changed. */
    method EnsureStackEnv(key: RowKey, cur: StackRow, st: StackDecl) returns (next: StackRow, changed: bool)
      requires Valid() && key.kind == StackKind && DistinctRows(cur.env) && DistinctRows(cur.secrets)
      requires apply ==> key in db.rows && db.rows[key] == StackIn(cur)
      modifies this`db, this`genValues
      ensures Valid() && changed == EnvMerged(w, old(db), st, cur).changed
      ensures next == cur.(env := EnvMerged(w, old(db), st, cur).rows) && DistinctRows(next.env)
      ensures db == if apply then old(db).Update(key, StackIn(next)) else old(db)
    {
      hide EnvWant, FileWant, Declares;
      if apply { UpdateSame(db, key, StackIn(cur)); }
      if st.env == [] { return cur, false; }
      var wants := ReadEnvWants(st.env);
      var rows;
      rows, changed := MergeSlots(cur.env, wants);
      MergeKeepsDistinct(cur.env, wants);
      next := cur.(env := rows);
      if changed && apply { WriteStack(key, next); }
    }

    /** Converging the secret files the declaration owns; undeclared rows are kept. */
    method EnsureStackSecrets(key: RowKey, cur: StackRow, st: StackDecl) returns (next: StackRow, changed: bool)
      requires Valid() && key.kind == StackKind && DistinctRows(cur.env) && DistinctRows(cur.secrets)
      requires apply ==> key in db.rows && db.rows[key] == StackIn(cur)
      modifies this`db, this`genValues
      ensures Valid() && changed == FilesMerged(w, old(db), st, cur).changed
      ensures next == cur.(secrets := FilesMerged(w, old(db), st, cur).rows) && DistinctRows(next.secrets)
      ensures db == if apply then old(db).Update(key, StackIn(next)) else old(db)
    {
      hide EnvWant, FileWant, Declares;
      if apply { UpdateSame(db, key, StackIn(cur)); }
      var wants := ReadFileWants(st.files);
      var rows;
      rows, changed := MergeSlots(cur.secrets, wants);
      MergeKeepsDistinct(cur.secrets, wants);
      next := cur.(secrets := rows);
      if changed && apply { WriteStack(key, next); }
    }

    /** Source and push settings, the target's own webhook made on the way. */
    method ConvergePush(key: RowKey, env: string, st: StackDecl, cluster: string, cred: Link, named: Link,
                        row: StackRow, created: bool)
      returns (next: StackRow, changed: bool, ok: bool)
      requires Valid() && key == RowKey(StackKind, env, st.name) && key in db.rows && db.rows[key] == StackIn(row)
      requires created ==> row.source == StackCols(st.source, cred)
      modifies this`db
      ensures Valid()
      ensures var source := StackCols(st.source, cred);
        var auto := st.autoDeploy && st.source.FromGit?;
        var hook := TargetWebhook(w, apply, old(db), named, row.webhook, auto, st.name, env, cluster);
        && ok == !hook.failed
        && (!ok ==>
             db == if apply && row.source != source
                   then old(db).Update(key, StackIn(row.(source := source))) else old(db))
        && (ok ==>
             && next == row.(source := source, autoDeploy := st.autoDeploy, watchPaths := st.watchPaths,
                             webhook := hook.link)
             && changed == (next != row)
             && db == if apply then hook.db.Update(key, StackIn(next)) else hook.db)
    {
      hide StackCols, FreeName, DistinctRows, Declares, TargetWebhook;
      var source := StackCols(st.source, cred);
      var auto := st.autoDeploy && st.source.FromGit?;
      ghost var db0 := db;
      ghost var hook := TargetWebhook(w, apply, db0, named, row.webhook, auto, st.name, env, cluster);
      RowsAreDistinct(db0, key, row);
      UpdateSame(db0, key, StackIn(row));
      next, changed := row, false;
      if !created && row.source != source {
        changed, next := true, row.(source := source);
        if apply { WriteStack(key, next); }
      }
      HookCommutes(w, apply, db0, key, StackIn(next), named, row.webhook, auto, st.name, env, cluster);
      var link;
      link, ok := LinkTarget(named, row.webhook, auto, st.name, env, cluster);
      if !ok { return; }
      HookCommutes(w, apply, db0, key, StackIn(row), named, row.webhook, auto, st.name, env, cluster);
      if next.autoDeploy != st.autoDeploy || next.watchPaths != st.watchPaths || next.webhook != link {
        UpdateTwice(hook.db, key, StackIn(next),
                    StackIn(next.(autoDeploy := st.autoDeploy, webhook := link, watchPaths := st.watchPaths)));
        changed, next := true, next.(autoDeploy := st.autoDeploy, webhook := link, watchPaths := st.watchPaths);
        if apply { WriteStack(key, next); }
      }
    }

    /** Converging a stack row field by field, each write on its own. */
    method ConvergeRow(env: string, st: StackDecl, cluster: string, cred: Link, named: Link, row: StackRow,
                       created: bool)
      returns (ok: bool)
      requires Valid() && db.Stack(env, st.name) == Some(row)
      requires created ==> row.source == StackCols(st.source, cred)
      modifies this
      ensures var s := ConvergeStack(w, apply, old(db), env, st, cluster, cred, named, row, created);
        && Valid() && db == s.db && ok == !s.failed
        && report == old(report) + if s.failed then [] else [s.verdict]
    {
      hide StackCols, Merge, DistinctRows, Declares, EnvWants, FileWants, TargetWebhook, RowsDistinct, IsFreeName;
      var key := RowKey(StackKind, env, st.name);
      ghost var db0 := db;
      ghost var auto := st.autoDeploy && st.source.FromGit?;
      ghost var hook := TargetWebhook(w, apply, db0, named, row.webhook, auto, st.name, env, cluster);
      RowsAreDistinct(db0, key, row);
      HookTouches(w, apply, db0, named, row.webhook, auto, st.name, env, cluster);
      var cur, changed;
      cur, changed, ok := ConvergePush(key, env, st, cluster, cred, named, row, created);
      if !ok { return; }
      WantsAgree(w, db0, db, st);
      ghost var a := cur;
      Converged(w, apply, db0, env, st, cluster, cred, named, row, created, a);
      hide ConvergeStack, WantedStack, StackChanges;
      var envChanged, filesChanged;
      cur, envChanged := EnsureStackEnv(key, cur, st);
      UpdateTwice(hook.db, key, StackIn(a), StackIn(cur));
      WantsAgree(w, db0, db, st);
      ghost var b := cur;
      cur, filesChanged := EnsureStackSecrets(key, cur, st);
      UpdateTwice(hook.db, key, StackIn(b), StackIn(cur));
      changed := changed || envChanged || filesChanged;
      Push(if created then Create else if changed then Update else InSync);
    }

    method CreateStack(env: string, st: StackDecl, cred: Link) returns (row: StackRow)
      requires Valid()
      modifies this`db
      ensures Valid() && row == NewStack(old(db), st, cred) && db == AddStack(old(db), env, st, cred)
      ensures row.source == StackCols(st.source, cred) && db.Stack(env, st.name) == Some(row)
    {
      AddedIsDistinct(db, env, st, cred);
      row := NewStack(db, st, cred);
      db := AddStack(db, env, st, cred);
    }

    /** Placement of a new stack, or the two differences an existing one cannot converge. */
    method PlaceStackRow(env: string, st: StackDecl, cluster: string, cred: Link, named: Link) returns (ok: bool)
      requires Valid()
      modifies this
      ensures var s := PlaceStack(w, apply, old(db), env, st, cluster, cred, named);
        && Valid() && db == s.db && ok == !s.failed
        && report == old(report) + if s.failed then [] else [s.verdict]
    {
      hide ConvergeStack, StackCols, Declares, DistinctRows, NewStack, AddStack, RowsDistinct;
      ok := true;
      var existing := db.Stack(env, st.name);
      if existing.Some? {
        if existing.value.engine != st.engine { Push(Drifted); return; }
        if existing.value.source.isGit && st.source.Inline? && st.source.compose != "" { Push(Drifted); return; }
        ok := ConvergeRow(env, st, cluster, cred, named, existing.value, false);
        return;
      }
      if env !in w.connected { Push(Blocked); return; }
      if st.engine == "swarm" {
        if env !in w.swarms { Push(Blocked); return; }
      } else if env !in w.single { Push(Blocked); return; }
      if !apply { Push(Create); return; }
      var row := CreateStack(env, st, cred);
      ok := ConvergeRow(env, st, cluster, cred, named, row, true);
    }

    method EnsureStack(st: StackDecl) returns (ok: bool)
      requires Valid()
      modifies this
      ensures Did(StackItem(st), ok)
    {
      hide PlaceStack, Declares, RowsDistinct;
      ok := true;
      var cluster := Effective(doc, st.cluster);
      var env := ResolveCluster(cluster);
      if env == "" { Push(Blocked); return; }
      var cred := FindCredential(CredName(st.source));
      if cred.None? { Push(Blocked); return; }
      var named := FindNamedWebhook(st.webhook, env);
      if named.None? { Push(Blocked); return; }
      ok := PlaceStackRow(env, st, cluster, cred.value, named.value);
    }

    // ── volume sources ────────────────────────────────────────────────────────────────

    method FindLinkedStack(env: string, name: string) returns (link: Option<Link>)
      requires Valid()
      modifies this`declaredIdx
      ensures Valid() && link == FindStack(doc, apply, db, env, name)
    {
      if name == "" { return Some(NoLink); }
      var row := db.Stack(env, name);
      if row.Some? { return Some(LinkTo(row.value.id)); }
      var pending := Pending(StackKind, name);
      link := if pending then Some(NoLink) else None;
    }

    method LinkVol(v: VolDecl, named: Link, current: Link, env: string, cluster: string) returns (link: Link, ok: bool)
      requires Valid()
      modifies this`db
      ensures var h := VolHook(w, apply, old(db), v, named, current, env, cluster);
        Valid() && db == h.db && link == h.link && ok == !h.failed && (h.failed ==> db == old(db))
    {
      hide RowsDistinct, TargetWebhook;
      if v.content.InlineContent? { return NoLink, true; }
      FailedHookKeeps(w, apply, db, named, current, v.autoSync, "volume-" + v.volume, env, cluster);
      link, ok := LinkTarget(named, current, v.autoSync, "volume-" + v.volume, env, cluster);
    }

    method PlaceVolRow(env: string, v: VolDecl, cluster: string, cred: Link, stack: Link, named: Link)
      returns (ok: bool)
      requires Valid()
      modifies this
      ensures var s := PlaceVol(w, apply, old(db), env, v, cluster, cred, stack, named);
        && Valid() && db == s.db && ok == !s.failed
        && report == old(report) + if s.failed then [] else [s.verdict]
    {
      hide VolHook, WantedVol, Declares, RowsDistinct, SameFiles;
      ok := true;
      var key := RowKey(VolKind, env, v.volume);
      var existing := db.Vol(env, v.volume);
      if existing.None? && !apply { Push(Create); return; }
      var current := if existing.Some? then existing.value.webhook else NoLink;
      var link;
      link, ok := LinkVol(v, named, current, env, cluster);
      if !ok { return; }
      if existing.None? {
        Insert(key, VolIn(WantedVol(v, cred, stack, link, db.nextID, [])));
        Push(Create);
        return;
      }
      var want := WantedVol(v, cred, stack, link, existing.value.id, existing.value.files);
      var filesAlike := true;
      if v.content.InlineContent? { filesAlike := VolFilesEqual(existing.value.files, want.files); }
      WantedKind(v, cred, stack, link, existing.value.id, existing.value.files);
      if want.(files := existing.value.files) == existing.value && filesAlike { Push(InSync); return; }
      if apply { Rewrite(key, VolIn(want)); }
      Push(Update);
    }

    method EnsureVol(v: VolDecl) returns (ok: bool)
      requires Valid()
      modifies this
      ensures Did(VolItem(v), ok)
    {
      hide PlaceVol, Declares, RowsDistinct, DeliveryOwns;
      ok := true;
      var cluster := Effective(doc, v.cluster);
      var env := ResolveCluster(cluster);
      if env == "" { Push(Blocked); return; }
      var cred := FindCredential(VolCred(v));
      if cred.None? { Push(Blocked); return; }
      var stack := FindLinkedStack(env, v.stack);
      if stack.None? { Push(Blocked); return; }
      var named := FindNamedWebhook(v.webhook, env);
      if named.None? { Push(Blocked); return; }
      if Refused(w, db, env, v.volume, VolFiles(v)) { Push(Blocked); return; }
      ok := PlaceVolRow(env, v, cluster, cred.value, stack.value, named.value);
    }

    // ── the walk ──────────────────────────────────────────────────────────────────────

    method EnsureItem(x: Item) returns (ok: bool)
      requires Valid()
      modifies this
      ensures Did(x, ok)
    {
      hide Ensure;
      match x
      case SSHKeyItem(k) => ok := EnsureSSHKey(k);
      case GitCredItem(g) => ok := EnsureGitCred(g);
      case CAItem(ca) => ok := EnsureCA(ca);
      case CertItem(c) => ok := EnsureCert(c);
      case DeliveryItem(d) => ok := EnsureDelivery(d);
      case GeneratedItem(g) => ok := EnsureGenerated(g);
      case WebhookItem(h) => ok := EnsureWebhook(h);
      case StackItem(st) => ok := EnsureStack(st);
      case VolItem(v) => ok := EnsureVol(v);
    }

    /** Every resource in order; the first error ends the walk and keeps what was written. */
    method WalkAll() returns (ok: bool)
      requires Valid()
      modifies this
      ensures var r := Walk(w, doc, apply, old(db), doc.items);
        Valid() && db == r.db && report == old(report) + r.verdicts && ok == !r.failed
    {
      hide Ensure;
      ghost var start, before := db, report;
      ghost var whole := Walk(w, doc, apply, db, doc.items);
      for i := 0 to |doc.items|
        invariant Valid()
        invariant var rest := Walk(w, doc, apply, db, doc.items[i..]);
          before + whole.verdicts == report + rest.verdicts && whole.db == rest.db && whole.failed == rest.failed
      {
        var x := doc.items[i];
        assert doc.items[i..][0] == x && doc.items[i..][1..] == doc.items[i + 1..];
        ok := EnsureItem(x);
        if !ok { return; }
      }
      ok := true;
    }
  }

  lemma WantedKind(v: VolDecl, cred: Link, stack: Link, hook: Link, id: nat, kept: seq<VolFile>)
    ensures WantedVol(v, cred, stack, hook, id, kept).source.isGit == v.content.GitContent?
  {
  }

  /** What was resolved so far, followed by the rest. */
  function After<T>(found: seq<T>, pending: bool, rest: Refs<T>): Refs<T> {
    if rest.Missing? then Missing else Resolved(found + rest.found, pending || rest.pending)
  }

  lemma MintingKeeps(db: Store, name: string, row: GeneratedRow)
    requires RowsDistinct(db)
    ensures var t := db.Insert(RowKey(GeneratedKind, "", name), GeneratedIn(row));
      RowsDistinct(t) && forall n :: t.Generated(n) == if n == name then Some(row) else db.Generated(n)
  {
    hide DistinctRows;
  }

  lemma CertsDone(doc: Doc, apply: bool, db: Store, env: string, refs: seq<CertRef>)
    ensures ResolveCerts(doc, apply, db, env, refs[|refs|..]) == Resolved([], false) && refs[0..] == refs
  {
  }

  lemma CertsNext(doc: Doc, apply: bool, db: Store, env: string, refs: seq<CertRef>, i: nat, found: seq<Carried>,
                  pending: bool)
    requires i < |refs|
    ensures var c := FindCert(db, env, refs[i].name); var rest := ResolveCerts(doc, apply, db, env, refs[i + 1..]);
      After(found, pending, ResolveCerts(doc, apply, db, env, refs[i..])) ==
      if c.Some? then After(found + [Carried(c.value.id, refs[i].isDefault)], pending, rest)
      else if apply || !Declares(doc, CertKind, refs[i].name) then Missing
      else After(found, true, rest)
  {
    hide Declares, FindCert;
    assert refs[i..][0] == refs[i] && refs[i..][1..] == refs[i + 1..];
  }

  lemma CAsDone(doc: Doc, apply: bool, db: Store, names: seq<string>)
    ensures ResolveCAs(doc, apply, db, names[|names|..]) == Resolved([], false) && names[0..] == names
  {
  }

  lemma CAsNext(doc: Doc, apply: bool, db: Store, names: seq<string>, i: nat, found: seq<nat>, pending: bool)
    requires i < |names|
    ensures var ca := db.CA(names[i]); var rest := ResolveCAs(doc, apply, db, names[i + 1..]);
      After(found, pending, ResolveCAs(doc, apply, db, names[i..])) ==
      if ca.Some? then After(found + [ca.value.id], pending, rest)
      else if apply || !Declares(doc, CAKind, names[i]) then Missing
      else After(found, true, rest)
  {
    hide Declares;
    assert names[i..][0] == names[i] && names[i..][1..] == names[i + 1..];
  }

  /** What converging a row comes to, once its webhook is known. */
  lemma Converged(w: World, apply: bool, db: Store, env: string, st: StackDecl, cluster: string, cred: Link,
                  named: Link, row: StackRow, created: bool, push: StackRow)
    requires DistinctRows(row.env) && DistinctRows(row.secrets) && db.Stack(env, st.name) == Some(row)
    requires var auto := st.autoDeploy && st.source.FromGit?;
      var hook := TargetWebhook(w, apply, db, named, row.webhook, auto, st.name, env, cluster);
      !hook.failed
      && push == row.(source := StackCols(st.source, cred), autoDeploy := st.autoDeploy, watchPaths := st.watchPaths,
                      webhook := hook.link)
    ensures var auto := st.autoDeploy && st.source.FromGit?;
      var hook := TargetWebhook(w, apply, db, named, row.webhook, auto, st.name, env, cluster);
      var key := RowKey(StackKind, env, st.name);
      var e, f := EnvMerged(w, db, st, row), FilesMerged(w, db, st, row);
      var changed := push != row || e.changed || f.changed;
      ConvergeStack(w, apply, db, env, st, cluster, cred, named, row, created)
      == Step(if apply then hook.db.Update(key, StackIn(push.(env := e.rows, secrets := f.rows))) else hook.db,
              if created then Create else if changed then Update else InSync, false)
  {
    hide EnvMerged, FilesMerged, StackCols, TargetWebhook, IsFreeName;
    var auto := st.autoDeploy && st.source.FromGit?;
    var hook := TargetWebhook(w, apply, db, named, row.webhook, auto, st.name, env, cluster);
    var key := RowKey(StackKind, env, st.name);
    HookTouches(w, apply, db, named, row.webhook, st.autoDeploy && st.source.FromGit?, st.name, env, cluster);
    UnchangedRow(w, db, st, row);
    UpdateSame(hook.db, key, StackIn(row));
  }

  lemma RowsAreDistinct(db: Store, k: RowKey, row: StackRow)
    requires RowsDistinct(db) && k.kind == StackKind && k in db.rows && db.rows[k] == StackIn(row)
    ensures DistinctRows(row.env) && DistinctRows(row.secrets)
  {
  }

  lemma UpdateSame(db: Store, k: RowKey, row: Row)
    requires k in db.rows && db.rows[k] == row
    ensures db.Update(k, row) == db
  {
    assert db.rows[k := row] == db.rows;
  }

  lemma UpdateTwice(db: Store, k: RowKey, a: Row, b: Row)
    ensures db.Update(k, a).Update(k, b) == db.Update(k, b)
  {
    assert db.rows[k := a][k := b] == db.rows[k := b];
  }

  /** Picking or making a webhook commutes with writing a stack row. */
  lemma HookCommutes(w: World, apply: bool, db: Store, k: RowKey, row: Row, named: Link, current: Link, auto: bool,
                     base: string, env: string, cluster: string)
    requires k.kind == StackKind && k in db.rows
    ensures var h := TargetWebhook(w, apply, db, named, current, auto, base, env, cluster);
      && TargetWebhook(w, apply, db.Update(k, row), named, current, auto, base, env, cluster)
         == Hooked(h.db.Update(k, row), h.link, h.failed)
      && (h.failed ==> h.db == db)
      && k in h.db.rows && h.db.rows[k] == db.rows[k]
  {
    var db' := db.Update(k, row);
    var name := FreeName(w, db, base, cluster);
    assert FreeName(w, db', base, cluster) == name;
    var hookKey := RowKey(WebhookKind, "", name);
    var hookRow := WebhookIn(WebhookRow(db.nextID, env, w.mint(db.nextID)));
    assert db.rows[hookKey := hookRow][k := row] == db.rows[k := row][hookKey := hookRow];
  }

  lemma UnchangedRow(w: World, db: Store, st: StackDecl, row: StackRow)
    requires DistinctRows(row.env) && DistinctRows(row.secrets)
    ensures !EnvMerged(w, db, st, row).changed ==> EnvMerged(w, db, st, row).rows == row.env
    ensures !FilesMerged(w, db, st, row).changed ==> FilesMerged(w, db, st, row).rows == row.secrets
  {
    MergeKeepsDistinct(row.env, EnvWants(w, db, st.env));
    MergeKeepsDistinct(row.secrets, FileWants(w, db, st.files));
  }

  lemma AddedIsDistinct(db: Store, env: string, st: StackDecl, cred: Link)
    requires RowsDistinct(db)
    ensures RowsDistinct(AddStack(db, env, st, cred)) && NewStack(db, st, cred).source == StackCols(st.source, cred)
    ensures AddStack(db, env, st, cred).Stack(env, st.name) == Some(NewStack(db, st, cred))
  {
  }

  lemma FailedHookKeeps(w: World, apply: bool, db: Store, named: Link, current: Link, auto: bool,
                        base: string, env: string, cluster: string)
    ensures var h := TargetWebhook(w, apply, db, named, current, auto, base, env, cluster); h.failed ==> h.db == db
  {
  }
}
