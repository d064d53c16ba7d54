/** What in sync means, said of the stored rows alone; and that an apply leaves every resource it
    did not block or find drifted so, without touching what it must not. */
module ManifestConverges {
  import opened Wrappers
  import opened ManifestModel
  import opened Text
  import opened SlotMerge
  import opened Comparisons
  import opened ManifestSpec
  import opened ManifestFrame
  import opened ManifestFixpoint
  import opened ManifestAgreement
  import opened ManifestDeclared
  import opened ManifestReads

  // ── what the walk compares with ─────────────────────────────────────────────────────

  ghost predicate StackMet(w: World, doc: Doc, db: Store, st: StackDecl) {
    var env := EnvOf(w, Effective(doc, st.cluster));
    && env.Some? && db.Stack(env.value, st.name).Some?
    && var row := db.Stack(env.value, st.name).value;
    && var cred, named := FindCred(doc, true, db, CredName(st.source)),
       NamedWebhook(doc, true, db, st.webhook, env.value);
    && cred.Some? && named.Some?
    && row.engine == st.engine && row.source == StackCols(st.source, cred.value)
    && row.autoDeploy == st.autoDeploy && row.watchPaths == st.watchPaths
    && LinkedAs(named.value, row.webhook, st.autoDeploy && st.source.FromGit?)
    && (forall v :: v in EnvWants(w, db, st.env) ==> SlotAs(row.env, v))
    && (forall f :: f in FileWants(w, db, st.files) ==> SlotAs(row.secrets, f))
  }

  predicate VolMet(w: World, doc: Doc, db: Store, v: VolDecl) {
    var env := EnvOf(w, Effective(doc, v.cluster));
    && env.Some? && db.Vol(env.value, v.volume).Some? && !Refused(w, db, env.value, v.volume, VolFiles(v))
    && var row := db.Vol(env.value, v.volume).value;
    && var cred, stack := FindCred(doc, true, db, VolCred(v)), FindStack(doc, true, db, env.value, v.stack);
    && var named := NamedWebhook(doc, true, db, v.webhook, env.value);
    && cred.Some? && stack.Some? && named.Some?
    && row.source == VolCols(v, cred.value) && row.stack == stack.value
    && (row.uid, row.gid, row.restartTargets) == (v.uid, v.gid, Trim(v.restartTargets))
    && row.autoSync == (v.content.GitContent? && v.autoSync)
    && (if v.content.GitContent? then LinkedAs(named.value, row.webhook, v.autoSync)
        else row.webhook == NoLink && SameFiles(row.files, v.content.files))
  }

  predicate DeliveryMet(w: World, doc: Doc, db: Store, d: DeliveryDecl) {
    var env := EnvOf(w, Effective(doc, d.cluster));
    && env.Some? && w.mount(d.mountPath).Some? && |db.Deliveries(env.value, d.volume)| == 1
    && var row := db.Deliveries(env.value, d.volume)[0];
    && var certs, bundle := ResolveCerts(doc, true, db, env.value, d.certs), ResolveCAs(doc, true, db, d.bundleCAs);
    && certs.Resolved? && bundle.Resolved?
    && multiset(row.certs) == multiset(certs.found) && multiset(row.bundle) == multiset(bundle.found)
    && row.mountPath == w.mount(d.mountPath).value && row.restartTargets == Trim(d.restartTargets)
    && (row.uid, row.gid, row.traefik) == (d.uid, d.gid, d.traefik)
  }

  lemma StackMetExactly(w: World, doc: Doc, db: Store, st: StackDecl)
    requires Minted(w, db, StackItem(st)) && RowsDistinct(db)
    ensures StackMet(w, doc, db, st) <==> StackAs(w, doc, db, st)
  {
    var env := EnvOf(w, Effective(doc, st.cluster));
    if env.Some? && db.Stack(env.value, st.name).Some? {
      var row := db.Stack(env.value, st.name).value;
      SourceExactly(doc, db, st.source, row.source);
      HookExactly(doc, db, env.value, st.webhook, st.autoDeploy && st.source.FromGit?, row.webhook);
      SlotsExactly(w, db, st, row.env, row.secrets);
      hide FindCred, NamedWebhook, StackCols, SourceAs, LinkedAs, HookAs, VarAs, FileAs, SlotAs, EnvWants, FileWants;
    }
  }

  lemma SlotsExactly(w: World, db: Store, st: StackDecl, env: seq<SlotRow>, secrets: seq<SlotRow>)
    requires Minted(w, db, StackItem(st)) && DistinctRows(env) && DistinctRows(secrets)
    ensures (forall v :: v in EnvWants(w, db, st.env) ==> SlotAs(env, v))
            <==> forall v :: v in st.env ==> VarAs(w, db, env, v)
    ensures (forall f :: f in FileWants(w, db, st.files) ==> SlotAs(secrets, f))
            <==> forall f :: f in st.files ==> FileAs(w, db, secrets, f)
  {
    var vars, files := EnvWants(w, db, st.env), FileWants(w, db, st.files);
    forall i | 0 <= i < |st.env| ensures SlotAs(env, vars[i]) <==> VarAs(w, db, env, st.env[i]) {
      VarExactly(w, db, env, st.env[i]);
    }
    forall i | 0 <= i < |st.files| ensures SlotAs(secrets, files[i]) <==> FileAs(w, db, secrets, st.files[i]) {
      FileExactly(w, db, secrets, st.files[i]);
    }
    hide SlotAs, VarAs, FileAs, EnvWant, FileWant;
    assert forall i :: 0 <= i < |vars| ==> vars[i] in vars && st.env[i] in st.env;
    assert forall i :: 0 <= i < |files| ==> files[i] in files && st.files[i] in st.files;
  }

  lemma VolMetExactly(w: World, doc: Doc, db: Store, v: VolDecl)
    ensures VolMet(w, doc, db, v) <==> VolAs(w, doc, db, v)
  {
    var env := EnvOf(w, Effective(doc, v.cluster));
    if env.Some? && db.Vol(env.value, v.volume).Some? {
      var row := db.Vol(env.value, v.volume).value;
      VolSourceExactly(doc, db, v, row.source);
      StackLinkExactly(doc, db, env.value, v.stack, row.stack);
      HookExactly(doc, db, env.value, v.webhook, v.autoSync, row.webhook);
      FreeExactly(w, db, env.value, v);
      if v.content.InlineContent? { FilesExactly(row.files, v.content.files); }
      hide FindCred, FindStack, NamedWebhook, VolCols, GitAs, StackLinkAs, LinkedAs, HookAs, HookFound, Refused, Free,
           SameFiles, FilesAs, Trim;
    }
  }

  lemma DeliveryMetExactly(w: World, doc: Doc, db: Store, d: DeliveryDecl)
    ensures DeliveryMet(w, doc, db, d) <==> DeliveryAs(w, doc, db, d)
  {
    var env := EnvOf(w, Effective(doc, d.cluster));
    if env.Some? {
      forall certs
        ensures ResolveCerts(doc, true, db, env.value, d.certs) == Resolved(certs, false)
                <==> CarriesAs(db, env.value, d.certs, certs)
      {
        CarriesExactly(doc, db, env.value, d.certs, certs);
        NothingPending(doc, db, env.value, d.certs, d.bundleCAs);
      }
      forall bundle: seq<nat>
        ensures ResolveCAs(doc, true, db, d.bundleCAs) == Resolved(bundle, false) <==> BundleAs(db, d.bundleCAs, bundle)
      {
        BundleExactly(doc, db, d.bundleCAs, bundle);
        NothingPending(doc, db, env.value, d.certs, d.bundleCAs);
      }
      NothingPending(doc, db, env.value, d.certs, d.bundleCAs);
      hide ResolveCerts, ResolveCAs, CarriesAs, BundleAs, Trim;
    }
  }

  // ── in sync is exactly that ─────────────────────────────────────────────────────────

  /** A merge finds nothing to do exactly when every declared slot is satisfied. */
  lemma SatisfiedExactly(rows: seq<SlotRow>, wants: seq<Want>)
    requires DistinctRows(rows) && DistinctWants(wants)
    requires forall i :: 0 <= i < |wants| ==> !wants[i].intent.Awaited?
    ensures !Merge(rows, wants).changed <==> forall v :: v in wants ==> SlotAs(rows, v)
  {
    ChangedIsHonest(rows, wants);
    if !Merge(rows, wants).changed {
      forall v | v in wants ensures SlotAs(rows, v) {
        var i :| 0 <= i < |wants| && wants[i] == v;
        MergeLookup(rows, wants, v.key);
      }
    }
    if forall v :: v in wants ==> SlotAs(rows, v) {
      assert forall i :: 0 <= i < |wants| ==> wants[i] in wants;
      LandedStays(rows, wants);
    }
  }

  lemma LinkExactly(w: World, db: Store, named: Link, has: Link, auto: bool, base: string, env: string, cluster: string)
    ensures var h := TargetWebhook(w, true, db, named, has, auto, base, env, cluster);
      !h.failed && h.db == db && h.link == has <==> LinkedAs(named, has, auto)
  {
    HookTouches(w, true, db, named, has, auto, base, env, cluster);
  }

  lemma StackRests(w: World, db: Store, env: string, st: StackDecl, cluster: string, cred: Link, named: Link,
                   row: StackRow)
    requires DistinctKeys(st.env) && DistinctFiles(st.files) && Minted(w, db, StackItem(st))
    requires DistinctRows(row.env) && DistinctRows(row.secrets)
    ensures ConvergeStack(w, true, db, env, st, cluster, cred, named, row, false) == Step(db, InSync, false) <==>
      && row.source == StackCols(st.source, cred) && row.autoDeploy == st.autoDeploy && row.watchPaths == st.watchPaths
      && LinkedAs(named, row.webhook, st.autoDeploy && st.source.FromGit?)
      && (forall v :: v in EnvWants(w, db, st.env) ==> SlotAs(row.env, v))
      && (forall f :: f in FileWants(w, db, st.files) ==> SlotAs(row.secrets, f))
  {
    hide StackCols, WantedStack, TargetWebhook, LinkedAs, Merge, SlotAs, EnvWant, FileWant;
    LinkExactly(w, db, named, row.webhook, st.autoDeploy && st.source.FromGit?, st.name, env, cluster);
    WantsDistinct(w, db, st);
    SatisfiedExactly(row.env, EnvWants(w, db, st.env));
    SatisfiedExactly(row.secrets, FileWants(w, db, st.files));
  }

  lemma StackExactly(w: World, doc: Doc, db: Store, st: StackDecl)
    requires ItemOK(StackItem(st)) && Minted(w, db, StackItem(st)) && RowsDistinct(db)
    ensures Calm(w, doc, db, StackItem(st), InSync) <==> StackMet(w, doc, db, st)
  {
    hide ConvergeStack, LinkedAs, SlotAs, Minted, EnvWants, FileWants, DistinctKeys, DistinctFiles;
    var cluster := Effective(doc, st.cluster);
    var env := EnvOf(w, cluster);
    if env.Some? {
      var cred := FindCred(doc, true, db, CredName(st.source));
      var named := NamedWebhook(doc, true, db, st.webhook, env.value);
      if cred.Some? && named.Some? {
        var row := db.Stack(env.value, st.name);
        if row.Some? {
          StackRests(w, db, env.value, st, cluster, cred.value, named.value, row.value);
        } else {
          CreatedIsNotCalm(w, AddStack(db, env.value, st, cred.value), env.value, st, cluster, cred.value, named.value,
                           NewStack(db, st, cred.value));
        }
      }
    }
  }

  lemma PlaceVolExactly(w: World, db: Store, env: string, v: VolDecl, cluster: string, cred: Link, stack: Link,
                        named: Link)
    ensures PlaceVol(w, true, db, env, v, cluster, cred, stack, named) == Step(db, InSync, false) <==>
      && db.Vol(env, v.volume).Some?
      && var row := db.Vol(env, v.volume).value;
      && row.source == VolCols(v, cred) && row.stack == stack
      && (row.uid, row.gid, row.restartTargets) == (v.uid, v.gid, Trim(v.restartTargets))
      && row.autoSync == (v.content.GitContent? && v.autoSync)
      && (if v.content.GitContent? then LinkedAs(named, row.webhook, v.autoSync)
          else row.webhook == NoLink && SameFiles(row.files, v.content.files))
  {
    hide VolCols, TargetWebhook, LinkedAs, Trim, SameFiles, VolMatches, WantedVol;
    var row := db.Vol(env, v.volume);
    if row.Some? {
      var hook := VolHook(w, true, db, v, named, row.value.webhook, env, cluster);
      MatchesExactly(row.value, v, cred, stack, hook.link);
      LinkExactly(w, db, named, row.value.webhook, v.autoSync, "volume-" + v.volume, env, cluster);
    }
  }

  lemma MatchesExactly(row: VolRow, v: VolDecl, cred: Link, stack: Link, hook: Link)
    ensures VolMatches(row, WantedVol(v, cred, stack, hook, row.id, row.files)) <==>
      && row.source == VolCols(v, cred) && row.stack == stack && row.webhook == hook
      && (row.uid, row.gid, row.restartTargets) == (v.uid, v.gid, Trim(v.restartTargets))
      && row.autoSync == (v.content.GitContent? && v.autoSync)
      && (v.content.InlineContent? ==> SameFiles(row.files, v.content.files))
  {
    assert VolCols(v, cred).isGit == v.content.GitContent?;
    hide VolCols, Trim, SameFiles;
  }

  lemma VolExactly(w: World, doc: Doc, db: Store, v: VolDecl)
    ensures Calm(w, doc, db, VolItem(v), InSync) <==> VolMet(w, doc, db, v)
  {
    hide PlaceVol, Refused, LinkedAs, SameFiles, VolCols, Trim;
    var cluster := Effective(doc, v.cluster);
    var env := EnvOf(w, cluster);
    if env.Some? {
      var cred := FindCred(doc, true, db, VolCred(v));
      var stack := FindStack(doc, true, db, env.value, v.stack);
      var named := NamedWebhook(doc, true, db, v.webhook, env.value);
      if cred.Some? && stack.Some? && named.Some? {
        PlaceVolExactly(w, db, env.value, v, cluster, cred.value, stack.value, named.value);
      }
    }
  }

  lemma DeliveryExactly(w: World, doc: Doc, db: Store, d: DeliveryDecl)
    ensures Calm(w, doc, db, DeliveryItem(d), InSync) <==> DeliveryMet(w, doc, db, d)
  {
    hide ResolveCerts, ResolveCAs, RepeatsCert, Trim;
    var env := EnvOf(w, Effective(doc, d.cluster));
    if env.Some? { NothingPending(doc, db, env.value, d.certs, d.bundleCAs); }
  }

  lemma CertExactly(w: World, doc: Doc, db: Store, c: CertDecl)
    ensures Calm(w, doc, db, CertItem(c), InSync) <==> CertAs(w, doc, db, c)
  {
  }

  lemma PlainExactly(w: World, doc: Doc, db: Store, x: Item)
    requires x.SSHKeyItem? || x.GitCredItem? || x.CAItem? || x.GeneratedItem? || x.WebhookItem?
    ensures Calm(w, doc, db, x, InSync) <==> Conforms(w, doc, db, x)
  {
    hide Contains, Trim, Lower, Declares;
  }

  /** A resource rests in sync if and only if the store holds what its declaration asks for. */
  lemma InSyncExactly(w: World, doc: Doc, db: Store, x: Item)
    requires ItemOK(x) && Minted(w, db, x) && RowsDistinct(db)
    ensures Calm(w, doc, db, x, InSync) <==> Conforms(w, doc, db, x)
  {
    hide StackAs, VolAs, DeliveryAs, CertAs, StackMet, VolMet, DeliveryMet, Calm;
    match x
    case StackItem(st) =>
      StackExactly(w, doc, db, st);
      StackMetExactly(w, doc, db, st);
    case VolItem(v) =>
      VolExactly(w, doc, db, v);
      VolMetExactly(w, doc, db, v);
    case DeliveryItem(d) =>
      DeliveryExactly(w, doc, db, d);
      DeliveryMetExactly(w, doc, db, d);
    case CertItem(c) => CertExactly(w, doc, db, c);
    case _ => PlainExactly(w, doc, db, x);
  }

  // ── over a whole apply ──────────────────────────────────────────────────────────────

  /** Convergence: after an apply that ran without error, every resource it reported created,
      updated or in sync is, at the end, stored as declared; but for an authority made without
      its name spelt out, which never is. */
  lemma ApplyConverges(w: World, doc: Doc, db: Store)
    requires Valid(w, doc, db, doc.items) && RowsDistinct(db) && !Walk(w, doc, true, db, doc.items).failed
    ensures var r := Walk(w, doc, true, db, doc.items);
      && |r.verdicts| == |doc.items|
      && forall i :: 0 <= i < |doc.items| && r.verdicts[i] in {Create, Update, InSync} ==>
           (Conforms(w, doc, r.db, doc.items[i]) <==> !(r.verdicts[i] == Create && Unspelt(w, doc.items[i])))
  {
    hide Walk, Valid, RowsDistinct, Conforms, Unspelt, Woken, Ensure;
    var r := Walk(w, doc, true, db, doc.items);
    ApplySettles(w, doc, db, doc.items);
    forall i | 0 <= i < |doc.items| && r.verdicts[i] in {Create, Update, InSync}
      ensures Conforms(w, doc, r.db, doc.items[i]) <==> !(r.verdicts[i] == Create && Unspelt(w, doc.items[i]))
    {
      AsksSupplied(w, doc, db, doc.items[i]);
      EndsMinted(w, doc, db, doc.items, doc.items[i]);
      InSyncExactly(w, doc, r.db, doc.items[i]);
    }
  }

  lemma AsksSupplied(w: World, doc: Doc, db: Store, x: Item)
    requires Valid(w, doc, db, doc.items) && x in doc.items
    ensures ItemOK(x) && forall n :: Needs(w, x, n) ==> Supplied(db, doc.items, n)
  {
  }

  /** At the end of an apply every generated secret a stack refers to exists. */
  lemma {:induction false} EndsMinted(w: World, doc: Doc, db: Store, items: seq<Item>, x: Item)
    requires RowsDistinct(db) && (forall n :: Needs(w, x, n) ==> Supplied(db, items, n))
    requires !Walk(w, doc, true, db, items).failed
    ensures var r := Walk(w, doc, true, db, items); RowsDistinct(r.db) && Minted(w, r.db, x)
    decreases items
  {
    hide Ensure, RowsDistinct, Minted, Needs, Supplied;
    if items == [] {
      SuppliedByNow(w, db, x);
    } else {
      var s := Ensure(w, doc, true, db, items[0]);
      forall n | Needs(w, x, n) ensures Supplied(s.db, items[1..], n) { SuppliedOn(w, doc, db, items, n); }
      StepDistinct(w, doc, true, db, items[0]);
      EndsMinted(w, doc, s.db, items[1..], x);
    }
  }

  lemma SuppliedByNow(w: World, db: Store, x: Item)
    requires forall n :: Needs(w, x, n) ==> Supplied(db, [], n)
    ensures Minted(w, db, x)
  {
    hide Minted, Needs;
    forall n | Needs(w, x, n) ensures db.Generated(n).Some? { assert Supplied(db, [], n); }
    NeedsMet(w, db, x);
  }

  /** Ensure-only: an apply, even one that stops half-way, removes no row and rewrites none
      beyond its safe fields: no key, credential or certificate is replaced, no CA re-keyed, no
      generated secret minted anew, no stack loses its engine or a slot. */
  lemma {:induction false} EnsureOnly(w: World, doc: Doc, db: Store, items: seq<Item>)
    requires Typed(db) && forall y :: y in items ==> y in doc.items
    ensures var r := Walk(w, doc, true, db, items);
      Typed(r.db) && forall k :: k in db.rows ==> k in r.db.rows && Kept(db.rows[k], r.db.rows[k])
    decreases items
  {
    hide Ensure, Typed, Kept;
    if items != [] {
      var s := Ensure(w, doc, true, db, items[0]);
      StepGrows(w, doc, db, items[0]);
      TypedOn(w, doc, db, s.db);
      if !s.failed {
        EnsureOnly(w, doc, s.db, items[1..]);
        var r := Walk(w, doc, true, s.db, items[1..]);
        forall k | k in db.rows ensures k in r.db.rows && Kept(db.rows[k], r.db.rows[k]) {
          KeptOn(db.rows[k], s.db.rows[k], r.db.rows[k]);
        }
      }
    } else {
      forall k | k in db.rows ensures Kept(db.rows[k], db.rows[k]) { KeptSelf(db.rows[k]); }
    }
  }
}
