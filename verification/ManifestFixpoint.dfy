/** Apply is a fixpoint: applying the same document again writes nothing and finds every
    resource it had created, updated or found in sync to be in sync. */
module ManifestFixpoint {
  import opened Wrappers
  import opened ManifestModel
  import opened Text
  import opened SlotMerge
  import opened Comparisons
  import opened ManifestSpec
  import opened ManifestFrame

  /** The verdict a second apply gives: what was brought in line is in line. */
  function Rest(v: Verdict): Verdict {
    if v == Create || v == Update then InSync else v
  }

  // ── what the theorem asks of the document and the store ──────────────────────────────

  predicate DistinctKeys(env: seq<EnvDecl>) {
    forall i, j :: 0 <= i < j < |env| ==> env[i].key != env[j].key
  }

  predicate DistinctFiles(files: seq<SecretFileDecl>) {
    forall i, j :: 0 <= i < j < |files| ==> files[i].name != files[j].name
  }

  /** What validation promises of one resource: declared keys, file names and paths are distinct,
      and a renewal window is not negative. */
  ghost predicate ItemOK(x: Item) {
    match x
    case CertItem(c) => c.renewBeforeDays >= 0
    case StackItem(st) => DistinctKeys(st.env) && DistinctFiles(st.files)
    case VolItem(v) => v.content.InlineContent? ==> DistinctPaths(v.content.files)
    case _ => true
  }

  /** A CA whose subject line does not spell its common name out, so that once made it reads as
      somebody else's. */
  predicate Unspelt(w: World, x: Item) {
    x.CAItem? && !Contains(w.subject(Trim(x.ca.commonName), Trim(x.ca.org)), "CN=" + Trim(x.ca.commonName))
  }

  /** The verdict a resource comes to rest with. */
  function RestOf(w: World, x: Item, v: Verdict): Verdict {
    if v == Create && Unspelt(w, x) then Drifted else Rest(v)
  }

  /** Every generated secret a stack refers to exists. */
  ghost predicate Minted(w: World, db: Store, x: Item) {
    x.StackItem? ==>
      && (forall i :: 0 <= i < |x.stack.env| ==> !EnvWant(w, db, x.stack.env[i]).intent.Awaited?)
      && (forall i :: 0 <= i < |x.stack.files| ==> !FileWant(w, db, x.stack.files[i]).intent.Awaited?)
  }

  /** The store's own uniqueness: a stack's variables and its secret files have distinct names. */
  ghost predicate RowsDistinct(db: Store) {
    forall k :: k in db.rows && k.kind == StackKind && db.rows[k].StackIn? ==>
      DistinctRows(db.rows[k].stack.env) && DistinctRows(db.rows[k].stack.secrets)
  }

  /** Applying this resource again, now, is a no-op with this verdict. */
  ghost predicate Calm(w: World, doc: Doc, db: Store, x: Item, v: Verdict) {
    Ensure(w, doc, true, db, x) == Step(db, v, false)
  }

  // ── one resource settles ────────────────────────────────────────────────────────────

  lemma WantsDistinct(w: World, db: Store, st: StackDecl)
    requires DistinctKeys(st.env) && DistinctFiles(st.files)
    ensures DistinctWants(EnvWants(w, db, st.env)) && DistinctWants(FileWants(w, db, st.files))
  {
  }

  lemma ExpandAgrees(pieces: seq<Piece>, db: Store, db': Store)
    requires forall n :: db'.Generated(n) == db.Generated(n)
    ensures Expand(pieces, db') == Expand(pieces, db)
  {
  }

  lemma WantsAgree(w: World, db: Store, db': Store, st: StackDecl)
    requires forall n :: db'.Generated(n) == db.Generated(n)
    ensures EnvWants(w, db', st.env) == EnvWants(w, db, st.env)
    ensures FileWants(w, db', st.files) == FileWants(w, db, st.files)
  {
    forall i | 0 <= i < |st.env| ensures EnvWant(w, db', st.env[i]) == EnvWant(w, db, st.env[i]) {
      ExpandAgrees(w.pieces(st.env[i].value), db, db');
    }
    forall i | 0 <= i < |st.files| ensures FileWant(w, db', st.files[i]) == FileWant(w, db, st.files[i]) {
      ExpandAgrees(w.pieces(st.files[i].value), db, db');
    }
  }

  /** A converged stack row asks for nothing more. */
  lemma WantedIsStill(w: World, db: Store, db': Store, st: StackDecl, cred: Link, hook: Link, row: StackRow)
    requires forall n :: db'.Generated(n) == db.Generated(n)
    requires DistinctKeys(st.env) && DistinctFiles(st.files)
    requires Minted(w, db, StackItem(st))
    requires DistinctRows(row.env) && DistinctRows(row.secrets)
    ensures !StackChanges(w, db', st, cred, hook, WantedStack(w, db, st, cred, hook, row))
  {
    WantsDistinct(w, db, st);
    WantsAgree(w, db, db', st);
    MergeIsIdempotent(row.env, EnvWants(w, db, st.env));
    MergeIsIdempotent(row.secrets, FileWants(w, db, st.files));
  }

  lemma HookSettles(w: World, db: Store, named: Link, current: Link, auto: bool, base: string, env: string,
                    cluster: string, db': Store)
    requires !TargetWebhook(w, true, db, named, current, auto, base, env, cluster).failed
    ensures var h := TargetWebhook(w, true, db, named, current, auto, base, env, cluster);
      TargetWebhook(w, true, db', named, h.link, auto, base, env, cluster) == Hooked(db', h.link, false)
  {
  }

  lemma ConvergeSettles(w: World, db: Store, env: string, st: StackDecl, cluster: string, cred: Link, named: Link,
                        row: StackRow, created: bool)
    requires DistinctKeys(st.env) && DistinctFiles(st.files)
    requires Minted(w, db, StackItem(st))
    requires DistinctRows(row.env) && DistinctRows(row.secrets)
    requires db.Stack(env, st.name) == Some(row)
    requires !ConvergeStack(w, true, db, env, st, cluster, cred, named, row, created).failed
    ensures var s := ConvergeStack(w, true, db, env, st, cluster, cred, named, row, created);
      && s.db.Stack(env, st.name).Some?
      && var row' := s.db.Stack(env, st.name).value;
      && row'.engine == row.engine
      && (row'.source == StackCols(st.source, cred))
      && ConvergeStack(w, true, s.db, env, st, cluster, cred, named, row', false) == Step(s.db, InSync, false)
      && Rest(s.verdict) == InSync
  {
    hide StackChanges, WantedStack, StackCols, TargetWebhook;
    var auto := st.autoDeploy && st.source.FromGit?;
    var hook := TargetWebhook(w, true, db, named, row.webhook, auto, st.name, env, cluster);
    var s := ConvergeStack(w, true, db, env, st, cluster, cred, named, row, created);
    HookTouches(w, true, db, named, row.webhook, auto, st.name, env, cluster);
    HookSettles(w, db, named, row.webhook, auto, st.name, env, cluster, s.db);
    if StackChanges(w, db, st, cred, hook.link, row) {
      WantedIsStill(w, db, s.db, st, cred, hook.link, row);
      WantedShape(w, db, st, cred, hook.link, row);
    } else {
      ChangesCovers(w, db, s.db, st, cred, hook.link, row);
    }
  }

  lemma WantedShape(w: World, db: Store, st: StackDecl, cred: Link, hook: Link, row: StackRow)
    ensures var want := WantedStack(w, db, st, cred, hook, row);
      want.webhook == hook && want.engine == row.engine && want.source == StackCols(st.source, cred)
  {
  }

  lemma ChangesCovers(w: World, db: Store, db': Store, st: StackDecl, cred: Link, hook: Link, row: StackRow)
    requires forall n :: db'.Generated(n) == db.Generated(n)
    requires !StackChanges(w, db, st, cred, hook, row)
    ensures row.webhook == hook && row.source == StackCols(st.source, cred)
            && !StackChanges(w, db', st, cred, hook, row)
  {
    WantsAgree(w, db, db', st);
  }

  lemma KeySettles(db: Store, k: SSHKeyDecl)
    ensures var s := EnsureSSHKey(true, db, k); EnsureSSHKey(true, s.db, k) == Step(s.db, Rest(s.verdict), false)
  {
  }

  lemma GitCredSettles(w: World, doc: Doc, db: Store, g: GitCredDecl)
    ensures var s := EnsureGitCred(w, doc, true, db, g);
      EnsureGitCred(w, doc, true, s.db, g) == Step(s.db, Rest(s.verdict), false)
  {
  }

  lemma CASettles(w: World, db: Store, ca: CADecl)
    ensures var s := EnsureCA(w, true, db, ca);
      EnsureCA(w, true, s.db, ca) == Step(s.db, RestOf(w, CAItem(ca), s.verdict), false)
  {
    hide Contains, Trim;
  }

  lemma CertSettles(w: World, doc: Doc, db: Store, c: CertDecl)
    requires ItemOK(CertItem(c))
    ensures var s := EnsureCert(w, doc, true, db, c);
      EnsureCert(w, doc, true, s.db, c) == Step(s.db, Rest(s.verdict), false)
  {
  }

  lemma {:induction false} ResolvesAlike(doc: Doc, apply: bool, db: Store, db': Store, env: string, refs: seq<CertRef>)
    requires forall e, n :: db'.Cert(e, n) == db.Cert(e, n)
    ensures ResolveCerts(doc, apply, db', env, refs) == ResolveCerts(doc, apply, db, env, refs)
  {
    if refs != [] { ResolvesAlike(doc, apply, db, db', env, refs[1..]); }
  }

  lemma {:induction false} ResolvesCAsAlike(doc: Doc, apply: bool, db: Store, db': Store, names: seq<string>)
    requires forall n :: db'.CA(n) == db.CA(n)
    ensures ResolveCAs(doc, apply, db', names) == ResolveCAs(doc, apply, db, names)
  {
    if names != [] { ResolvesCAsAlike(doc, apply, db, db', names[1..]); }
  }

  lemma {:induction false} NothingPending(doc: Doc, db: Store, env: string, refs: seq<CertRef>, names: seq<string>)
    ensures ResolveCerts(doc, true, db, env, refs).Resolved? ==> !ResolveCerts(doc, true, db, env, refs).pending
    ensures ResolveCAs(doc, true, db, names).Resolved? ==> !ResolveCAs(doc, true, db, names).pending
    decreases |refs| + |names|
  {
    if refs != [] { NothingPending(doc, db, env, refs[1..], names); }
    if names != [] { NothingPending(doc, db, env, refs, names[1..]); }
  }

  lemma DeliverySettles(w: World, doc: Doc, db: Store, d: DeliveryDecl)
    requires !EnsureDelivery(w, doc, true, db, d).failed
    ensures var s := EnsureDelivery(w, doc, true, db, d);
      EnsureDelivery(w, doc, true, s.db, d) == Step(s.db, Rest(s.verdict), false)
  {
    hide ResolveCerts, ResolveCAs, RepeatsCert;
    var s := EnsureDelivery(w, doc, true, db, d);
    var env := EnvOf(w, Effective(doc, d.cluster));
    if env.Some? {
      ResolvesAlike(doc, true, db, s.db, env.value, d.certs);
      ResolvesCAsAlike(doc, true, db, s.db, d.bundleCAs);
      NothingPending(doc, db, env.value, d.certs, d.bundleCAs);
    }
  }

  lemma GeneratedSettles(w: World, db: Store, g: GeneratedDecl)
    ensures var s := EnsureGenerated(w, true, db, g);
      EnsureGenerated(w, true, s.db, g) == Step(s.db, Rest(s.verdict), false) && s.db.Generated(g.name).Some?
  {
  }

  lemma WebhookSettles(w: World, doc: Doc, db: Store, h: WebhookDecl)
    ensures var s := EnsureWebhook(w, doc, true, db, h);
      EnsureWebhook(w, doc, true, s.db, h) == Step(s.db, Rest(s.verdict), false)
  {
  }

  lemma StackSettles(w: World, doc: Doc, db: Store, st: StackDecl)
    requires ItemOK(StackItem(st)) && Minted(w, db, StackItem(st)) && RowsDistinct(db)
    requires !EnsureStack(w, doc, true, db, st).failed
    ensures var s := EnsureStack(w, doc, true, db, st);
      EnsureStack(w, doc, true, s.db, st) == Step(s.db, Rest(s.verdict), false)
  {
    hide ConvergeStack, DistinctKeys, DistinctFiles, TakesName, Minted;
    var s := EnsureStack(w, doc, true, db, st);
    var cluster := Effective(doc, st.cluster);
    var env := EnvOf(w, cluster);
    if env.Some? {
      var cred := FindCred(doc, true, db, CredName(st.source));
      var named := NamedWebhook(doc, true, db, st.webhook, env.value);
      if cred.Some? && named.Some? {
        var found := db.Stack(env.value, st.name);
        var row := if found.Some? then found.value else NewStack(db, st, cred.value);
        var db' := if found.Some? then db else AddStack(db, env.value, st, cred.value);
        if EnsureStack(w, doc, true, db, st) != ConvergeStack(w, true, db', env.value, st, cluster, cred.value,
                                                              named.value, row, found.None?) {
          return;
        }
        assert Minted(w, db', StackItem(st)) by { WantsAgree(w, db, db', st); MintedAgrees(w, db, db', st); }
        ConvergeSettles(w, db', env.value, st, cluster, cred.value, named.value, row, found.None?);
        StackTouches(w, doc, true, db, st);
        assert FindCred(doc, true, s.db, CredName(st.source)) == cred;
        assert NamedWebhook(doc, true, s.db, st.webhook, env.value) == named by {
          if st.webhook != "" { assert Agree(db, s.db, HookKey(st.webhook)); }
        }
      }
    }
  }

  lemma MintedAgrees(w: World, db: Store, db': Store, st: StackDecl)
    requires forall n :: db'.Generated(n) == db.Generated(n)
    requires Minted(w, db, StackItem(st))
    ensures Minted(w, db', StackItem(st))
  {
    forall i | 0 <= i < |st.env| ensures EnvWant(w, db', st.env[i]) == EnvWant(w, db, st.env[i]) {
      ExpandAgrees(w.pieces(st.env[i].value), db, db');
    }
    forall i | 0 <= i < |st.files| ensures FileWant(w, db', st.files[i]) == FileWant(w, db, st.files[i]) {
      ExpandAgrees(w.pieces(st.files[i].value), db, db');
    }
  }

  /** Placing a volume source again: its webhook is found, and its row asks for nothing more. */
  lemma PlaceVolSettles(w: World, db: Store, env: string, v: VolDecl, cluster: string, cred: Link, stack: Link,
                        named: Link)
    requires ItemOK(VolItem(v))
    requires !PlaceVol(w, true, db, env, v, cluster, cred, stack, named).failed
    ensures var s := PlaceVol(w, true, db, env, v, cluster, cred, stack, named);
      PlaceVol(w, true, s.db, env, v, cluster, cred, stack, named) == Step(s.db, InSync, false)
        && Rest(s.verdict) == InSync
  {
    hide VolMatches, WantedVol, TargetWebhook, IsFreeName, AddWebhook;
    var s := PlaceVol(w, true, db, env, v, cluster, cred, stack, named);
    var row := db.Vol(env, v.volume);
    var current := if row.Some? then row.value.webhook else NoLink;
    var hook := VolHook(w, true, db, v, named, current, env, cluster);
    assert VolHook(w, true, s.db, v, named, hook.link, env, cluster) == Hooked(s.db, hook.link, false) by {
      if v.content.GitContent? {
        HookSettles(w, db, named, current, v.autoSync, "volume-" + v.volume, env, cluster, s.db);
      }
    }
    VolHookKeepsVols(w, db, v, named, current, env, cluster);
    var id := if row.Some? then row.value.id else hook.db.nextID;
    var kept := if row.Some? then row.value.files else [];
    WantedMatches(v, cred, stack, hook.link, id, kept);
    if row.Some? { MatchedHook(row.value, v, cred, stack, hook.link); }
  }

  /** A row written as wanted asks for nothing more, and remembers its webhook. */
  lemma WantedMatches(v: VolDecl, cred: Link, stack: Link, hook: Link, id: nat, kept: seq<VolFile>)
    requires ItemOK(VolItem(v))
    ensures var r := WantedVol(v, cred, stack, hook, id, kept);
      VolMatches(r, WantedVol(v, cred, stack, hook, r.id, r.files)) && r.webhook == hook && r.id == id
  {
    if v.content.InlineContent? { OneDirection(v.content.files, v.content.files); }
  }

  lemma MatchedHook(row: VolRow, v: VolDecl, cred: Link, stack: Link, hook: Link)
    ensures VolMatches(row, WantedVol(v, cred, stack, hook, row.id, row.files)) ==> row.webhook == hook
  {
  }

  lemma VolHookKeepsVols(w: World, db: Store, v: VolDecl, named: Link, current: Link, env: string, cluster: string)
    ensures var h := VolHook(w, true, db, v, named, current, env, cluster);
      forall e, n :: h.db.Vol(e, n) == db.Vol(e, n)
  {
    HookTouches(w, true, db, named, current, v.autoSync, "volume-" + v.volume, env, cluster);
  }

  lemma VolSettles(w: World, doc: Doc, db: Store, v: VolDecl)
    requires ItemOK(VolItem(v))
    requires !EnsureVol(w, doc, true, db, v).failed
    ensures var s := EnsureVol(w, doc, true, db, v);
      EnsureVol(w, doc, true, s.db, v) == Step(s.db, Rest(s.verdict), false)
  {
    hide PlaceVol, Refused, TakesName, DistinctPaths;
    var s := EnsureVol(w, doc, true, db, v);
    var cluster := Effective(doc, v.cluster);
    var env := EnvOf(w, cluster);
    if env.Some? {
      var named := NamedWebhook(doc, true, db, v.webhook, env.value);
      var cred := FindCred(doc, true, db, VolCred(v));
      var stack := FindStack(doc, true, db, env.value, v.stack);
      if cred.Some? && stack.Some? && named.Some? && !Refused(w, db, env.value, v.volume, VolFiles(v)) {
        PlaceVolSettles(w, db, env.value, v, cluster, cred.value, stack.value, named.value);
        VolTouches(w, doc, true, db, v);
        RefusesAlike(w, db, s.db, env.value, v.volume, VolFiles(v));
        assert FindCred(doc, true, s.db, VolCred(v)) == cred;
        assert FindStack(doc, true, s.db, env.value, v.stack) == stack;
        assert NamedWebhook(doc, true, s.db, v.webhook, env.value) == named by {
          if v.webhook != "" { assert Agree(db, s.db, HookKey(v.webhook)); }
        }
      }
    }
  }

  lemma RefusesAlike(w: World, db: Store, db': Store, env: string, volume: string, files: seq<VolFile>)
    requires forall k: RowKey :: k.kind == CertKind || k.kind == DeliveryKind ==> Agree(db, db', k)
    ensures Refused(w, db', env, volume, files) == Refused(w, db, env, volume, files)
  {
    hide TraefikOn;
    assert db'.Deliveries(env, volume) == db.Deliveries(env, volume);
    forall name: string ensures DeliveryOwns(db', env, volume, name) == DeliveryOwns(db, env, volume, name) {
      var d := TraefikOn(db.Deliveries(env, volume));
      if d.Some? { CertFilesAlike(db, db', d.value.certs, name); }
    }
  }

  lemma CertFilesAlike(db: Store, db': Store, certs: seq<Carried>, name: string)
    requires forall k: RowKey :: k.kind == CertKind ==> Agree(db, db', k)
    ensures CertFile(db', certs, name) == CertFile(db, certs, name)
  {
    if CertFile(db, certs, name) {
      var i, k :| 0 <= i < |certs| && k in db.rows && k.kind == CertKind && db.rows[k].CertIn? &&
                   db.rows[k].cert.id == certs[i].certID &&
                   (name == db.rows[k].cert.name + ".crt" || name == db.rows[k].cert.name + ".key");
      assert Agree(db, db', k);
    }
    if CertFile(db', certs, name) {
      var i, k :| 0 <= i < |certs| && k in db'.rows && k.kind == CertKind && db'.rows[k].CertIn? &&
                   db'.rows[k].cert.id == certs[i].certID &&
                   (name == db'.rows[k].cert.name + ".crt" || name == db'.rows[k].cert.name + ".key");
      assert Agree(db, db', k);
    }
  }

  /** One resource applied without error and applied again at once: the second time does
      nothing and finds it in line, unless it had been refused or had drifted, or is an authority
      just made whose subject does not spell its name out. */
  lemma Settles(w: World, doc: Doc, db: Store, x: Item)
    requires ItemOK(x) && Minted(w, db, x) && RowsDistinct(db)
    requires !Ensure(w, doc, true, db, x).failed
    ensures var s := Ensure(w, doc, true, db, x); Calm(w, doc, s.db, x, RestOf(w, x, s.verdict))
  {
    hide EnsureSSHKey, EnsureGitCred, EnsureCA, EnsureCert, EnsureDelivery, EnsureGenerated, EnsureWebhook, EnsureStack,
         EnsureVol;
    match x
    case SSHKeyItem(k) => KeySettles(db, k);
    case GitCredItem(g) => GitCredSettles(w, doc, db, g);
    case CAItem(ca) => CASettles(w, db, ca);
    case CertItem(c) => CertSettles(w, doc, db, c);
    case DeliveryItem(d) => DeliverySettles(w, doc, db, d);
    case GeneratedItem(g) => GeneratedSettles(w, db, g);
    case WebhookItem(h) => WebhookSettles(w, doc, db, h);
    case StackItem(st) => StackSettles(w, doc, db, st);
    case VolItem(v) => VolSettles(w, doc, db, v);
  }

  // ── and stays settled ───────────────────────────────────────────────────────────────

  lemma HookGrows(w: World, db: Store, named: Link, current: Link, auto: bool, base: string, env: string,
                  cluster: string)
    ensures var h := TargetWebhook(w, true, db, named, current, auto, base, env, cluster);
      h.db == db || (h.db.nextID > db.nextID && !h.failed && named == NoLink && current == NoLink && auto)
  {
    HookTouches(w, true, db, named, current, auto, base, env, cluster);
  }

  /** Converging without effect depends on the row and on the generated secrets alone. */
  lemma ConvergeStays(w: World, db: Store, db': Store, env: string, st: StackDecl, cluster: string, cred: Link,
                      named: Link, row: StackRow)
    requires forall n :: db'.Generated(n) == db.Generated(n)
    requires ConvergeStack(w, true, db, env, st, cluster, cred, named, row, false) == Step(db, InSync, false)
    ensures ConvergeStack(w, true, db', env, st, cluster, cred, named, row, false) == Step(db', InSync, false)
  {
    hide WantedStack, StackCols, IsFreeName, StackChanges;
    var auto := st.autoDeploy && st.source.FromGit?;
    var hook := TargetWebhook(w, true, db, named, row.webhook, auto, st.name, env, cluster);
    HookGrows(w, db, named, row.webhook, auto, st.name, env, cluster);
    ChangesCovers(w, db, db', st, cred, hook.link, row);
  }

  lemma StackStays(w: World, doc: Doc, db: Store, db': Store, st: StackDecl, v: Verdict)
    requires Calm(w, doc, db, StackItem(st), v) && v == Rest(v) && ReadsAgree(w, doc, db, db', StackItem(st))
    ensures Calm(w, doc, db', StackItem(st), v)
  {
    hide ConvergeStack, Trim, TakesName;
    var cluster := Effective(doc, st.cluster);
    var env := EnvOf(w, cluster);
    if env.Some? {
      var cred := FindCred(doc, true, db, CredName(st.source));
      var named := NamedWebhook(doc, true, db, st.webhook, env.value);
      assert FindCred(doc, true, db', CredName(st.source)) == cred;
      assert NamedWebhook(doc, true, db', st.webhook, env.value) == named;
      assert db'.Stack(env.value, st.name) == db.Stack(env.value, st.name);
      if cred.Some? && named.Some? {
        var found := db.Stack(env.value, st.name);
        if found.Some? {
          assert forall n :: db'.Generated(n) == db.Generated(n);
          ConvergesOrNot(w, db, env.value, st, cluster, cred.value, named.value, found.value);
          if PlaceStack(w, true, db, env.value, st, cluster, cred.value, named.value) ==
             ConvergeStack(w, true, db, env.value, st, cluster, cred.value, named.value, found.value, false) {
            ConvergeStays(w, db, db', env.value, st, cluster, cred.value, named.value, found.value);
          }
        } else {
          CreatedIsNotCalm(w, AddStack(db, env.value, st, cred.value), env.value, st, cluster, cred.value, named.value,
                           NewStack(db, st, cred.value));
        }
      }
    }
  }

  lemma ConvergesOrNot(w: World, db: Store, env: string, st: StackDecl, cluster: string, cred: Link, named: Link,
                       row: StackRow)
    ensures var s := ConvergeStack(w, true, db, env, st, cluster, cred, named, row, false);
      s.verdict == InSync || s.verdict == Update
  {
  }

  lemma CreatedIsNotCalm(w: World, db: Store, env: string, st: StackDecl, cluster: string, cred: Link, named: Link,
                         row: StackRow)
    ensures var s := ConvergeStack(w, true, db, env, st, cluster, cred, named, row, true);
      s.failed || s.verdict == Create
  {
  }

  lemma PlaceVolStays(w: World, db: Store, db': Store, env: string, v: VolDecl, cluster: string, cred: Link,
                      stack: Link, named: Link, verdict: Verdict)
    requires PlaceVol(w, true, db, env, v, cluster, cred, stack, named) == Step(db, verdict, false)
             && verdict == Rest(verdict)
    requires db'.Vol(env, v.volume) == db.Vol(env, v.volume)
    ensures PlaceVol(w, true, db', env, v, cluster, cred, stack, named) == Step(db', verdict, false)
  {
    hide VolCols, IsFreeName, VolMatches, WantedVol, FreeName;
    var row := db.Vol(env, v.volume);
    if row.Some? {
      HookGrows(w, db, named, row.value.webhook, v.autoSync, "volume-" + v.volume, env, cluster);
    }
  }

  lemma VolStays(w: World, doc: Doc, db: Store, db': Store, v: VolDecl, verdict: Verdict)
    requires Calm(w, doc, db, VolItem(v), verdict) && verdict == Rest(verdict)
             && ReadsAgree(w, doc, db, db', VolItem(v))
    ensures Calm(w, doc, db', VolItem(v), verdict)
  {
    hide Refused, PlaceVol, Trim;
    var cluster := Effective(doc, v.cluster);
    var env := EnvOf(w, cluster);
    if env.Some? {
      var cred := FindCred(doc, true, db, VolCred(v));
      var stack := FindStack(doc, true, db, env.value, v.stack);
      var named := NamedWebhook(doc, true, db, v.webhook, env.value);
      assert FindCred(doc, true, db', VolCred(v)) == cred;
      assert FindStack(doc, true, db', env.value, v.stack) == stack;
      assert NamedWebhook(doc, true, db', v.webhook, env.value) == named;
      RefusesAlike(w, db, db', env.value, v.volume, VolFiles(v));
      assert db'.Vol(env.value, v.volume) == db.Vol(env.value, v.volume);
      if cred.Some? && stack.Some? && named.Some? && !Refused(w, db, env.value, v.volume, VolFiles(v)) {
        PlaceVolStays(w, db, db', env.value, v, cluster, cred.value, stack.value, named.value, verdict);
      }
    }
  }

  lemma DeliveryStays(w: World, doc: Doc, db: Store, db': Store, d: DeliveryDecl, v: Verdict)
    requires Calm(w, doc, db, DeliveryItem(d), v) && v == Rest(v) && ReadsAgree(w, doc, db, db', DeliveryItem(d))
    ensures Calm(w, doc, db', DeliveryItem(d), v)
  {
    hide ResolveCerts, ResolveCAs, RepeatsCert;
    var env := EnvOf(w, Effective(doc, d.cluster));
    if env.Some? {
      assert db'.Deliveries(env.value, d.volume) == db.Deliveries(env.value, d.volume);
      ResolvesAlike(doc, true, db, db', env.value, d.certs);
      ResolvesCAsAlike(doc, true, db, db', d.bundleCAs);
    }
  }

  /** A settled resource stays settled while nothing it reads changes. */
  lemma Stays(w: World, doc: Doc, db: Store, db': Store, x: Item, v: Verdict)
    requires Calm(w, doc, db, x, v) && v == Rest(v) && ReadsAgree(w, doc, db, db', x)
    ensures Calm(w, doc, db', x, v)
  {
    match x
    case DeliveryItem(d) => DeliveryStays(w, doc, db, db', d, v);
    case StackItem(st) => StackStays(w, doc, db, db', st, v);
    case VolItem(vol) => VolStays(w, doc, db, db', vol, v);
    case CertItem(c) => CertStays(w, doc, db, db', c, v);
    case _ => SimpleStays(w, doc, db, db', x, v);
  }

  lemma CertStays(w: World, doc: Doc, db: Store, db': Store, c: CertDecl, v: Verdict)
    requires Calm(w, doc, db, CertItem(c), v) && v == Rest(v) && ReadsAgree(w, doc, db, db', CertItem(c))
    ensures Calm(w, doc, db', CertItem(c), v)
  {
  }

  lemma SimpleStays(w: World, doc: Doc, db: Store, db': Store, x: Item, v: Verdict)
    requires !x.StackItem? && !x.VolItem? && !x.DeliveryItem? && !x.CertItem?
    requires Calm(w, doc, db, x, v) && v == Rest(v) && ReadsAgree(w, doc, db, db', x)
    ensures Calm(w, doc, db', x, v)
  {
  }

  // ── over the whole walk ─────────────────────────────────────────────────────────────

  /** No step removes a row. */
  lemma RowsGrow(w: World, doc: Doc, apply: bool, db: Store, x: Item)
    ensures db.rows.Keys <= Ensure(w, doc, apply, db, x).db.rows.Keys
  {
    hide EnsureStack, EnsureVol, EnsureDelivery, CertDiffers, GitCredDiffers, CADiffers;
    match x
    case StackItem(st) => StackKeeps(w, doc, apply, db, st);
    case VolItem(v) => VolKeeps(w, doc, apply, db, v);
    case DeliveryItem(d) => DeliveryKeeps(w, doc, apply, db, d);
    case _ =>
  }

  lemma VolKeeps(w: World, doc: Doc, apply: bool, db: Store, v: VolDecl)
    ensures db.rows.Keys <= EnsureVol(w, doc, apply, db, v).db.rows.Keys
  {
    hide Refused, FindCred, FindStack, NamedWebhook, WantedVol, VolMatches, IsFreeName, FreeName;
  }

  lemma DeliveryKeeps(w: World, doc: Doc, apply: bool, db: Store, d: DeliveryDecl)
    ensures db.rows.Keys <= EnsureDelivery(w, doc, apply, db, d).db.rows.Keys
  {
    hide ResolveCerts, ResolveCAs, RepeatsCert, DeliveryMatches;
  }

  lemma StackKeeps(w: World, doc: Doc, apply: bool, db: Store, st: StackDecl)
    ensures db.rows.Keys <= EnsureStack(w, doc, apply, db, st).db.rows.Keys
  {
    hide StackChanges, WantedStack, StackCols, NewStack, FindCred, IsFreeName, FreeName, NamedWebhook;
  }

  ghost predicate Ordered(items: seq<Item>) {
    forall i, j :: 0 <= i < j < |items| ==> items[i].Kind().Rank() <= items[j].Kind().Rank()
  }

  /** No two resources converge the same row. */
  ghost predicate Identified(w: World, doc: Doc, items: seq<Item>) {
    forall i, j :: 0 <= i < j < |items| && KeyOf(w, doc, items[i]).Some? ==>
      KeyOf(w, doc, items[i]) != KeyOf(w, doc, items[j])
  }

  /** The generated secrets a slot's declaration refers to. */
  ghost predicate EnvNeeds(w: World, v: EnvDecl, n: string) {
    v.secret
    && if v.fromGenerated != "" then v.fromGenerated == n else v.value != "" && Reference(n) in w.pieces(v.value)
  }

  ghost predicate FileNeeds(w: World, f: SecretFileDecl, n: string) {
    f.valueFromEnv == "" &&
    (if f.fromGenerated != "" then f.fromGenerated == n else f.value != "" && Reference(n) in w.pieces(f.value))
  }

  ghost predicate Needs(w: World, x: Item, n: string) {
    x.StackItem?
    && ((exists v :: v in x.stack.env && EnvNeeds(w, v, n)) || exists f :: f in x.stack.files && FileNeeds(w, f, n))
  }

  ghost predicate Supplied(db: Store, items: seq<Item>, n: string) {
    db.Generated(n).Some? || exists y :: y in items && y.GeneratedItem? && y.gen.name == n
  }

  ghost predicate AllSupplied(w: World, db: Store, items: seq<Item>) {
    forall x, n :: x in items && Needs(w, x, n) ==> Supplied(db, items, n)
  }

  /** What validation promises of a document, with identities on their effective clusters. */
  ghost predicate Valid(w: World, doc: Doc, db: Store, items: seq<Item>) {
    Ordered(items) && Identified(w, doc, items) && AllSupplied(w, db, items) && forall x :: x in items ==> ItemOK(x)
  }

  lemma {:induction false} ExpandMet(pieces: seq<Piece>, db: Store)
    requires forall n :: Reference(n) in pieces ==> db.Generated(n).Some?
    ensures Expand(pieces, db).Some?
  {
    if pieces != [] {
      ExpandMet(pieces[1..], db);
      if pieces[0].Reference? { assert Reference(pieces[0].name) in pieces; }
    }
  }

  lemma NeedsMet(w: World, db: Store, x: Item)
    requires forall n :: Needs(w, x, n) ==> db.Generated(n).Some?
    ensures Minted(w, db, x)
  {
    if x.StackItem? {
      forall i | 0 <= i < |x.stack.env| ensures !EnvWant(w, db, x.stack.env[i]).intent.Awaited? {
        var v := x.stack.env[i];
        assert forall n :: EnvNeeds(w, v, n) ==> Needs(w, x, n);
        if v.secret && v.fromGenerated != "" {
          assert EnvNeeds(w, v, v.fromGenerated);
        } else if v.secret && v.value != "" {
          assert forall n :: Reference(n) in w.pieces(v.value) ==> EnvNeeds(w, v, n);
          ExpandMet(w.pieces(v.value), db);
        }
      }
      forall i | 0 <= i < |x.stack.files| ensures !FileWant(w, db, x.stack.files[i]).intent.Awaited? {
        var f := x.stack.files[i];
        assert forall n :: FileNeeds(w, f, n) ==> Needs(w, x, n);
        if f.valueFromEnv == "" && f.fromGenerated != "" {
          assert FileNeeds(w, f, f.fromGenerated);
        } else if f.valueFromEnv == "" && f.value != "" {
          assert forall n :: Reference(n) in w.pieces(f.value) ==> FileNeeds(w, f, n);
          ExpandMet(w.pieces(f.value), db);
        }
      }
    }
  }

  lemma StepDistinct(w: World, doc: Doc, apply: bool, db: Store, x: Item)
    requires RowsDistinct(db)
    ensures RowsDistinct(Ensure(w, doc, apply, db, x).db)
  {
    hide DistinctRows, TakesName, EnsureStack, EnsureVol, EnsureDelivery, EnsureCert, EnsureCA, EnsureGitCred;
    StepTouches(w, doc, apply, db, x);
    if x.StackItem? { StackDistinct(w, doc, apply, db, x.stack); }
  }

  lemma StackDistinct(w: World, doc: Doc, apply: bool, db: Store, st: StackDecl)
    requires RowsDistinct(db)
    ensures RowsDistinct(EnsureStack(w, doc, apply, db, st).db)
  {
    hide StackChanges, StackCols, FindCred, IsFreeName, FreeName, NamedWebhook, WantedStack, ConvergeStack;
    var cluster := Effective(doc, st.cluster);
    var env := EnvOf(w, cluster);
    if env.Some? {
      var cred := FindCred(doc, apply, db, CredName(st.source));
      var named := NamedWebhook(doc, apply, db, st.webhook, env.value);
      if cred.Some? && named.Some? {
        var found := db.Stack(env.value, st.name);
        var row := if found.Some? then found.value else NewStack(db, st, cred.value);
        var db' := if found.Some? then db else AddStack(db, env.value, st, cred.value);
        ConvergeDistinct(w, apply, db', env.value, st, cluster, cred.value, named.value, row, found.None?);
      }
    }
  }

  lemma ConvergeDistinct(w: World, apply: bool, db: Store, env: string, st: StackDecl, cluster: string, cred: Link,
                         named: Link, row: StackRow, created: bool)
    requires RowsDistinct(db) && DistinctRows(row.env) && DistinctRows(row.secrets)
    ensures RowsDistinct(ConvergeStack(w, apply, db, env, st, cluster, cred, named, row, created).db)
  {
    hide StackChanges, WantedStack, StackCols, TargetWebhook, DistinctRows, IsFreeName;
    var auto := st.autoDeploy && st.source.FromGit?;
    var hook := TargetWebhook(w, apply, db, named, row.webhook, auto, st.name, env, cluster);
    HookTouches(w, apply, db, named, row.webhook, auto, st.name, env, cluster);
    WantedDistinct(w, db, st, cred, hook.link, row);
  }

  lemma WantedDistinct(w: World, db: Store, st: StackDecl, cred: Link, hook: Link, row: StackRow)
    requires DistinctRows(row.env) && DistinctRows(row.secrets)
    ensures var want := WantedStack(w, db, st, cred, hook, row); DistinctRows(want.env) && DistinctRows(want.secrets)
  {
    MergeKeepsDistinct(row.env, EnvWants(w, db, st.env));
    MergeKeepsDistinct(row.secrets, FileWants(w, db, st.files));
  }

  lemma {:induction false} WalkGrows(w: World, doc: Doc, db: Store, items: seq<Item>)
    ensures db.rows.Keys <= Walk(w, doc, true, db, items).db.rows.Keys
    decreases items
  {
    hide Ensure;
    if items != [] {
      RowsGrow(w, doc, true, db, items[0]);
      WalkGrows(w, doc, Ensure(w, doc, true, db, items[0]).db, items[1..]);
    }
  }

  /** What was settled before the rest of the walk is settled after it, if the webhook it depends
      on was there or has not come. */
  lemma {:induction false} WalkKeepsCalm(w: World, doc: Doc, db: Store, items: seq<Item>, x: Item, v: Verdict)
    requires Calm(w, doc, db, x, v) && v == Rest(v)
    requires forall y :: y in items ==> x.Kind().Rank() <= y.Kind().Rank()
    requires KeyOf(w, doc, x).Some? ==> forall y :: y in items ==> KeyOf(w, doc, x) != KeyOf(w, doc, y)
    requires HookRead(x).Some? ==>
      var k := HookKey(HookRead(x).value); k in db.rows || k !in Walk(w, doc, true, db, items).db.rows
    ensures Calm(w, doc, Walk(w, doc, true, db, items).db, x, v)
    decreases items
  {
    hide Ensure, TakesName, Touches, ReadsAgree, Calm;
    if items != [] {
      var y := items[0];
      var s := Ensure(w, doc, true, db, y);
      StepTouches(w, doc, true, db, y);
      WalkGrows(w, doc, s.db, items[1..]);
      LaterStepsAgree(w, doc, db, s.db, x, y);
      Stays(w, doc, db, s.db, x, v);
      RowsGrow(w, doc, true, db, y);
      if !s.failed {
        WalkKeepsCalm(w, doc, s.db, items[1..], x, v);
      }
    }
  }

  // ── resources that wait for a webhook ───────────────────────────────────────────────

  /** Whether a resource that depends on a webhook finds everything it asks for: a place, its
      references, the webhook linkable from there, and, for a new stack, somewhere to run. */
  ghost predicate Awoken(w: World, doc: Doc, db: Store, x: Item) {
    match x
    case WebhookItem(h) => PlaceOf(w, doc, h.shared, h.cluster).Some? && db.Webhook(h.name).Some?
    case StackItem(st) =>
      var env := EnvOf(w, Effective(doc, st.cluster));
      && env.Some? && FindCred(doc, true, db, CredName(st.source)).Some?
      && NamedWebhook(doc, true, db, st.webhook, env.value).Some?
      && (db.Stack(env.value, st.name).Some?
          || (env.value in w.connected && env.value in if st.engine == "swarm" then w.swarms else w.single))
    case VolItem(v) =>
      var env := EnvOf(w, Effective(doc, v.cluster));
      && env.Some? && FindCred(doc, true, db, VolCred(v)).Some? && FindStack(doc, true, db, env.value, v.stack).Some?
      && NamedWebhook(doc, true, db, v.webhook, env.value).Some? && !Refused(w, db, env.value, v.volume, VolFiles(v))
    case _ => false
  }

  /** The webhook this resource depends on is nowhere. */
  ghost predicate Lacking(db: Store, x: Item) { HookRead(x).Some? && HookKey(HookRead(x).value) !in db.rows }

  /** A target is refused exactly when something it asks for is missing. */
  lemma RefusedUnlessAwoken(w: World, doc: Doc, db: Store, x: Item)
    requires x.StackItem? || x.VolItem?
    ensures var s := Ensure(w, doc, true, db, x);
      if Awoken(w, doc, db, x) then s.failed || s.verdict != Blocked else s == Step(db, Blocked, false)
  {
    hide FindCred, FindStack, NamedWebhook, Refused, ConvergeStack, VolMatches, WantedVol, VolHook;
    match x
    case StackItem(st) => StackRefused(w, doc, db, st);
    case VolItem(v) =>
  }

  lemma StackRefused(w: World, doc: Doc, db: Store, st: StackDecl)
    ensures var s := EnsureStack(w, doc, true, db, st);
      if Awoken(w, doc, db, StackItem(st)) then s.failed || s.verdict != Blocked else s == Step(db, Blocked, false)
  {
    hide FindCred, NamedWebhook, ConvergeStack, AddStack, NewStack;
    var cluster := Effective(doc, st.cluster);
    var env := EnvOf(w, cluster);
    if env.Some? {
      var cred := FindCred(doc, true, db, CredName(st.source));
      var named := NamedWebhook(doc, true, db, st.webhook, env.value);
      if cred.Some? && named.Some? {
        var row := db.Stack(env.value, st.name);
        if row.Some? {
          ConvergesOrNot(w, db, env.value, st, cluster, cred.value, named.value, row.value);
        } else {
          CreatedIsNotCalm(w, AddStack(db, env.value, st, cred.value), env.value, st, cluster, cred.value, named.value,
                           NewStack(db, st, cred.value));
        }
      }
    }
  }

  /** A resource visited while its webhook was nowhere was blocked; later, and whatever the store
      holds then, it is still blocked exactly when it does not find everything it asks for. */
  lemma WakesExactly(w: World, doc: Doc, db: Store, x: Item, later: Store)
    requires Lacking(Ensure(w, doc, true, db, x).db, x)
    ensures Ensure(w, doc, true, db, x) == Step(db, Blocked, false)
    ensures var s := Ensure(w, doc, true, later, x);
      if Awoken(w, doc, later, x) then s.failed || s.verdict != Blocked else s == Step(later, Blocked, false)
  {
    if x.WebhookItem? {
      hide Trim;
    } else {
      RowsGrow(w, doc, true, db, x);
      assert !Awoken(w, doc, db, x);
      hide Awoken, Ensure;
      RefusedUnlessAwoken(w, doc, db, x);
      RefusedUnlessAwoken(w, doc, later, x);
    }
  }

  lemma SuppliedOn(w: World, doc: Doc, db: Store, items: seq<Item>, n: string)
    requires items != [] && Supplied(db, items, n)
    ensures Supplied(Ensure(w, doc, true, db, items[0]).db, items[1..], n)
  {
    hide Ensure;
    if db.Generated(n).Some? {
      GeneratedStays(w, doc, db, items[0], n);
    } else {
      var y :| y in items && y.GeneratedItem? && y.gen.name == n;
      if y == items[0] {
        EnsuresGenerated(w, doc, db, y);
        GeneratedSettles(w, db, y.gen);
      } else {
        assert y in items[1..];
      }
    }
  }

  lemma StepSupplied(w: World, doc: Doc, db: Store, items: seq<Item>)
    requires items != [] && AllSupplied(w, db, items)
    ensures AllSupplied(w, Ensure(w, doc, true, db, items[0]).db, items[1..])
  {
    hide Ensure, Needs, Supplied;
    var s := Ensure(w, doc, true, db, items[0]);
    forall x, n | x in items[1..] && Needs(w, x, n) ensures Supplied(s.db, items[1..], n) {
      assert x in items;
      SuppliedOn(w, doc, db, items, n);
    }
  }

  lemma EnsuresGenerated(w: World, doc: Doc, db: Store, y: Item)
    requires y.GeneratedItem?
    ensures Ensure(w, doc, true, db, y) == EnsureGenerated(w, true, db, y.gen)
  {
  }

  lemma GeneratedStays(w: World, doc: Doc, db: Store, x: Item, n: string)
    requires db.Generated(n).Some?
    ensures Ensure(w, doc, true, db, x).db.Generated(n).Some?
  {
    StepTouches(w, doc, true, db, x);
    hide EnsureStack, EnsureVol, EnsureDelivery, EnsureCert;
  }

  lemma TailValid(w: World, doc: Doc, items: seq<Item>)
    requires items != [] && Ordered(items) && Identified(w, doc, items)
    ensures Ordered(items[1..]) && Identified(w, doc, items[1..])
  {
  }

  /** The first resource against the rest of a valid document. */
  lemma HeadApart(w: World, doc: Doc, items: seq<Item>)
    requires items != [] && Ordered(items) && Identified(w, doc, items)
    ensures forall y :: y in items[1..] ==> items[0].Kind().Rank() <= y.Kind().Rank()
    ensures KeyOf(w, doc, items[0]).Some? ==> forall y :: y in items[1..] ==>
            KeyOf(w, doc, items[0]) != KeyOf(w, doc, y)
  {
    hide KeyOf;
    forall y | y in items[1..]
      ensures items[0].Kind().Rank() <= y.Kind().Rank()
      ensures KeyOf(w, doc, items[0]).Some? ==> KeyOf(w, doc, items[0]) != KeyOf(w, doc, y)
    {
      var j :| 0 < j < |items| && items[j] == y;
    }
  }

  /** The store once the walk has visited the first n resources. */
  function Passed(w: World, doc: Doc, db: Store, items: seq<Item>, n: nat): Store
    decreases items
  {
    if n == 0 || items == [] then db else Passed(w, doc, Ensure(w, doc, true, db, items[0]).db, items[1..], n - 1)
  }

  /** Visited while the webhook it depends on was nowhere, a resource finds at the end of the walk
      that a later one took that name, and that nothing else is in its way. */
  ghost predicate Woken(w: World, doc: Doc, db: Store, items: seq<Item>, i: nat)
    requires i < |items|
  {
    Lacking(Passed(w, doc, db, items, i + 1), items[i]) && Awoken(w, doc, Walk(w, doc, true, db, items).db, items[i])
  }

  ghost predicate Differs(w: World, doc: Doc, db: Store, x: Item, v: Verdict) {
    var s := Ensure(w, doc, true, db, x); s.failed || s.verdict != v
  }

  /** One resource, from its own step to the end of the walk. */
  lemma SettlesOrWakes(w: World, doc: Doc, db: Store, items: seq<Item>)
    requires items != [] && Ordered(items) && Identified(w, doc, items) && RowsDistinct(db)
    requires ItemOK(items[0]) && Minted(w, db, items[0]) && !Ensure(w, doc, true, db, items[0]).failed
    ensures var x, s := items[0], Ensure(w, doc, true, db, items[0]);
      var end := Walk(w, doc, true, s.db, items[1..]).db;
      if Lacking(s.db, x) && Awoken(w, doc, end, x) then s.verdict == Blocked && Differs(w, doc, end, x, Blocked)
      else Calm(w, doc, end, x, RestOf(w, x, s.verdict))
  {
    hide Ensure, ItemOK, Minted, RowsDistinct, Ordered, Identified, Awoken, KeyOf;
    var x, s := items[0], Ensure(w, doc, true, db, items[0]);
    var end := Walk(w, doc, true, s.db, items[1..]).db;
    if Lacking(s.db, x) && HookKey(HookRead(x).value) in end.rows {
      WakesExactly(w, doc, db, x, end);
    } else {
      if Lacking(s.db, x) { WakesExactly(w, doc, db, x, end); }
      HeadApart(w, doc, items);
      Settles(w, doc, db, x);
      WalkKeepsCalm(w, doc, s.db, items[1..], x, RestOf(w, x, s.verdict));
    }
  }

  /** After an apply that ran without error a resource is settled exactly when it was not woken:
      one that was had been blocked, and would not be again. */
  lemma {:induction false} ApplySettles(w: World, doc: Doc, db: Store, items: seq<Item>)
    requires Valid(w, doc, db, items) && RowsDistinct(db) && !Walk(w, doc, true, db, items).failed
    ensures var r := Walk(w, doc, true, db, items);
      && |r.verdicts| == |items|
      && forall i :: 0 <= i < |items| ==>
           if Woken(w, doc, db, items, i) then r.verdicts[i] == Blocked && Differs(w, doc, r.db, items[i], Blocked)
           else Calm(w, doc, r.db, items[i], RestOf(w, items[i], r.verdicts[i]))
    decreases items
  {
    hide Ensure, ItemOK, Minted, RowsDistinct, AllSupplied, Calm, Ordered, Identified, KeyOf, Lacking, Awoken, Differs;
    if items != [] {
      var x, rest := items[0], items[1..];
      TailValid(w, doc, items);
      var s := Ensure(w, doc, true, db, x);
      assert x in items;
      HeadMinted(w, db, items);
      SettlesOrWakes(w, doc, db, items);
      StepDistinct(w, doc, true, db, x);
      StepSupplied(w, doc, db, items);
      ApplySettles(w, doc, s.db, rest);
      var r, r' := Walk(w, doc, true, db, items), Walk(w, doc, true, s.db, rest);
      assert Passed(w, doc, db, items, 1) == s.db;
      forall i | 0 < i < |items|
        ensures items[i] == rest[i - 1] && r.verdicts[i] == r'.verdicts[i - 1]
        ensures Woken(w, doc, db, items, i) <==> Woken(w, doc, s.db, rest, i - 1)
      {
        assert Passed(w, doc, db, items, i + 1) == Passed(w, doc, s.db, rest, i);
      }
    }
  }

  lemma HeadMinted(w: World, db: Store, items: seq<Item>)
    requires items != [] && Ordered(items) && AllSupplied(w, db, items)
    ensures Minted(w, db, items[0])
  {
    hide Minted;
    var x := items[0];
    forall n | Needs(w, x, n) ensures db.Generated(n).Some? {
      assert x in items && Supplied(db, items, n);
      assert forall y :: y in items ==> exists j :: 0 <= j < |items| && items[j] == y;
    }
    NeedsMet(w, db, x);
  }

  function Rested(verdicts: seq<Verdict>): seq<Verdict> {
    seq(|verdicts|, i requires 0 <= i < |verdicts| => Rest(verdicts[i]))
  }

  /** A walk over resources each of which rests, or gives another verdict, is idle exactly when
      all of them rest. */
  lemma {:induction false} IdleExactly(w: World, doc: Doc, db: Store, items: seq<Item>, verdicts: seq<Verdict>)
    requires |verdicts| == |items|
    requires forall i :: 0 <= i < |items| ==>
             Calm(w, doc, db, items[i], verdicts[i]) || Differs(w, doc, db, items[i], verdicts[i])
    ensures Walk(w, doc, true, db, items) == Outcome(db, verdicts, false)
            <==> forall i :: 0 <= i < |items| ==> Calm(w, doc, db, items[i], verdicts[i])
  {
    hide Ensure;
    if items != [] {
      assert Calm(w, doc, db, items[0], verdicts[0]) || Differs(w, doc, db, items[0], verdicts[0]);
      if Calm(w, doc, db, items[0], verdicts[0]) {
        IdleExactly(w, doc, db, items[1..], verdicts[1..]);
        var rest := Walk(w, doc, true, db, items[1..]);
        assert [verdicts[0]] + rest.verdicts == verdicts <==> rest.verdicts == verdicts[1..];
        assert forall i :: 0 < i < |items| ==> items[i] == items[1..][i - 1] && verdicts[i] == verdicts[1..][i - 1];
        assert forall i :: 0 <= i < |items| - 1 ==>
               items[1..][i] == items[i + 1] && verdicts[1..][i] == verdicts[i + 1];
      }
    }
  }

  /** The fixpoint: a second apply of the same document writes nothing, stops nowhere, and reports
      in sync whatever the first reported created, updated or in sync, if and only if no resource
      was woken meanwhile and no authority was made that does not spell its name out. */
  lemma ApplyTwice(w: World, doc: Doc, db: Store)
    requires Valid(w, doc, db, doc.items) && RowsDistinct(db) && !Walk(w, doc, true, db, doc.items).failed
    ensures var first := Walk(w, doc, true, db, doc.items);
      && |first.verdicts| == |doc.items|
      && (Walk(w, doc, true, first.db, doc.items) == Outcome(first.db, Rested(first.verdicts), false)
          <==> forall i :: 0 <= i < |doc.items| ==>
                 !Woken(w, doc, db, doc.items, i) && !(first.verdicts[i] == Create && Unspelt(w, doc.items[i])))
  {
    hide Walk, Ensure, Valid, RowsDistinct, Woken, Unspelt;
    var first := Walk(w, doc, true, db, doc.items);
    ApplySettles(w, doc, db, doc.items);
    forall i | 0 <= i < |doc.items|
      ensures var v := Rested(first.verdicts)[i];
        if Woken(w, doc, db, doc.items, i) || (first.verdicts[i] == Create && Unspelt(w, doc.items[i]))
        then Differs(w, doc, first.db, doc.items[i], v) && !Calm(w, doc, first.db, doc.items[i], v)
        else Calm(w, doc, first.db, doc.items[i], v)
    {
    }
    IdleExactly(w, doc, first.db, doc.items, Rested(first.verdicts));
  }
}
