/** A plan and the apply that follows it tell the same story: a plan writes nothing, and each
    resource's apply verdict is its plan verdict or blocked. */
module ManifestAgreement {
  import opened Wrappers
  import opened ManifestModel
  import opened Text
  import opened SlotMerge
  import opened Comparisons
  import opened ManifestSpec
  import opened ManifestFrame
  import opened ManifestFixpoint

  // ── a plan ──────────────────────────────────────────────────────────────────────────

  lemma PlanStep(w: World, doc: Doc, db: Store, x: Item)
    ensures Ensure(w, doc, false, db, x) == Step(db, Ensure(w, doc, false, db, x).verdict, false)
  {
    hide StackChanges, StackCols, FindCred, NamedWebhook, Refused, VolMatches, WantedVol, ResolveCerts, ResolveCAs;
  }

  /** A plan writes nothing, always finishes, and judges every resource against the store as
      it found it. */
  lemma {:induction false} PlanReads(w: World, doc: Doc, db: Store, items: seq<Item>)
    ensures var p := Walk(w, doc, false, db, items);
      && p.db == db && !p.failed && |p.verdicts| == |items|
      && forall i :: 0 <= i < |items| ==> p.verdicts[i] == Ensure(w, doc, false, db, items[i]).verdict
  {
    hide Ensure;
    if items != [] {
      PlanStep(w, doc, db, items[0]);
      PlanReads(w, doc, db, items[1..]);
    }
  }

  // ── what an apply keeps of the store it found ───────────────────────────────────────

  predicate TypedRow(k: RowKey, row: Row) {
    match row
    case SSHKeyIn(_) => k.kind == SSHKeyKind
    case GitCredIn(_) => k.kind == GitCredKind
    case CAIn(_) => k.kind == CAKind
    case CertIn(_) => k.kind == CertKind
    case DeliveriesIn(_) => k.kind == DeliveryKind
    case GeneratedIn(_) => k.kind == GeneratedKind
    case WebhookIn(_) => k.kind == WebhookKind
    case StackIn(_) => k.kind == StackKind
    case VolIn(_) => k.kind == VolKind
  }

  ghost predicate Typed(db: Store) {
    forall k :: k in db.rows ==> TypedRow(k, db.rows[k])
  }

  predicate HasSlot(rows: seq<SlotRow>, key: string) { exists j :: 0 <= j < |rows| && rows[j].key == key }

  /** Every slot of the one is a slot of the other; in which order a reader meets them is the store's. */
  predicate SlotsStay(rows: seq<SlotRow>, rows': seq<SlotRow>) {
    forall i :: 0 <= i < |rows| ==> HasSlot(rows', rows[i].key)
  }

  predicate SameRows(ds: seq<DeliveryRow>, ds': seq<DeliveryRow>) {
    |ds| <= |ds'| && forall i :: 0 <= i < |ds| ==> ds'[i].id == ds[i].id
  }

  /** What no step changes about a row: anything but a CA's outbound trust, a certificate's
      renewal window, a delivery's settings, and a stack's or volume source's; those keep their
      ids, and a stack besides its engine and every slot it has. */
  predicate Kept(row: Row, row': Row) {
    match row
    case CAIn(a) => row'.CAIn? && row'.ca == a.(outboundTrust := row'.ca.outboundTrust)
    case CertIn(c) => row'.CertIn? && row'.cert == c.(renewBeforeDays := row'.cert.renewBeforeDays)
    case DeliveriesIn(ds) => row'.DeliveriesIn? && SameRows(ds, row'.deliveries)
    case StackIn(st) =>
      && row'.StackIn? && row'.stack.id == st.id && row'.stack.engine == st.engine
      && SlotsStay(st.env, row'.stack.env) && SlotsStay(st.secrets, row'.stack.secrets)
    case VolIn(v) => row'.VolIn? && row'.vol.id == v.id
    case _ => row' == row
  }

  /** A row created from this id on. */
  predicate Born(w: World, from: nat, row: Row) {
    match row
    case SSHKeyIn(k) => k.id >= from
    case GitCredIn(g) => g.id >= from
    case CAIn(a) => a.id >= from && a.canSign
    case CertIn(c) => c.id >= from
    case GeneratedIn(g) => g.id >= from && g.value == w.mint(g.id)
    case WebhookIn(h) => h.id >= from
    case StackIn(st) => st.id >= from
    case _ => true
  }

  ghost predicate DeclaredKey(w: World, doc: Doc, k: RowKey) {
    exists y :: y in doc.items && KeyOf(w, doc, y) == Some(k)
  }

  ghost predicate AutoKey(w: World, doc: Doc, k: RowKey) {
    k.kind == WebhookKind && k.env == "" && exists y :: y in doc.items && TakesName(w, doc, y, k.name)
  }

  /** From one store to a later one: rows stay, new rows are fresh, and both the new and the
      changed ones are the document's. */
  ghost predicate Grows(w: World, doc: Doc, db: Store, db': Store) {
    && db.nextID <= db'.nextID
    && (forall k :: k in db.rows ==> k in db'.rows && Kept(db.rows[k], db'.rows[k]))
    && (forall k :: k in db'.rows && k !in db.rows ==> TypedRow(k, db'.rows[k]) && Born(w, db.nextID, db'.rows[k]))
    && (forall k :: Agree(db, db', k) || DeclaredKey(w, doc, k) || AutoKey(w, doc, k))
  }

  lemma GrowsOn(w: World, doc: Doc, a: Store, b: Store, c: Store)
    requires Grows(w, doc, a, b) && Grows(w, doc, b, c)
    ensures Grows(w, doc, a, c)
  {
    hide DeclaredKey, AutoKey, Kept, Born, TypedRow;
    forall k | k in a.rows ensures k in c.rows && Kept(a.rows[k], c.rows[k]) {
      KeptOn(a.rows[k], b.rows[k], c.rows[k]);
    }
    forall k | k in c.rows && k !in a.rows ensures TypedRow(k, c.rows[k]) && Born(w, a.nextID, c.rows[k]) {
      if k in b.rows {
        KeptBorn(w, a.nextID, k, b.rows[k], c.rows[k]);
      } else {
        BornLater(w, a.nextID, b.nextID, c.rows[k]);
      }
    }
    forall k ensures Agree(a, c, k) || DeclaredKey(w, doc, k) || AutoKey(w, doc, k) {
      assert Agree(a, b, k) || DeclaredKey(w, doc, k) || AutoKey(w, doc, k);
      assert Agree(b, c, k) || DeclaredKey(w, doc, k) || AutoKey(w, doc, k);
    }
  }

  lemma TypedOn(w: World, doc: Doc, db: Store, db': Store)
    requires Typed(db) && Grows(w, doc, db, db')
    ensures Typed(db')
  {
    hide DeclaredKey, AutoKey;
  }

  lemma StepGrows(w: World, doc: Doc, db: Store, x: Item)
    requires Typed(db) && x in doc.items
    ensures Grows(w, doc, db, Ensure(w, doc, true, db, x).db)
  {
    var s := Ensure(w, doc, true, db, x);
    StepTouches(w, doc, true, db, x);
    assert forall k :: Agree(db, s.db, k) || DeclaredKey(w, doc, k) || AutoKey(w, doc, k) by {
      hide Ensure, TakesName, KeyOf;
    }
    hide TakesName, DeclaredKey, AutoKey, Touches;
    StepKeeps(w, doc, db, x);
  }

  ghost predicate Keeps(w: World, db: Store, db': Store) {
    && db.nextID <= db'.nextID
    && (forall k :: k in db.rows ==> k in db'.rows && Kept(db.rows[k], db'.rows[k]))
    && (forall k :: k in db'.rows && k !in db.rows ==> TypedRow(k, db'.rows[k]) && Born(w, db.nextID, db'.rows[k]))
  }

  lemma PutKeeps(w: World, db: Store, k: RowKey, row: Row, next: nat)
    requires next >= db.nextID
    requires if k in db.rows then Kept(db.rows[k], row) else TypedRow(k, row) && Born(w, db.nextID, row)
    ensures Keeps(w, db, Store(db.rows[k := row], next))
  {
    hide Kept;
    forall j | j in db.rows ensures Kept(db.rows[j], db.rows[k := row][j]) { KeptSelf(db.rows[j]); }
  }

  lemma KeepsSelf(w: World, db: Store)
    ensures Keeps(w, db, db)
  {
    hide Kept;
    forall k | k in db.rows ensures Kept(db.rows[k], db.rows[k]) { KeptSelf(db.rows[k]); }
  }

  lemma KeepsOn(w: World, a: Store, b: Store, c: Store)
    requires Keeps(w, a, b) && Keeps(w, b, c)
    ensures Keeps(w, a, c)
  {
    hide Kept, Born, TypedRow;
    forall k | k in a.rows ensures k in c.rows && Kept(a.rows[k], c.rows[k]) {
      KeptOn(a.rows[k], b.rows[k], c.rows[k]);
    }
    forall k | k in c.rows && k !in a.rows ensures TypedRow(k, c.rows[k]) && Born(w, a.nextID, c.rows[k]) {
      if k in b.rows {
        KeptBorn(w, a.nextID, k, b.rows[k], c.rows[k]);
      } else {
        BornLater(w, a.nextID, b.nextID, c.rows[k]);
      }
    }
  }

  lemma StepKeeps(w: World, doc: Doc, db: Store, x: Item)
    requires Typed(db)
    ensures Keeps(w, db, Ensure(w, doc, true, db, x).db)
  {
    hide Keeps;
    KeepsSelf(w, db);
    match x
    case StackItem(st) => StackKeepsRows(w, doc, db, st);
    case VolItem(v) => VolKeepsRows(w, doc, db, v);
    case DeliveryItem(d) => DeliveryKeepsRows(w, doc, db, d);
    case CertItem(c) => CertKeepsRows(w, doc, db, c);
    case CAItem(ca) => CAKeepsRows(w, db, ca);
    case GitCredItem(g) => GitCredKeepsRows(w, doc, db, g);
    case _ => SimpleKeepsRows(w, doc, db, x);
  }

  lemma SimpleKeepsRows(w: World, doc: Doc, db: Store, x: Item)
    requires Typed(db) && (x.SSHKeyItem? || x.GeneratedItem? || x.WebhookItem?)
    ensures Keeps(w, db, Ensure(w, doc, true, db, x).db)
  {
    hide Keeps, SlotsStay, SameRows;
    KeepsSelf(w, db);
    var s := Ensure(w, doc, true, db, x);
    var key := KeyOf(w, doc, x).value;
    if s.db != db {
      PutKeeps(w, db, key, s.db.rows[key], s.db.nextID);
      assert s.db.rows == db.rows[key := s.db.rows[key]];
    }
  }

  lemma GitCredKeepsRows(w: World, doc: Doc, db: Store, g: GitCredDecl)
    requires Typed(db)
    ensures Keeps(w, db, EnsureGitCred(w, doc, true, db, g).db)
  {
    hide Keeps, SlotsStay, SameRows, GitCredDiffers, Declares;
    KeepsSelf(w, db);
    var s := EnsureGitCred(w, doc, true, db, g);
    if s.db != db {
      var key := RowKey(GitCredKind, "", g.name);
      PutKeeps(w, db, key, s.db.rows[key], s.db.nextID);
      assert s.db.rows == db.rows[key := s.db.rows[key]];
    }
  }

  lemma CAKeepsRows(w: World, db: Store, ca: CADecl)
    requires Typed(db)
    ensures Keeps(w, db, EnsureCA(w, true, db, ca).db)
  {
    hide Keeps, SlotsStay, SameRows, CADiffers;
    KeepsSelf(w, db);
    var s := EnsureCA(w, true, db, ca);
    if s.db != db {
      var key := RowKey(CAKind, "", ca.name);
      PutKeeps(w, db, key, s.db.rows[key], s.db.nextID);
      assert s.db.rows == db.rows[key := s.db.rows[key]];
    }
  }

  lemma CertKeepsRows(w: World, doc: Doc, db: Store, c: CertDecl)
    requires Typed(db)
    ensures Keeps(w, db, EnsureCert(w, doc, true, db, c).db)
  {
    hide Keeps, CertDiffers;
    KeepsSelf(w, db);
    var s := EnsureCert(w, doc, true, db, c);
    if s.db != db {
      var key := KeyOf(w, doc, CertItem(c)).value;
      PutKeeps(w, db, key, s.db.rows[key], s.db.nextID);
      assert s.db.rows == db.rows[key := s.db.rows[key]];
    }
  }

  lemma DeliveryKeepsRows(w: World, doc: Doc, db: Store, d: DeliveryDecl)
    requires Typed(db)
    ensures Keeps(w, db, EnsureDelivery(w, doc, true, db, d).db)
  {
    hide Keeps, ResolveCerts, ResolveCAs, RepeatsCert, DeliveryMatches;
    KeepsSelf(w, db);
    var s := EnsureDelivery(w, doc, true, db, d);
    if s.db != db {
      var key := KeyOf(w, doc, DeliveryItem(d)).value;
      PutKeeps(w, db, key, s.db.rows[key], s.db.nextID);
      assert s.db.rows == db.rows[key := s.db.rows[key]];
    }
  }

  lemma HookKeeps(w: World, db: Store, named: Link, current: Link, auto: bool, base: string, env: string,
                  cluster: string)
    ensures Keeps(w, db, TargetWebhook(w, true, db, named, current, auto, base, env, cluster).db)
  {
    HookTouches(w, true, db, named, current, auto, base, env, cluster);
  }

  lemma ConvergeKeeps(w: World, db: Store, env: string, st: StackDecl, cluster: string, cred: Link, named: Link,
                      row: StackRow, created: bool)
    requires db.Stack(env, st.name) == Some(row)
    ensures Keeps(w, db, ConvergeStack(w, true, db, env, st, cluster, cred, named, row, created).db)
  {
    hide Keeps, StackChanges, StackCols, TargetWebhook, WantedStack;
    KeepsSelf(w, db);
    var key := RowKey(StackKind, env, st.name);
    var auto := st.autoDeploy && st.source.FromGit?;
    var hook := TargetWebhook(w, true, db, named, row.webhook, auto, st.name, env, cluster);
    HookKeeps(w, db, named, row.webhook, auto, st.name, env, cluster);
    HookTouches(w, true, db, named, row.webhook, auto, st.name, env, cluster);
    var s := ConvergeStack(w, true, db, env, st, cluster, cred, named, row, created);
    if hook.failed {
      PutKeeps(w, db, key, s.db.rows[key], s.db.nextID);
      assert s.db == db || s.db.rows == db.rows[key := s.db.rows[key]];
    } else {
      var want := WantedStack(w, db, st, cred, hook.link, row);
      WantedKept(w, db, st, cred, hook.link, row);
      assert hook.db.Stack(env, st.name) == Some(row);
      PutKeeps(w, hook.db, key, StackIn(want), hook.db.nextID);
      KeepsOn(w, db, hook.db, hook.db.Update(key, StackIn(want)));
    }
  }

  lemma StackKeepsRows(w: World, doc: Doc, db: Store, st: StackDecl)
    requires Typed(db)
    ensures Keeps(w, db, EnsureStack(w, doc, true, db, st).db)
  {
    hide Keeps, StackCols, FindCred, NamedWebhook, ConvergeStack;
    KeepsSelf(w, db);
    var cluster := Effective(doc, st.cluster);
    var env := EnvOf(w, cluster);
    if env.Some? {
      var cred := FindCred(doc, true, db, CredName(st.source));
      var named := NamedWebhook(doc, true, db, st.webhook, env.value);
      if cred.Some? && named.Some? {
        var found := db.Stack(env.value, st.name);
        if found.Some? {
          ConvergeKeeps(w, db, env.value, st, cluster, cred.value, named.value, found.value, false);
        } else {
          var row, db' := NewStack(db, st, cred.value), AddStack(db, env.value, st, cred.value);
          PutKeeps(w, db, RowKey(StackKind, env.value, st.name), StackIn(row), db.nextID + 1);
          ConvergeKeeps(w, db', env.value, st, cluster, cred.value, named.value, row, true);
          var s := ConvergeStack(w, true, db', env.value, st, cluster, cred.value, named.value, row, true);
          KeepsOn(w, db, db', s.db);
        }
      }
    }
  }

  lemma WantedKept(w: World, db: Store, st: StackDecl, cred: Link, hook: Link, row: StackRow)
    ensures Kept(StackIn(row), StackIn(WantedStack(w, db, st, cred, hook, row)))
  {
    MergeKeepsKeys(row.env, EnvWants(w, db, st.env));
    MergeKeepsKeys(row.secrets, FileWants(w, db, st.files));
    InPlace(row.env, EnvMerged(w, db, st, row).rows);
    InPlace(row.secrets, FilesMerged(w, db, st, row).rows);
  }

  lemma InPlace(rows: seq<SlotRow>, merged: seq<SlotRow>)
    requires KeysStay(rows, merged)
    ensures SlotsStay(rows, merged)
  {
    forall i | 0 <= i < |rows| ensures HasSlot(merged, rows[i].key) { assert merged[i].key == rows[i].key; }
  }

  lemma SlotsStayOn(a: seq<SlotRow>, b: seq<SlotRow>, c: seq<SlotRow>)
    requires SlotsStay(a, b) && SlotsStay(b, c)
    ensures SlotsStay(a, c)
  {
    forall i | 0 <= i < |a| ensures HasSlot(c, a[i].key) {
      assert HasSlot(b, a[i].key);
      var j :| 0 <= j < |b| && b[j].key == a[i].key;
      assert HasSlot(c, b[j].key);
    }
  }

  lemma KeptOn(a: Row, b: Row, c: Row)
    requires Kept(a, b) && Kept(b, c)
    ensures Kept(a, c)
  {
    if a.StackIn? {
      SlotsStayOn(a.stack.env, b.stack.env, c.stack.env);
      SlotsStayOn(a.stack.secrets, b.stack.secrets, c.stack.secrets);
    }
  }

  lemma KeptBorn(w: World, from: nat, k: RowKey, a: Row, b: Row)
    requires Kept(a, b) && TypedRow(k, a) && Born(w, from, a)
    ensures TypedRow(k, b) && Born(w, from, b)
  {
    hide SlotsStay, SameRows;
  }

  lemma BornLater(w: World, from: nat, since: nat, row: Row)
    requires from <= since && Born(w, since, row)
    ensures Born(w, from, row)
  {
  }

  lemma KeptSelf(row: Row)
    ensures Kept(row, row)
  {
    if row.StackIn? {
      InPlace(row.stack.env, row.stack.env);
      InPlace(row.stack.secrets, row.stack.secrets);
    }
  }

  lemma VolKeepsRows(w: World, doc: Doc, db: Store, v: VolDecl)
    requires Typed(db)
    ensures Keeps(w, db, EnsureVol(w, doc, true, db, v).db)
  {
    hide Keeps, Refused, VolMatches, VolCols, TargetWebhook, FindCred, FindStack, NamedWebhook;
    KeepsSelf(w, db);
    var cluster := Effective(doc, v.cluster);
    var env := EnvOf(w, cluster);
    if env.Some? {
      var named := NamedWebhook(doc, true, db, v.webhook, env.value);
      if named.Some? {
        var row := db.Vol(env.value, v.volume);
        var current := if row.Some? then row.value.webhook else NoLink;
        HookKeeps(w, db, named.value, current, v.autoSync, "volume-" + v.volume, env.value, cluster);
        HookTouches(w, true, db, named.value, current, v.autoSync, "volume-" + v.volume, env.value, cluster);
        var hook := VolHook(w, true, db, v, named.value, current, env.value, cluster);
        var s := EnsureVol(w, doc, true, db, v);
        if s.db != db && s.db != hook.db {
          var key := RowKey(VolKind, env.value, v.volume);
          PutKeeps(w, hook.db, key, s.db.rows[key], s.db.nextID);
          assert s.db.rows == hook.db.rows[key := s.db.rows[key]];
          KeepsOn(w, db, hook.db, s.db);
        }
      }
    }
  }

  // ── well-formed stores ──────────────────────────────────────────────────────────────

  /** A stored link points at an id already handed out, and is never the plan's stand-in. */
  predicate Below(l: Link, n: nat) { !l.PendingLink? && (l.LinkTo? ==> l.id < n) }

  predicate LinksBelow(row: Row, n: nat) {
    match row
    case GitCredIn(g) => Below(g.sshKey, n)
    case CertIn(c) => c.id < n && Below(c.caID, n)
    case CAIn(a) => a.id < n
    case DeliveriesIn(ds) => forall i :: 0 <= i < |ds| ==>
      (forall j :: 0 <= j < |ds[i].certs| ==> ds[i].certs[j].certID < n)
        && (forall j :: 0 <= j < |ds[i].bundle| ==> ds[i].bundle[j] < n)
    case StackIn(st) => Below(st.source.cred, n) && Below(st.webhook, n)
    case VolIn(v) => Below(v.source.cred, n) && Below(v.stack, n) && Below(v.webhook, n)
    case _ => true
  }

  ghost predicate WellFormed(db: Store) {
    Typed(db) && RowsDistinct(db) && forall k :: k in db.rows ==> LinksBelow(db.rows[k], db.nextID)
  }

  ghost predicate Unheard(w: World, db: Store, rows: seq<SlotRow>) {
    forall i, m :: 0 <= i < |rows| && m >= db.nextID ==> !Contains(rows[i].value, w.mint(m))
  }

  /** Material minted from now on appears in nothing a stack already holds. */
  ghost predicate FreshValues(w: World, db: Store) {
    forall k :: k in db.rows && db.rows[k].StackIn? ==>
      Unheard(w, db, db.rows[k].stack.env) && Unheard(w, db, db.rows[k].stack.secrets)
  }

  // ── what may go wrong: existing rows that refer to what this document will create ───────

  /** An existing row whose declaration refers to a row the document has yet to create. */
  ghost predicate RefersAhead(w: World, doc: Doc, db: Store, x: Item) {
    match x
    case CertItem(c) =>
      var env := PlaceOf(w, doc, c.shared, c.cluster);
      env.Some? && db.Cert(env.value, c.name).Some? && db.Cert(env.value, c.name).value.caID != NoLink
      && db.CA(c.ca).None? && Declares(doc, CAKind, c.ca)
    case DeliveryItem(d) =>
      var env := EnvOf(w, Effective(doc, d.cluster));
      && env.Some? && db.Deliveries(env.value, d.volume) != []
      && exists r :: r in d.certs && Shadowed(w, doc, db, env.value, r.name)
    case StackItem(st) =>
      var env := EnvOf(w, Effective(doc, st.cluster));
      env.Some? && db.Stack(env.value, st.name).Some? && CredAhead(doc, db, CredName(st.source))
    case VolItem(v) =>
      var env := EnvOf(w, Effective(doc, v.cluster));
      env.Some? && db.Vol(env.value, v.volume).Some?
      && (CredAhead(doc, db, VolCred(v))
          || (v.stack != "" && db.Stack(env.value, v.stack).None? && Declares(doc, StackKind, v.stack)))
    case _ => false
  }

  predicate CredAhead(doc: Doc, db: Store, name: string) {
    name != "" && db.GitCred(name).None? && Declares(doc, GitCredKind, name)
  }

  /** A shared certificate the document is about to cover with one of the environment's own. */
  ghost predicate Shadowed(w: World, doc: Doc, db: Store, env: string, name: string) {
    db.Cert(env, name).None? && db.Cert("", name).Some? && DeclaredKey(w, doc, RowKey(CertKind, env, name))
  }

  /** A target naming a webhook that is nowhere and not declared, whose name a target of this
      document may take for itself. */
  ghost predicate NameUpForGrabs(w: World, doc: Doc, db: Store, name: string) {
    name != "" && db.Webhook(name).None? && !Declares(doc, WebhookKind, name)
    && exists y :: y in doc.items && TakesName(w, doc, y, name)
  }

  /** An inline file set refused because of a delivery the document itself is about to change. */
  ghost predicate RefusalMayLift(w: World, doc: Doc, db: Store, v: VolDecl) {
    var env := EnvOf(w, Effective(doc, v.cluster));
    env.Some? && Refused(w, db, env.value, v.volume, VolFiles(v))
      && DeclaredKey(w, doc, RowKey(DeliveryKind, env.value, v.volume))
  }

  /** A shared certificate the delivery carries has been covered, and all its names are found. */
  ghost predicate Covered(w: World, doc: Doc, db: Store, s: Store, d: DeliveryDecl) {
    var env := EnvOf(w, Effective(doc, d.cluster));
    && env.Some?
    && ResolveCerts(doc, true, s, env.value, d.certs).Resolved? && ResolveCAs(doc, true, s, d.bundleCAs).Resolved?
    && exists r :: r in d.certs && Shadowed(w, doc, db, env.value, r.name) && s.Cert(env.value, r.name).Some?
  }

  /** The plan was made at db and apply meets this resource at s: a row the plan found in sync
      refers to what has only now been made (for a certificate, also a row to be updated); or what
      the plan refused, for a name a target has since taken or a file the document has since freed,
      is in nobody's way any more. */
  ghost predicate Surprised(w: World, doc: Doc, db: Store, s: Store, x: Item) {
    var p := Ensure(w, doc, false, db, x).verdict;
    match x
    case CertItem(c) => RefersAhead(w, doc, db, x) && s.CA(c.ca).Some? && p in {InSync, Update}
    case DeliveryItem(d) => p == InSync && Covered(w, doc, db, s, d)
    case StackItem(st) =>
      Awoken(w, doc, s, x) && ((p == InSync && RefersAhead(w, doc, db, x)) || NameUpForGrabs(w, doc, db, st.webhook))
    case VolItem(v) =>
      Awoken(w, doc, s, x)
      && ((p == InSync && RefersAhead(w, doc, db, x)) || NameUpForGrabs(w, doc, db, v.webhook)
          || RefusalMayLift(w, doc, db, v))
    case _ => false
  }

  /** Before anything is applied: no surprise can come. */
  ghost predicate Foreseeable(w: World, doc: Doc, db: Store, x: Item) {
    var p := Ensure(w, doc, false, db, x).verdict;
    && (RefersAhead(w, doc, db, x) ==> p != InSync && (x.CertItem? ==> p != Update))
    && (x.StackItem? ==> !NameUpForGrabs(w, doc, db, x.stack.webhook))
    && (x.VolItem? ==> !NameUpForGrabs(w, doc, db, x.vol.webhook) && !RefusalMayLift(w, doc, db, x.vol))
  }

  lemma ForeseenIsNoSurprise(w: World, doc: Doc, db: Store, s: Store, x: Item)
    requires Foreseeable(w, doc, db, x)
    ensures !Surprised(w, doc, db, s, x)
  {
    hide Awoken, EnsureStack, EnsureVol, EnsureCert, ResolveCerts, ResolveCAs, NameUpForGrabs, RefusalMayLift, Shadowed;
    if x.DeliveryItem? && Surprised(w, doc, db, s, x) { InSyncHasRow(w, doc, db, x.delivery); }
  }

  lemma InSyncHasRow(w: World, doc: Doc, db: Store, d: DeliveryDecl)
    requires EnsureDelivery(w, doc, false, db, d).verdict == InSync
    ensures var env := EnvOf(w, Effective(doc, d.cluster)); env.Some? && |db.Deliveries(env.value, d.volume)| == 1
  {
    hide ResolveCerts, ResolveCAs, DeliveryMatches;
  }

  predicate Matches(plan: Verdict, apply: Verdict) { apply == plan || apply == Blocked }

  // ── lookups, before and after ───────────────────────────────────────────────────────

  /** What the store holds when the walk reaches x, against what it held at the start. */
  ghost predicate Reached(w: World, doc: Doc, db: Store, s: Store, x: Item) {
    WellFormed(db) && Grows(w, doc, db, s) && (KeyOf(w, doc, x).Some? ==> Agree(db, s, KeyOf(w, doc, x).value))
  }

  lemma DeclaredName(w: World, doc: Doc, k: RowKey)
    requires DeclaredKey(w, doc, k)
    ensures Declares(doc, k.kind, k.name)
  {
  }

  lemma Looks(w: World, doc: Doc, db: Store, s: Store, k: RowKey)
    requires Typed(db) && Grows(w, doc, db, s)
    ensures k in db.rows ==>
      k in s.rows && Kept(db.rows[k], s.rows[k]) && TypedRow(k, db.rows[k]) && TypedRow(k, s.rows[k])
    ensures k !in db.rows && k in s.rows ==> TypedRow(k, s.rows[k]) && Born(w, db.nextID, s.rows[k])
                                             && (Declares(doc, k.kind, k.name) || AutoKey(w, doc, k))
  {
    hide DeclaredKey, AutoKey;
    if k !in db.rows && k in s.rows && DeclaredKey(w, doc, k) { DeclaredName(w, doc, k); }
  }

  lemma SSHKeyLooks(w: World, doc: Doc, db: Store, s: Store, n: string)
    requires Typed(db) && Grows(w, doc, db, s)
    ensures db.SSHKey(n).Some? ==> s.SSHKey(n) == db.SSHKey(n)
    ensures db.SSHKey(n).None? && s.SSHKey(n).Some? ==>
            Declares(doc, SSHKeyKind, n) && s.SSHKey(n).value.id >= db.nextID
  {
    Looks(w, doc, db, s, RowKey(SSHKeyKind, "", n));
  }

  lemma GitCredLooks(w: World, doc: Doc, db: Store, s: Store, n: string)
    requires Typed(db) && Grows(w, doc, db, s)
    ensures db.GitCred(n).Some? ==> s.GitCred(n) == db.GitCred(n)
    ensures db.GitCred(n).None? && s.GitCred(n).Some? ==>
            Declares(doc, GitCredKind, n) && s.GitCred(n).value.id >= db.nextID
  {
    Looks(w, doc, db, s, RowKey(GitCredKind, "", n));
  }

  lemma CALooks(w: World, doc: Doc, db: Store, s: Store, n: string)
    requires Typed(db) && Grows(w, doc, db, s)
    ensures db.CA(n).Some? ==>
            s.CA(n).Some? && s.CA(n).value.id == db.CA(n).value.id && s.CA(n).value.canSign == db.CA(n).value.canSign
    ensures db.CA(n).None? && s.CA(n).Some? ==>
            Declares(doc, CAKind, n) && s.CA(n).value.id >= db.nextID && s.CA(n).value.canSign
  {
    Looks(w, doc, db, s, RowKey(CAKind, "", n));
  }

  lemma CertLooks(w: World, doc: Doc, db: Store, s: Store, env: string, n: string)
    requires Typed(db) && Grows(w, doc, db, s)
    ensures db.Cert(env, n).Some? ==> s.Cert(env, n).Some? && s.Cert(env, n).value.id == db.Cert(env, n).value.id
    ensures db.Cert(env, n).None? && s.Cert(env, n).Some? ==>
      Declares(doc, CertKind, n) && s.Cert(env, n).value.id >= db.nextID
        && DeclaredKey(w, doc, RowKey(CertKind, env, n))
  {
    var k := RowKey(CertKind, env, n);
    Looks(w, doc, db, s, k);
    if k !in db.rows && k in s.rows { assert !Agree(db, s, k); }
  }

  lemma StackLooks(w: World, doc: Doc, db: Store, s: Store, env: string, n: string)
    requires Typed(db) && Grows(w, doc, db, s)
    ensures db.Stack(env, n).Some? ==> s.Stack(env, n).Some? && s.Stack(env, n).value.id == db.Stack(env, n).value.id
    ensures db.Stack(env, n).None? && s.Stack(env, n).Some? ==>
            Declares(doc, StackKind, n) && s.Stack(env, n).value.id >= db.nextID
  {
    Looks(w, doc, db, s, RowKey(StackKind, env, n));
  }

  lemma WebhookLooks(w: World, doc: Doc, db: Store, s: Store, n: string)
    requires Typed(db) && Grows(w, doc, db, s)
    ensures db.Webhook(n).Some? ==> s.Webhook(n) == db.Webhook(n)
    ensures db.Webhook(n).None? && s.Webhook(n).Some? ==>
      s.Webhook(n).value.id >= db.nextID && (Declares(doc, WebhookKind, n) || AutoKey(w, doc, HookKey(n)))
  {
    Looks(w, doc, db, s, HookKey(n));
  }

  // ── resource by resource ────────────────────────────────────────────────────────────

  lemma GitCredAgrees(w: World, doc: Doc, db: Store, s: Store, g: GitCredDecl)
    requires Reached(w, doc, db, s, GitCredItem(g))
    ensures Matches(EnsureGitCred(w, doc, false, db, g).verdict, EnsureGitCred(w, doc, true, s, g).verdict)
  {
    hide Grows, Declares;
    SSHKeyLooks(w, doc, db, s, g.sshKey);
    assert s.GitCred(g.name) == db.GitCred(g.name);
  }

  lemma CertAgrees(w: World, doc: Doc, db: Store, s: Store, c: CertDecl)
    requires Reached(w, doc, db, s, CertItem(c))
    ensures Matches(EnsureCert(w, doc, false, db, c).verdict, EnsureCert(w, doc, true, s, c).verdict)
            <==> !Surprised(w, doc, db, s, CertItem(c))
  {
    hide Grows, Declares;
    CALooks(w, doc, db, s, c.ca);
    var env := PlaceOf(w, doc, c.shared, c.cluster);
    if env.Some? {
      assert s.Cert(env.value, c.name) == db.Cert(env.value, c.name);
      var row := db.Cert(env.value, c.name);
      if row.Some? { assert LinksBelow(CertIn(row.value), db.nextID); }
    }
  }

  lemma SimpleAgrees(w: World, doc: Doc, db: Store, s: Store, x: Item)
    requires Reached(w, doc, db, s, x)
    requires x.SSHKeyItem? || x.CAItem? || x.GeneratedItem? || x.WebhookItem?
    ensures Matches(Ensure(w, doc, false, db, x).verdict, Ensure(w, doc, true, s, x).verdict)
  {
    hide Grows, Declares;
  }

  // ── deliveries ──────────────────────────────────────────────────────────────────────

  ghost predicate HasFreshCert(db: Store, certs: seq<Carried>) {
    exists j :: 0 <= j < |certs| && certs[j].certID >= db.nextID
  }

  ghost predicate HasFreshCA(db: Store, bundle: seq<nat>) {
    exists j :: 0 <= j < |bundle| && bundle[j] >= db.nextID
  }

  lemma {:induction false} ResolveGrows(w: World, doc: Doc, db: Store, s: Store, env: string, refs: seq<CertRef>)
    requires Typed(db) && Grows(w, doc, db, s)
    ensures var p, a := ResolveCerts(doc, false, db, env, refs), ResolveCerts(doc, true, s, env, refs);
      && (p.Missing? ==> a.Missing?)
      && (p.Resolved? && a.Resolved? ==>
           (!p.pending && a.found == p.found)
           || (HasFreshCert(db, a.found)
               && (p.pending
                   || exists r :: r in refs && Shadowed(w, doc, db, env, r.name) && s.Cert(env, r.name).Some?)))
  {
    hide Grows, Declares, Shadowed;
    if refs != [] {
      var n, rest := refs[0].name, refs[1..];
      CertLooks(w, doc, db, s, env, n);
      CertLooks(w, doc, db, s, "", n);
      ResolveGrows(w, doc, db, s, env, rest);
      var p, a := ResolveCerts(doc, false, db, env, refs), ResolveCerts(doc, true, s, env, refs);
      var p', a' := ResolveCerts(doc, false, db, env, rest), ResolveCerts(doc, true, s, env, rest);
      if p.Resolved? && a.Resolved? {
        assert a.found[1..] == a'.found;
        if HasFreshCert(db, a'.found) {
          var j :| 0 <= j < |a'.found| && a'.found[j].certID >= db.nextID;
          assert a.found[j + 1].certID >= db.nextID;
        }
        if a.found[0].certID >= db.nextID {
          FreshHead(w, doc, db, s, env, n);
          assert refs[0] in refs;
        }
      }
    }
  }

  lemma FreshHead(w: World, doc: Doc, db: Store, s: Store, env: string, n: string)
    requires Typed(db) && Grows(w, doc, db, s)
    ensures FindCert(db, env, n).Some? && s.Cert(env, n).Some? && db.Cert(env, n).None? ==> Shadowed(w, doc, db, env, n)
  {
    CertLooks(w, doc, db, s, env, n);
  }

  lemma {:induction false} CoverIsFresh(w: World, doc: Doc, db: Store, s: Store, env: string, refs: seq<CertRef>,
                                        r: CertRef)
    requires Typed(db) && Grows(w, doc, db, s) && r in refs && db.Cert(env, r.name).None? && s.Cert(env, r.name).Some?
    ensures var a := ResolveCerts(doc, true, s, env, refs); a.Resolved? ==> HasFreshCert(db, a.found)
  {
    hide Grows, Declares;
    var a := ResolveCerts(doc, true, s, env, refs);
    if a.Resolved? {
      if r == refs[0] {
        CertLooks(w, doc, db, s, env, r.name);
        assert a.found[0].certID >= db.nextID;
      } else {
        CoverIsFresh(w, doc, db, s, env, refs[1..], r);
        var a' := ResolveCerts(doc, true, s, env, refs[1..]);
        assert a.found[1..] == a'.found;
        var j :| 0 <= j < |a'.found| && a'.found[j].certID >= db.nextID;
        assert a.found[j + 1].certID >= db.nextID;
      }
    }
  }

  lemma {:induction false} ResolveCAsGrows(w: World, doc: Doc, db: Store, s: Store, names: seq<string>)
    requires Typed(db) && Grows(w, doc, db, s)
    ensures var p, a := ResolveCAs(doc, false, db, names), ResolveCAs(doc, true, s, names);
      && (p.Missing? ==> a.Missing?)
      && (p.Resolved? && a.Resolved? ==> (!p.pending && a.found == p.found) || (HasFreshCA(db, a.found) && p.pending))
  {
    hide Grows, Declares;
    if names != [] {
      CALooks(w, doc, db, s, names[0]);
      ResolveCAsGrows(w, doc, db, s, names[1..]);
      var p, a := ResolveCAs(doc, false, db, names), ResolveCAs(doc, true, s, names);
      var a' := ResolveCAs(doc, true, s, names[1..]);
      if p.Resolved? && a.Resolved? {
        assert a.found[1..] == a'.found;
        if HasFreshCA(db, a'.found) {
          var j :| 0 <= j < |a'.found| && a'.found[j] >= db.nextID;
          assert a.found[j + 1] >= db.nextID;
        }
        assert a.found[0] >= db.nextID ==> HasFreshCA(db, a.found);
      }
    }
  }

  lemma FreshNeverMatches(db: Store, row: DeliveryRow, d: DeliveryDecl, certs: seq<Carried>, bundle: seq<nat>,
                          mount: string)
    requires LinksBelow(DeliveriesIn([row]), db.nextID)
    requires HasFreshCert(db, certs) || HasFreshCA(db, bundle)
    ensures !DeliveryMatches(row, d, certs, bundle, mount)
  {
    assert [row][0] == row;
    if HasFreshCert(db, certs) {
      var j :| 0 <= j < |certs| && certs[j].certID >= db.nextID;
      assert certs[j] in multiset(certs) && certs[j] !in multiset(row.certs);
    } else {
      var j :| 0 <= j < |bundle| && bundle[j] >= db.nextID;
      assert bundle[j] in multiset(bundle) && bundle[j] !in multiset(row.bundle);
    }
  }

  lemma DeliveryAgrees(w: World, doc: Doc, db: Store, s: Store, d: DeliveryDecl)
    requires Reached(w, doc, db, s, DeliveryItem(d)) && !EnsureDelivery(w, doc, true, s, d).failed
    ensures Matches(EnsureDelivery(w, doc, false, db, d).verdict, EnsureDelivery(w, doc, true, s, d).verdict)
            <==> !Surprised(w, doc, db, s, DeliveryItem(d))
  {
    hide Grows, Declares, ResolveCerts, ResolveCAs, HasFreshCert, HasFreshCA, RepeatsCert, DeliveryMatches, Shadowed;
    var env := EnvOf(w, Effective(doc, d.cluster));
    if env.Some? {
      ResolveGrows(w, doc, db, s, env.value, d.certs);
      ResolveCAsGrows(w, doc, db, s, d.bundleCAs);
      NothingPending(doc, s, env.value, d.certs, d.bundleCAs);
      var rows := db.Deliveries(env.value, d.volume);
      assert s.Deliveries(env.value, d.volume) == rows;
      var certs, bundle := ResolveCerts(doc, true, s, env.value, d.certs), ResolveCAs(doc, true, s, d.bundleCAs);
      if Covered(w, doc, db, s, d) {
        var r :| r in d.certs && Shadowed(w, doc, db, env.value, r.name) && s.Cert(env.value, r.name).Some?;
        ShadowedIsNew(w, doc, db, env.value, r.name);
        CoverIsFresh(w, doc, db, s, env.value, d.certs, r);
      }
      if |rows| == 1 && certs.Resolved? && bundle.Resolved? && w.mount(d.mountPath).Some?
         && (HasFreshCert(db, certs.found) || HasFreshCA(db, bundle.found)) {
        assert rows == [rows[0]];
        assert LinksBelow(DeliveriesIn(rows), db.nextID);
        FreshNeverMatches(db, rows[0], d, certs.found, bundle.found, w.mount(d.mountPath).value);
      }
    }
  }

  lemma ShadowedIsNew(w: World, doc: Doc, db: Store, env: string, n: string)
    requires Shadowed(w, doc, db, env, n)
    ensures db.Cert(env, n).None?
  {
  }

  // ── stacks ──────────────────────────────────────────────────────────────────────────

  lemma {:induction false} ContainsAfter(pre: string, s: string, sub: string)
    requires Contains(s, sub)
    ensures Contains(pre + s, sub)
  {
    if pre == "" {
      assert pre + s == s;
    } else {
      assert (pre + s)[1..] == pre[1..] + s;
      ContainsAfter(pre[1..], s, sub);
    }
  }

  lemma ContainsPrefix(sub: string, post: string)
    ensures Contains(sub + post, sub)
  {
  }

  ghost predicate MintedSince(w: World, db: Store, value: string) {
    exists m :: m >= db.nextID && Contains(value, w.mint(m))
  }

  lemma GeneratedLooks(w: World, doc: Doc, db: Store, s: Store, n: string)
    requires Typed(db) && Grows(w, doc, db, s)
    ensures db.Generated(n).Some? ==> s.Generated(n) == db.Generated(n)
    ensures db.Generated(n).None? && s.Generated(n).Some? ==>
      s.Generated(n).value.id >= db.nextID && s.Generated(n).value.value == w.mint(s.Generated(n).value.id)
  {
    Looks(w, doc, db, s, RowKey(GeneratedKind, "", n));
  }

  lemma {:induction false} ExpandGrows(w: World, doc: Doc, db: Store, s: Store, pieces: seq<Piece>)
    requires Typed(db) && Grows(w, doc, db, s)
    ensures Expand(pieces, s).Some? ==>
      Expand(pieces, db) == Expand(pieces, s)
        || (Expand(pieces, db).None? && MintedSince(w, db, Expand(pieces, s).value))
  {
    hide Grows, Contains;
    if pieces != [] {
      ExpandGrows(w, doc, db, s, pieces[1..]);
      var rest := Expand(pieces[1..], s);
      if Expand(pieces, s).Some? && Expand(pieces[1..], db).None? {
        var m :| m >= db.nextID && Contains(rest.value, w.mint(m));
        var head := if pieces[0].Text? then pieces[0].text else s.Generated(pieces[0].name).value.value;
        ContainsAfter(head, rest.value, w.mint(m));
        assert Expand(pieces, s).value == head + rest.value;
      } else if Expand(pieces, s).Some? && pieces[0].Reference? {
        GeneratedLooks(w, doc, db, s, pieces[0].name);
        var g := s.Generated(pieces[0].name).value;
        ContainsPrefix(g.value, rest.value);
      }
    }
  }

  /** How a slot's declaration reads before and after generated material appears. */
  ghost predicate WantGrown(w: World, db: Store, before: Want, after: Want) {
    before == after
    || (before.intent.Awaited? && after.intent.Known? && after == before.(intent := after.intent)
        && MintedSince(w, db, after.intent.value))
  }

  lemma FromGeneratedGrows(w: World, doc: Doc, db: Store, s: Store, n: string)
    requires Typed(db) && Grows(w, doc, db, s) && s.Generated(n).Some?
    ensures var before, after := FromGenerated(n, db), FromGenerated(n, s);
      before == after || (before.Awaited? && MintedSince(w, db, after.value))
  {
    GeneratedLooks(w, doc, db, s, n);
    var v := s.Generated(n).value.value;
    ContainsPrefix(v, "");
    assert v + "" == v;
  }

  lemma EnvWantGrows(w: World, doc: Doc, db: Store, s: Store, v: EnvDecl)
    requires Typed(db) && Grows(w, doc, db, s) && !EnvWant(w, s, v).intent.Awaited?
    ensures WantGrown(w, db, EnvWant(w, db, v), EnvWant(w, s, v))
  {
    hide Grows, MintedSince, Expand;
    if v.secret && v.fromGenerated != "" {
      FromGeneratedGrows(w, doc, db, s, v.fromGenerated);
    } else {
      ExpandGrows(w, doc, db, s, w.pieces(v.value));
    }
  }

  lemma FileWantGrows(w: World, doc: Doc, db: Store, s: Store, f: SecretFileDecl)
    requires Typed(db) && Grows(w, doc, db, s) && !FileWant(w, s, f).intent.Awaited?
    ensures WantGrown(w, db, FileWant(w, db, f), FileWant(w, s, f))
  {
    hide Grows, MintedSince, Expand;
    if f.valueFromEnv == "" && f.fromGenerated != "" {
      FromGeneratedGrows(w, doc, db, s, f.fromGenerated);
    } else {
      ExpandGrows(w, doc, db, s, w.pieces(f.value));
    }
  }

  /** A merge reports a change before the material exists exactly when it does so after. */
  lemma ChangedAlike(w: World, db: Store, rows: seq<SlotRow>, before: seq<Want>, after: seq<Want>)
    requires DistinctRows(rows) && DistinctWants(before) && DistinctWants(after) && |before| == |after|
    requires Unheard(w, db, rows)
    requires forall i :: 0 <= i < |before| ==> WantGrown(w, db, before[i], after[i])
    ensures Merge(rows, before).changed == Merge(rows, after).changed
  {
    hide MintedSince, Contains;
    if i :| 0 <= i < |before| && before[i] != after[i] {
      ChangedIsHonest(rows, before);
      assert Merge(rows, before).changed;
      MintedIsNew(w, db, rows, after[i]);
      MergeLookup(rows, after, after[i].key);
      ChangedIsHonest(rows, after);
    } else {
      assert before == after;
    }
  }

  lemma MintedIsNew(w: World, db: Store, rows: seq<SlotRow>, want: Want)
    requires Unheard(w, db, rows) && want.intent.Known? && MintedSince(w, db, want.intent.value)
    ensures Landed(want, Lookup(rows, want.key)) != Lookup(rows, want.key)
  {
  }

  lemma MergesAgree(w: World, doc: Doc, db: Store, s: Store, st: StackDecl, row: StackRow)
    requires Typed(db) && Grows(w, doc, db, s)
    requires DistinctKeys(st.env) && DistinctFiles(st.files) && DistinctRows(row.env) && DistinctRows(row.secrets)
    requires Unheard(w, db, row.env) && Unheard(w, db, row.secrets) && Minted(w, s, StackItem(st))
    ensures EnvMerged(w, db, st, row).changed == EnvMerged(w, s, st, row).changed
    ensures FilesMerged(w, db, st, row).changed == FilesMerged(w, s, st, row).changed
  {
    hide Grows, Unheard, Merge, EnvWant, FileWant, WantGrown;
    forall i | 0 <= i < |st.env| ensures WantGrown(w, db, EnvWant(w, db, st.env[i]), EnvWant(w, s, st.env[i])) {
      EnvWantGrows(w, doc, db, s, st.env[i]);
    }
    forall i | 0 <= i < |st.files| ensures WantGrown(w, db, FileWant(w, db, st.files[i]), FileWant(w, s, st.files[i])) {
      FileWantGrows(w, doc, db, s, st.files[i]);
    }
    WantsDistinct(w, db, st);
    WantsDistinct(w, s, st);
    ChangedAlike(w, db, row.env, EnvWants(w, db, st.env), EnvWants(w, s, st.env));
    ChangedAlike(w, db, row.secrets, FileWants(w, db, st.files), FileWants(w, s, st.files));
  }

  /** A link resolved by a plan and by the apply after it: the same, or still unmade and then fresh. */
  predicate LinkGrown(db: Store, before: Link, after: Link) {
    before == after || (!before.LinkTo? && after.LinkTo? && after.id >= db.nextID)
  }

  lemma NamedGrows(w: World, doc: Doc, db: Store, s: Store, name: string, env: string)
    requires Typed(db) && Grows(w, doc, db, s) && !NameUpForGrabs(w, doc, db, name)
    ensures var before, after := NamedWebhook(doc, false, db, name, env), NamedWebhook(doc, true, s, name, env);
      && (before.None? ==> after.None?)
      && (before.Some? && after.Some? ==>
            LinkGrown(db, before.value, after.value) && (before.value == NoLink <==> after.value == NoLink))
  {
    hide Grows;
    WebhookLooks(w, doc, db, s, name);
  }

  lemma CredGrows(w: World, doc: Doc, db: Store, s: Store, name: string)
    requires Typed(db) && Grows(w, doc, db, s)
    ensures var before, after := FindCred(doc, false, db, name), FindCred(doc, true, s, name);
      && (before.None? ==> after.None?)
      && (before.Some? && after.Some? ==>
            if CredAhead(doc, db, name) then after.value.LinkTo? && after.value.id >= db.nextID else after == before)
  {
    hide Grows, Declares;
    GitCredLooks(w, doc, db, s, name);
  }

  /** Whether a stored link has to move does not depend on whether its webhook exists yet. */
  lemma HookAgrees(w: World, db: Store, s: Store, before: Link, after: Link, current: Link, auto: bool,
                   base: string, env: string, cluster: string)
    requires Below(current, db.nextID) && db.nextID <= s.nextID
    requires LinkGrown(db, before, after) && (before == NoLink <==> after == NoLink)
    ensures var p := TargetWebhook(w, false, db, before, current, auto, base, env, cluster);
      var a := TargetWebhook(w, true, s, after, current, auto, base, env, cluster);
      !p.failed && p.db == db && (!a.failed ==> (current == p.link <==> current == a.link))
  {
    hide FreeName;
  }

  lemma ConvergeAgrees(w: World, doc: Doc, db: Store, s: Store, env: string, st: StackDecl, cluster: string,
                       cred: Link, cred': Link, named: Link, named': Link, row: StackRow)
    requires Typed(db) && Grows(w, doc, db, s) && FreshValues(w, db) && WellFormed(db)
    requires DistinctKeys(st.env) && DistinctFiles(st.files) && Minted(w, s, StackItem(st))
    requires db.Stack(env, st.name) == Some(row)
    requires LinkGrown(db, named, named') && (named == NoLink <==> named' == NoLink)
    requires cred == cred' || (st.source.FromGit? && cred'.LinkTo? && cred'.id >= db.nextID)
    ensures var p := ConvergeStack(w, false, db, env, st, cluster, cred, named, row, false);
      var a := ConvergeStack(w, true, s, env, st, cluster, cred', named', row, false);
      && (!a.failed && (p.verdict == InSync ==> cred == cred') ==> a.verdict == p.verdict)
  {
    hide Grows, EnvMerged, FilesMerged, TargetWebhook, FreshValues, Minted, DistinctRows, Unheard;
    var key := RowKey(StackKind, env, st.name);
    assert key in db.rows && db.rows[key] == StackIn(row);
    assert Unheard(w, db, row.env) && Unheard(w, db, row.secrets) by { SlotsFresh(w, db, key); }
    MergesAgree(w, doc, db, s, st, row);
    assert db.nextID <= s.nextID by { GrowsUp(w, doc, db, s); }
    HookAgrees(w, db, s, named, named', row.webhook, st.autoDeploy && st.source.FromGit?, st.name, env, cluster);
    assert LinksBelow(StackIn(row), db.nextID);
  }

  lemma GrowsUp(w: World, doc: Doc, db: Store, s: Store)
    requires Grows(w, doc, db, s)
    ensures db.nextID <= s.nextID
  {
  }

  lemma SlotsFresh(w: World, db: Store, k: RowKey)
    requires FreshValues(w, db) && k in db.rows && db.rows[k].StackIn?
    ensures Unheard(w, db, db.rows[k].stack.env) && Unheard(w, db, db.rows[k].stack.secrets)
  {
  }

  lemma StackAgrees(w: World, doc: Doc, db: Store, s: Store, st: StackDecl)
    requires Reached(w, doc, db, s, StackItem(st)) && FreshValues(w, db)
    requires ItemOK(StackItem(st)) && Minted(w, s, StackItem(st)) && !EnsureStack(w, doc, true, s, st).failed
    ensures Matches(EnsureStack(w, doc, false, db, st).verdict, EnsureStack(w, doc, true, s, st).verdict)
            <==> !Surprised(w, doc, db, s, StackItem(st))
  {
    hide EnsureStack, Awoken, RefersAhead, NameUpForGrabs, Reached, ItemOK, Minted, FreshValues;
    RefusedUnlessAwoken(w, doc, s, StackItem(st));
    var p := EnsureStack(w, doc, false, db, st).verdict;
    if NameUpForGrabs(w, doc, db, st.webhook) {
      GrabbedIsRefused(w, doc, db, st);
    } else if p == InSync && RefersAhead(w, doc, db, StackItem(st)) {
      if Awoken(w, doc, s, StackItem(st)) { StackSurprise(w, doc, db, s, st); }
    } else {
      StackForeseen(w, doc, db, s, st);
    }
  }

  lemma GrabbedIsRefused(w: World, doc: Doc, db: Store, st: StackDecl)
    requires NameUpForGrabs(w, doc, db, st.webhook)
    ensures EnsureStack(w, doc, false, db, st) == Step(db, Blocked, false)
  {
    hide FindCred, PlaceStack;
  }

  lemma StackSurprise(w: World, doc: Doc, db: Store, s: Store, st: StackDecl)
    requires Reached(w, doc, db, s, StackItem(st)) && RefersAhead(w, doc, db, StackItem(st))
    requires Awoken(w, doc, s, StackItem(st)) && !EnsureStack(w, doc, true, s, st).failed
    ensures EnsureStack(w, doc, true, s, st).verdict != InSync
  {
    hide Grows, Declares, TargetWebhook, EnvMerged, FilesMerged, WantedStack, NamedWebhook, Typed, RowsDistinct;
    assert Typed(db);
    CredGrows(w, doc, db, s, CredName(st.source));
    var env := EnvOf(w, Effective(doc, st.cluster));
    var row := db.Stack(env.value, st.name);
    assert s.Stack(env.value, st.name) == row;
    assert LinksBelow(StackIn(row.value), db.nextID);
  }

  lemma StackForeseen(w: World, doc: Doc, db: Store, s: Store, st: StackDecl)
    requires Reached(w, doc, db, s, StackItem(st)) && FreshValues(w, db) && !NameUpForGrabs(w, doc, db, st.webhook)
    requires RefersAhead(w, doc, db, StackItem(st)) ==> EnsureStack(w, doc, false, db, st).verdict != InSync
    requires ItemOK(StackItem(st)) && Minted(w, s, StackItem(st))
    requires !EnsureStack(w, doc, true, s, st).failed
    ensures Matches(EnsureStack(w, doc, false, db, st).verdict, EnsureStack(w, doc, true, s, st).verdict)
  {
    hide Grows, Declares, ConvergeStack, FreshValues, Minted, WellFormed, FindCred, NamedWebhook, DistinctKeys,
         DistinctFiles;
    hide NameUpForGrabs;
    assert Typed(db) by { FormTyped(db); }
    var cluster := Effective(doc, st.cluster);
    var env := EnvOf(w, cluster);
    if env.Some? {
      CredGrows(w, doc, db, s, CredName(st.source));
      NamedGrows(w, doc, db, s, st.webhook, env.value);
      var cred, cred' := FindCred(doc, false, db, CredName(st.source)), FindCred(doc, true, s, CredName(st.source));
      var named, named' := NamedWebhook(doc, false, db, st.webhook, env.value),
          NamedWebhook(doc, true, s, st.webhook, env.value);
      var row := db.Stack(env.value, st.name);
      assert s.Stack(env.value, st.name) == row;
      if cred'.Some? && named'.Some? {
        if row.Some? {
          ConvergeAgrees(w, doc, db, s, env.value, st, cluster, cred.value, cred'.value, named.value, named'.value,
                         row.value);
        } else {
          CreatedIsNotCalm(w, AddStack(s, env.value, st, cred'.value), env.value, st, cluster, cred'.value,
                           named'.value, NewStack(s, st, cred'.value));
        }
      }
    }
  }

  lemma FormTyped(db: Store)
    requires WellFormed(db)
    ensures Typed(db)
  {
  }

  // ── volume sources ──────────────────────────────────────────────────────────────────

  lemma StackLinkGrows(w: World, doc: Doc, db: Store, s: Store, env: string, name: string)
    requires Typed(db) && Grows(w, doc, db, s)
    ensures var before, after := FindStack(doc, false, db, env, name), FindStack(doc, true, s, env, name);
      && (before.None? ==> after.None?)
      && (before.Some? && after.Some? ==>
            if name != "" && db.Stack(env, name).None? && Declares(doc, StackKind, name)
            then after.value.LinkTo? && after.value.id >= db.nextID else after == before)
  {
    hide Grows, Declares;
    StackLooks(w, doc, db, s, env, name);
  }

  /** A refusal stands while the delivery behind it is not the document's to change. */
  lemma RefusalStands(w: World, doc: Doc, db: Store, s: Store, env: string, volume: string, files: seq<VolFile>)
    requires Typed(db) && Grows(w, doc, db, s) && !DeclaredKey(w, doc, RowKey(DeliveryKind, env, volume))
    requires Refused(w, db, env, volume, files)
    ensures Refused(w, s, env, volume, files)
  {
    hide DeclaredKey, AutoKey, TraefikOn, Kept;
    var k := RowKey(DeliveryKind, env, volume);
    assert !AutoKey(w, doc, k) by { NotAuto(w, doc, k); }
    assert Agree(db, s, k);
    var i :| 0 <= i < |files| &&
             (DeliveryOwns(db, env, volume, files[i].path)
              || ((env, volume) in w.fleetOwned && files[i].path in w.fleetOwned[(env, volume)]));
    var d := TraefikOn(db.Deliveries(env, volume));
    if d.Some? && CertFile(db, d.value.certs, files[i].path) {
      CertFileStands(w, doc, db, s, d.value.certs, files[i].path);
    }
  }

  lemma NotAuto(w: World, doc: Doc, k: RowKey)
    requires k.kind != WebhookKind
    ensures !AutoKey(w, doc, k)
  {
  }

  lemma CertFileStands(w: World, doc: Doc, db: Store, s: Store, certs: seq<Carried>, name: string)
    requires Grows(w, doc, db, s) && CertFile(db, certs, name)
    ensures CertFile(s, certs, name)
  {
    hide DeclaredKey, AutoKey;
    var i, k :| 0 <= i < |certs| && k in db.rows && k.kind == CertKind && db.rows[k].CertIn? &&
                db.rows[k].cert.id == certs[i].certID &&
                (name == db.rows[k].cert.name + ".crt" || name == db.rows[k].cert.name + ".key");
    assert Kept(db.rows[k], s.rows[k]);
  }

  lemma PlaceVolAgrees(w: World, db: Store, s: Store, env: string, v: VolDecl, cluster: string, cred: Link, cred': Link,
                       stack: Link, stack': Link, named: Link, named': Link)
    requires db.nextID <= s.nextID && s.Vol(env, v.volume) == db.Vol(env, v.volume)
    requires db.Vol(env, v.volume).Some? ==> LinksBelow(VolIn(db.Vol(env, v.volume).value), db.nextID)
    requires LinkGrown(db, named, named') && (named == NoLink <==> named' == NoLink)
    requires cred == cred' || (v.content.GitContent? && cred'.LinkTo? && cred'.id >= db.nextID)
    requires stack == stack' || (stack'.LinkTo? && stack'.id >= db.nextID)
    ensures var p := PlaceVol(w, false, db, env, v, cluster, cred, stack, named);
      var a := PlaceVol(w, true, s, env, v, cluster, cred', stack', named');
      !a.failed && (db.Vol(env, v.volume).Some? && p.verdict == InSync ==> cred == cred' && stack == stack') ==>
        a.verdict == p.verdict
  {
    hide TargetWebhook, SameFiles;
    var row := db.Vol(env, v.volume);
    if row.Some? {
      HookAgrees(w, db, s, named, named', row.value.webhook, v.autoSync, "volume-" + v.volume, env, cluster);
    }
  }

  lemma VolAgrees(w: World, doc: Doc, db: Store, s: Store, v: VolDecl)
    requires Reached(w, doc, db, s, VolItem(v)) && !EnsureVol(w, doc, true, s, v).failed
    ensures Matches(EnsureVol(w, doc, false, db, v).verdict, EnsureVol(w, doc, true, s, v).verdict)
            <==> !Surprised(w, doc, db, s, VolItem(v))
  {
    hide EnsureVol, Awoken, RefersAhead, NameUpForGrabs, RefusalMayLift, Reached;
    RefusedUnlessAwoken(w, doc, s, VolItem(v));
    var p := EnsureVol(w, doc, false, db, v).verdict;
    if NameUpForGrabs(w, doc, db, v.webhook) || RefusalMayLift(w, doc, db, v) {
      VolRefused(w, doc, db, v);
    } else if p == InSync && RefersAhead(w, doc, db, VolItem(v)) {
      VolSurprise(w, doc, db, s, v);
    } else {
      VolForeseen(w, doc, db, s, v);
    }
  }

  lemma VolRefused(w: World, doc: Doc, db: Store, v: VolDecl)
    requires NameUpForGrabs(w, doc, db, v.webhook) || RefusalMayLift(w, doc, db, v)
    ensures EnsureVol(w, doc, false, db, v) == Step(db, Blocked, false)
  {
    hide FindCred, FindStack, PlaceVol, Refused, DeclaredKey;
  }

  lemma VolSurprise(w: World, doc: Doc, db: Store, s: Store, v: VolDecl)
    requires Reached(w, doc, db, s, VolItem(v)) && RefersAhead(w, doc, db, VolItem(v))
    requires !EnsureVol(w, doc, true, s, v).failed
    ensures EnsureVol(w, doc, true, s, v).verdict != InSync
  {
    hide Grows, Declares, TargetWebhook, Refused, SameFiles, NamedWebhook, Typed, RowsDistinct;
    var env := EnvOf(w, Effective(doc, v.cluster));
    CredGrows(w, doc, db, s, VolCred(v));
    StackLinkGrows(w, doc, db, s, env.value, v.stack);
    var row := db.Vol(env.value, v.volume);
    assert s.Vol(env.value, v.volume) == row;
    assert LinksBelow(VolIn(row.value), db.nextID);
  }

  lemma VolForeseen(w: World, doc: Doc, db: Store, s: Store, v: VolDecl)
    requires Reached(w, doc, db, s, VolItem(v)) && !EnsureVol(w, doc, true, s, v).failed
    requires !NameUpForGrabs(w, doc, db, v.webhook) && !RefusalMayLift(w, doc, db, v)
    requires RefersAhead(w, doc, db, VolItem(v)) ==> EnsureVol(w, doc, false, db, v).verdict != InSync
    ensures Matches(EnsureVol(w, doc, false, db, v).verdict, EnsureVol(w, doc, true, s, v).verdict)
  {
    hide Grows, Declares, PlaceVol, Refused, FindCred, FindStack, NamedWebhook, NameUpForGrabs, DeclaredKey;
    var cluster := Effective(doc, v.cluster);
    var env := EnvOf(w, cluster);
    if env.Some? {
      CredGrows(w, doc, db, s, VolCred(v));
      StackLinkGrows(w, doc, db, s, env.value, v.stack);
      NamedGrows(w, doc, db, s, v.webhook, env.value);
      if Refused(w, db, env.value, v.volume, VolFiles(v)) {
        RefusalStands(w, doc, db, s, env.value, v.volume, VolFiles(v));
      }
      var cred, cred' := FindCred(doc, false, db, VolCred(v)), FindCred(doc, true, s, VolCred(v));
      var stack, stack' := FindStack(doc, false, db, env.value, v.stack), FindStack(doc, true, s, env.value, v.stack);
      var named, named' := NamedWebhook(doc, false, db, v.webhook, env.value),
          NamedWebhook(doc, true, s, v.webhook, env.value);
      assert s.Vol(env.value, v.volume) == db.Vol(env.value, v.volume);
      GrowsUp(w, doc, db, s);
      if cred'.Some? && stack'.Some? && named'.Some? {
        PlaceVolAgrees(w, db, s, env.value, v, cluster, cred.value, cred'.value, stack.value, stack'.value, named.value,
                       named'.value);
      }
    }
  }

  // ── the whole document ──────────────────────────────────────────────────────────────

  /** One resource, planned against the store as found and applied at the store reached since: the
      planned verdict comes true, or is blocked, exactly when there is no surprise. */
  lemma Agrees(w: World, doc: Doc, db: Store, s: Store, x: Item)
    requires Reached(w, doc, db, s, x) && FreshValues(w, db)
    requires ItemOK(x) && Minted(w, s, x) && !Ensure(w, doc, true, s, x).failed
    ensures Matches(Ensure(w, doc, false, db, x).verdict, Ensure(w, doc, true, s, x).verdict)
            <==> !Surprised(w, doc, db, s, x)
  {
    hide EnsureSSHKey, EnsureGitCred, EnsureCA, EnsureCert, EnsureDelivery, EnsureGenerated, EnsureWebhook, EnsureStack,
         EnsureVol;
    match x
    case GitCredItem(g) => GitCredAgrees(w, doc, db, s, g);
    case CertItem(c) => CertAgrees(w, doc, db, s, c);
    case DeliveryItem(d) => DeliveryAgrees(w, doc, db, s, d);
    case StackItem(st) => StackAgrees(w, doc, db, s, st);
    case VolItem(v) => VolAgrees(w, doc, db, s, v);
    case _ => SimpleAgrees(w, doc, db, s, x);
  }

  /** Every resource still to be visited finds its own row as the plan found it. */
  ghost predicate OwnRows(w: World, doc: Doc, db: Store, s: Store, items: seq<Item>) {
    forall x :: x in items && KeyOf(w, doc, x).Some? ==> Agree(db, s, KeyOf(w, doc, x).value)
  }

  /** A step leaves the row of a later resource alone. */
  lemma OthersRow(w: World, doc: Doc, s: Store, s': Store, x: Item, y: Item)
    requires Touches(w, doc, s, s', y) && y.Kind().Rank() <= x.Kind().Rank()
    requires KeyOf(w, doc, x).Some? && KeyOf(w, doc, x) != KeyOf(w, doc, y)
    ensures Agree(s, s', KeyOf(w, doc, x).value)
  {
  }

  lemma OwnRowsOn(w: World, doc: Doc, db: Store, s: Store, items: seq<Item>)
    requires items != [] && OwnRows(w, doc, db, s, items)
    requires Ordered(items) && Identified(w, doc, items)
    ensures OwnRows(w, doc, db, Ensure(w, doc, true, s, items[0]).db, items[1..])
  {
    hide Ensure, KeyOf, TakesName, Touches;
    var y := items[0];
    var s' := Ensure(w, doc, true, s, y).db;
    StepTouches(w, doc, true, s, y);
    HeadApart(w, doc, items);
    forall x | x in items[1..] && KeyOf(w, doc, x).Some? ensures Agree(db, s', KeyOf(w, doc, x).value) {
      assert x in items && KeyOf(w, doc, x) != KeyOf(w, doc, y);
      OthersRow(w, doc, s, s', x, y);
    }
  }

  lemma {:induction false} ApplyAgrees(w: World, doc: Doc, db: Store, s: Store, items: seq<Item>)
    requires WellFormed(db) && Grows(w, doc, db, s) && OwnRows(w, doc, db, s, items) && FreshValues(w, db)
    requires Valid(w, doc, s, items) && forall x :: x in items ==> x in doc.items
    ensures var a := Walk(w, doc, true, s, items);
      && |a.verdicts| <= |items| && (!a.failed ==> |a.verdicts| == |items|)
      && forall i :: 0 <= i < |a.verdicts| ==>
           (Matches(Ensure(w, doc, false, db, items[i]).verdict, a.verdicts[i])
            <==> !Surprised(w, doc, db, Passed(w, doc, s, items, i), items[i]))
    decreases items
  {
    hide Ensure, Grows, Surprised, WellFormed, FreshValues, ItemOK, Minted, OwnRows, Matches, Identified, Ordered,
         AllSupplied;
    if items != [] {
      var x, rest := items[0], items[1..];
      var step := Ensure(w, doc, true, s, x);
      assert x in items;
      if !step.failed {
        HeadMinted(w, s, items);
        HeadReached(w, doc, db, s, items);
        Agrees(w, doc, db, s, x);
        FormTyped(db);
        TypedOn(w, doc, db, s);
        StepGrows(w, doc, s, x);
        GrowsOn(w, doc, db, s, step.db);
        OwnRowsOn(w, doc, db, s, items);
        StepSupplied(w, doc, s, items);
        TailValid(w, doc, items);
        ApplyAgrees(w, doc, db, step.db, rest);
        var a, a' := Walk(w, doc, true, s, items), Walk(w, doc, true, step.db, rest);
        forall i | 0 < i < |a.verdicts|
          ensures items[i] == rest[i - 1] && a.verdicts[i] == a'.verdicts[i - 1]
          ensures Passed(w, doc, s, items, i) == Passed(w, doc, step.db, rest, i - 1)
        {
        }
      }
    }
  }

  lemma HeadReached(w: World, doc: Doc, db: Store, s: Store, items: seq<Item>)
    requires items != [] && WellFormed(db) && Grows(w, doc, db, s) && OwnRows(w, doc, db, s, items)
    ensures Reached(w, doc, db, s, items[0])
  {
    assert items[0] in items;
  }

  /** Plan and apply agree: the plan leaves the store as it is and finishes, and the apply that
      follows gives a resource it reaches the planned verdict, or blocks it, exactly when it meets
      no surprise there. */
  lemma PlanThenApply(w: World, doc: Doc, db: Store)
    requires WellFormed(db) && FreshValues(w, db) && Valid(w, doc, db, doc.items)
    ensures var p, a := Walk(w, doc, false, db, doc.items), Walk(w, doc, true, db, doc.items);
      && p.db == db && !p.failed && |p.verdicts| == |doc.items|
      && |a.verdicts| <= |doc.items| && (!a.failed ==> |a.verdicts| == |doc.items|)
      && forall i :: 0 <= i < |a.verdicts| ==>
           (Matches(p.verdicts[i], a.verdicts[i])
            <==> !Surprised(w, doc, db, Passed(w, doc, db, doc.items, i), doc.items[i]))
  {
    hide Walk, Ensure, Surprised, FreshValues, Matches, Valid;
    PlanReads(w, doc, db, doc.items);
    GrowsSelf(w, doc, db);
    ApplyAgrees(w, doc, db, db, doc.items);
  }

  lemma GrowsSelf(w: World, doc: Doc, db: Store)
    ensures Grows(w, doc, db, db)
  {
    KeepsSelf(w, db);
    hide Kept;
  }

  /** What can be known before anything is applied: where nothing refers ahead and nothing refused
      is the document's own to free, every verdict comes true or is blocked. */
  lemma ForeseenComesTrue(w: World, doc: Doc, db: Store)
    requires WellFormed(db) && FreshValues(w, db) && Valid(w, doc, db, doc.items)
    requires forall x :: x in doc.items ==> Foreseeable(w, doc, db, x)
    ensures var p, a := Walk(w, doc, false, db, doc.items), Walk(w, doc, true, db, doc.items);
      |a.verdicts| <= |p.verdicts| && forall i :: 0 <= i < |a.verdicts| ==> Matches(p.verdicts[i], a.verdicts[i])
  {
    hide Walk, Ensure, Surprised, FreshValues, Matches, Valid, WellFormed, Foreseeable;
    PlanThenApply(w, doc, db);
    forall i | 0 <= i < |doc.items| ensures !Surprised(w, doc, db, Passed(w, doc, db, doc.items, i), doc.items[i]) {
      assert doc.items[i] in doc.items;
      ForeseenIsNoSurprise(w, doc, db, Passed(w, doc, db, doc.items, i), doc.items[i]);
    }
  }
}
