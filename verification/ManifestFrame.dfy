/** What one resource's step may write, and what a resource's verdict reads. */
module ManifestFrame {
  import opened Wrappers
  import opened ManifestModel
  import opened SlotMerge
  import opened ManifestSpec

  /** Both stores hold the same thing at this key. */
  ghost predicate Agree(db: Store, db': Store, k: RowKey) {
    (k in db.rows <==> k in db'.rows) && (k in db.rows ==> db.rows[k] == db'.rows[k])
  }

  /** Where a resource lives: an environment id, the empty id for fleet-wide kinds, or nowhere
      when its cluster does not exist. */
  function Place(w: World, doc: Doc, x: Item): Option<string> {
    match x
    case CertItem(c) => PlaceOf(w, doc, c.shared, c.cluster)
    case DeliveryItem(d) => EnvOf(w, Effective(doc, d.cluster))
    case StackItem(st) => EnvOf(w, Effective(doc, st.cluster))
    case VolItem(v) => EnvOf(w, Effective(doc, v.cluster))
    case _ => Some("")
  }

  /** The row a resource converges, when it has a place. */
  function KeyOf(w: World, doc: Doc, x: Item): Option<RowKey> {
    match Place(w, doc, x)
    case None => None
    case Some(env) => Some(RowKey(x.Kind(), env, x.Name()))
  }

  function HookKey(name: string): RowKey { RowKey(WebhookKind, "", name) }

  ghost predicate IsFreeName(w: World, base: string, cluster: string, name: string) {
    name == base || name == base + "-" + cluster || exists n :: name == w.suffixed(base, n)
  }

  /** A webhook name this target may take when it creates a webhook of its own. */
  ghost predicate TakesName(w: World, doc: Doc, y: Item, name: string) {
    match y
    case StackItem(st) =>
      st.webhook == "" && st.autoDeploy && st.source.FromGit?
        && IsFreeName(w, st.name, Effective(doc, st.cluster), name)
    case VolItem(v) =>
      v.webhook == "" && v.autoSync && v.content.GitContent? &&
      IsFreeName(w, "volume-" + v.volume, Effective(doc, v.cluster), name)
    case _ => false
  }

  /** A step writes at most the row of its own resource; a target may besides add a webhook
      under one of its own names. */
  ghost predicate Touches(w: World, doc: Doc, db: Store, db': Store, y: Item) {
    forall k :: Agree(db, db', k) || KeyOf(w, doc, y) == Some(k)
                || (k.kind == WebhookKind && k.env == "" && k !in db.rows && TakesName(w, doc, y, k.name))
  }

  lemma HookTouches(w: World, apply: bool, db: Store, named: Link, current: Link, auto: bool,
                    base: string, env: string, cluster: string)
    ensures var h := TargetWebhook(w, apply, db, named, current, auto, base, env, cluster);
      || h.db == db
      || exists name :: apply && named == NoLink && current == NoLink && auto && IsFreeName(w, base, cluster, name)
                        && HookKey(name) !in db.rows && !h.failed && h.link == LinkTo(db.nextID)
                        && h.db == AddWebhook(db, name, env, w.mint(db.nextID))
  {
    var name := FreeName(w, db, base, cluster);
    assert IsFreeName(w, base, cluster, name);
  }

  lemma StepTouches(w: World, doc: Doc, apply: bool, db: Store, y: Item)
    ensures Touches(w, doc, db, Ensure(w, doc, apply, db, y).db, y)
  {
    hide EnsureStack, EnsureVol, TakesName, CertDiffers, GitCredDiffers, CADiffers, ResolveCerts, ResolveCAs,
         RepeatsCert, DeliveryMatches;
    match y
    case StackItem(st) => StackTouches(w, doc, apply, db, st);
    case VolItem(v) => VolTouches(w, doc, apply, db, v);
    case _ =>
  }

  lemma StackTouches(w: World, doc: Doc, apply: bool, db: Store, st: StackDecl)
    ensures Touches(w, doc, db, EnsureStack(w, doc, apply, db, st).db, StackItem(st))
  {
    hide StackChanges, WantedStack, StackCols, TargetWebhook, NewStack, FindCred, IsFreeName;
    var cluster := Effective(doc, st.cluster);
    var env := EnvOf(w, cluster);
    if env.Some? {
      var cred := FindCred(doc, apply, db, CredName(st.source));
      var named := NamedWebhook(doc, apply, db, st.webhook, env.value);
      if cred.Some? && named.Some? {
        var found := db.Stack(env.value, st.name);
        var row := if found.Some? then found.value else NewStack(db, st, cred.value);
        var db' := if found.Some? then db else AddStack(db, env.value, st, cred.value);
        var auto := st.autoDeploy && st.source.FromGit?;
        HookTouches(w, apply, db', named.value, row.webhook, auto, st.name, env.value, cluster);
      }
    }
  }

  lemma VolTouches(w: World, doc: Doc, apply: bool, db: Store, v: VolDecl)
    ensures Touches(w, doc, db, EnsureVol(w, doc, apply, db, v).db, VolItem(v))
  {
    hide Refused, FindCred, FindStack, VolMatches, WantedVol, TargetWebhook, IsFreeName;
    var cluster := Effective(doc, v.cluster);
    var env := EnvOf(w, cluster);
    if env.Some? {
      var named := NamedWebhook(doc, apply, db, v.webhook, env.value);
      if named.Some? {
        var row := db.Vol(env.value, v.volume);
        var current := if row.Some? then row.value.webhook else NoLink;
        HookTouches(w, apply, db, named.value, current, v.autoSync, "volume-" + v.volume, env.value, cluster);
      }
    }
  }

  // ── what a verdict reads ────────────────────────────────────────────────────────────

  /** The webhook name a resource's verdict depends on: its own, or the one it links to. */
  function HookRead(x: Item): Option<string> {
    match x
    case WebhookItem(h) => Some(h.name)
    case StackItem(st) => if st.webhook == "" then None else Some(st.webhook)
    case VolItem(v) => if v.webhook == "" then None else Some(v.webhook)
    case _ => None
  }

  /** The stores agree on the resource's own row, on every kind visited before it (webhooks
      aside), and on the webhook it names. */
  ghost predicate ReadsAgree(w: World, doc: Doc, db: Store, db': Store, x: Item) {
    && (KeyOf(w, doc, x).Some? ==> Agree(db, db', KeyOf(w, doc, x).value))
    && (forall k: RowKey :: k.kind.Rank() < x.Kind().Rank() && k.kind != WebhookKind ==> Agree(db, db', k))
    && (HookRead(x).Some? ==> Agree(db, db', HookKey(HookRead(x).value)))
  }

  /** A later resource's step does not disturb what an earlier one reads, as long as the webhook
      the earlier one depends on was there before or is still not there after. */
  lemma LaterStepsAgree(w: World, doc: Doc, db: Store, db': Store, x: Item, y: Item)
    requires Touches(w, doc, db, db', y)
    requires x.Kind().Rank() <= y.Kind().Rank()
    requires KeyOf(w, doc, x).Some? ==> KeyOf(w, doc, x) != KeyOf(w, doc, y)
    requires HookRead(x).Some? ==> HookKey(HookRead(x).value) in db.rows || HookKey(HookRead(x).value) !in db'.rows
    ensures ReadsAgree(w, doc, db, db', x)
  {
  }
}
