/** Authorisation: the whole document is checked before the walk, and the check covers every
    row the walk can write. */
module ManifestPreflight {
  import opened Wrappers
  import opened ManifestModel
  import opened SlotMerge
  import opened ManifestSpec
  import opened ManifestFrame
  import opened ManifestFixpoint
  import opened ManifestAgreement

  datatype Cap = SSHKeysEdit | GitCredsEdit | CertsEdit | StacksEdit | WebhooksEdit | VolSourcesEdit

  /** What a user may do everywhere, and what more on one environment. */
  datatype Held = Held(everywhere: set<Cap>, at: map<string, set<Cap>>) {
    /** The empty environment asks the fleet-wide question. */
    predicate Has(c: Cap, env: string) {
      c in everywhere || (env != "" && env in at && c in at[env])
    }
  }

  /** One capability the document needs; an empty cluster means fleet-wide. */
  datatype Need = Need(cap: Cap, cluster: string)

  datatype Denial = Allowed | Denied(need: Need)

  /** The needs of one resource, the webhook a target may create for itself included. */
  function NeedsOf(doc: Doc, x: Item): seq<Need> {
    match x
    case SSHKeyItem(_) => [Need(SSHKeysEdit, "")]
    case GitCredItem(_) => [Need(GitCredsEdit, "")]
    case CAItem(_) => [Need(CertsEdit, "")]
    case CertItem(_) => [Need(CertsEdit, "")]
    case DeliveryItem(_) => [Need(CertsEdit, "")]
    case GeneratedItem(_) => []
    case WebhookItem(h) => [Need(WebhooksEdit, if h.shared then "" else Effective(doc, h.cluster))]
    case StackItem(st) =>
      [Need(StacksEdit, Effective(doc, st.cluster))]
      + if st.autoDeploy && st.webhook == "" then [Need(WebhooksEdit, Effective(doc, st.cluster))] else []
    case VolItem(v) =>
      [Need(VolSourcesEdit, Effective(doc, v.cluster))]
      + if v.autoSync && v.webhook == "" then [Need(WebhooksEdit, Effective(doc, v.cluster))] else []
  }

  function DocNeeds(doc: Doc, items: seq<Item>): seq<Need> {
    if items == [] then [] else NeedsOf(doc, items[0]) + DocNeeds(doc, items[1..])
  }

  /** An unknown cluster asks for the capability everywhere. */
  predicate Meets(w: World, user: Held, n: Need) {
    if n.cluster == "" || EnvOf(w, n.cluster).None? then user.Has(n.cap, "")
    else user.Has(n.cap, EnvOf(w, n.cluster).value)
  }

  /** The answer: the first need the user does not meet. */
  function FirstDenied(w: World, user: Held, needs: seq<Need>): Denial {
    if needs == [] then Allowed
    else if Meets(w, user, needs[0]) then FirstDenied(w, user, needs[1..])
    else Denied(needs[0])
  }

  // ── who may apply what ──────────────────────────────────────────────────────────────

  /** The capability a kind's own editing route asks for; a generated secret has no route. */
  function CapOf(k: Kind): Option<Cap> {
    match k
    case SSHKeyKind => Some(SSHKeysEdit)
    case GitCredKind => Some(GitCredsEdit)
    case CAKind => Some(CertsEdit)
    case CertKind => Some(CertsEdit)
    case DeliveryKind => Some(CertsEdit)
    case GeneratedKind => None
    case WebhookKind => Some(WebhooksEdit)
    case StackKind => Some(StacksEdit)
    case VolKind => Some(VolSourcesEdit)
  }

  /** The cluster a resource's capability is asked for on; none for what is edited fleet-wide. */
  function Home(doc: Doc, x: Item): string {
    match x
    case WebhookItem(h) => if h.shared then "" else if h.cluster == "" then doc.cluster else h.cluster
    case StackItem(st) => if st.cluster == "" then doc.cluster else st.cluster
    case VolItem(v) => if v.cluster == "" then doc.cluster else v.cluster
    case _ => ""
  }

  /** A target that deploys on push and names no webhook may make one. */
  predicate HooksItself(x: Item) {
    (x.StackItem? && x.stack.autoDeploy && x.stack.webhook == "")
    || (x.VolItem? && x.vol.autoSync && x.vol.webhook == "")
  }

  /** Held everywhere, or on the environment that cluster is. */
  predicate May(w: World, user: Held, c: Cap, cluster: string) {
    c in user.everywhere
    || (cluster != "" && cluster in w.envs && w.envs[cluster] in user.at && c in user.at[w.envs[cluster]])
  }

  predicate Entitled(w: World, user: Held, doc: Doc, x: Item) {
    && (CapOf(x.Kind()).Some? ==> May(w, user, CapOf(x.Kind()).value, Home(doc, x)))
    && (HooksItself(x) ==> May(w, user, WebhooksEdit, Home(doc, x)))
  }

  /** The user lacks the capability of this resource's kind, or of the webhook it may have to make. */
  predicate Lacks(w: World, user: Held, doc: Doc, x: Item, n: Need) {
    && n.cluster == Home(doc, x) && !May(w, user, n.cap, n.cluster)
    && (CapOf(x.Kind()) == Some(n.cap) || (n.cap == WebhooksEdit && HooksItself(x)))
  }

  /** Why a document is refused: this is its first resource the user may not apply. */
  ghost predicate Because(w: World, user: Held, doc: Doc, items: seq<Item>, i: nat, n: Need) {
    i < |items| && (forall j :: 0 <= j < i ==> Entitled(w, user, doc, items[j])) && Lacks(w, user, doc, items[i], n)
  }

  ghost predicate NamedEnvs(w: World) { forall c :: c in w.envs ==> w.envs[c] != "" }

  lemma MeetsIsMay(w: World, user: Held, n: Need)
    requires NamedEnvs(w)
    ensures Meets(w, user, n) <==> May(w, user, n.cap, n.cluster)
  {
  }

  lemma OneItem(w: World, user: Held, doc: Doc, x: Item)
    requires NamedEnvs(w)
    ensures match FirstDenied(w, user, NeedsOf(doc, x))
      case Allowed => Entitled(w, user, doc, x)
      case Denied(n) => Lacks(w, user, doc, x, n)
  {
    var needs := NeedsOf(doc, x);
    forall n ensures Meets(w, user, n) <==> May(w, user, n.cap, n.cluster) { MeetsIsMay(w, user, n); }
    hide Meets, May;
    if |needs| == 1 {
      assert needs[1..] == [];
    } else if |needs| == 2 {
      assert needs[1..] == [needs[1]] && [needs[1]][1..] == [];
      assert FirstDenied(w, user, needs) ==
             if Meets(w, user, needs[0]) then FirstDenied(w, user, [needs[1]]) else Denied(needs[0]);
      assert FirstDenied(w, user, [needs[1]]) == if Meets(w, user, needs[1]) then Allowed else Denied(needs[1]);
    }
  }

  /** A document is allowed if and only if the user may apply every resource of it, and refused for the
      first one that is not. */
  lemma {:induction false} DeniedExactly(w: World, user: Held, doc: Doc, items: seq<Item>)
    requires NamedEnvs(w)
    ensures var answer := FirstDenied(w, user, DocNeeds(doc, items));
      && (answer.Allowed? ==> forall x :: x in items ==> Entitled(w, user, doc, x))
      && (answer.Denied? ==> exists i: nat :: Because(w, user, doc, items, i, answer.need))
  {
    hide NeedsOf, Meets, Entitled, Lacks;
    if items != [] {
      DeniedExactly(w, user, doc, items[1..]);
      DeniedConcat(w, user, NeedsOf(doc, items[0]), DocNeeds(doc, items[1..]));
      OneItem(w, user, doc, items[0]);
      var denial, rest := FirstDenied(w, user, NeedsOf(doc, items[0])), FirstDenied(w, user, DocNeeds(doc, items[1..]));
      var all := FirstDenied(w, user, DocNeeds(doc, items));
      assert all == if denial.Allowed? then rest else denial;
      if denial.Denied? {
        assert Because(w, user, doc, items, 0, all.need);
      } else if rest.Denied? {
        var i: nat :| Because(w, user, doc, items[1..], i, rest.need);
        Later(w, user, doc, items, i, rest.need);
      }
    }
  }

  lemma Later(w: World, user: Held, doc: Doc, items: seq<Item>, i: nat, n: Need)
    requires items != [] && Entitled(w, user, doc, items[0]) && Because(w, user, doc, items[1..], i, n)
    ensures Because(w, user, doc, items, i + 1, n)
  {
    hide Entitled, Lacks;
    forall j | 0 <= j < i + 1 ensures Entitled(w, user, doc, items[j]) {
      if j > 0 { assert items[j] == items[1..][j - 1]; }
    }
  }

  lemma DeniedIsNotEntitled(w: World, user: Held, doc: Doc, items: seq<Item>, i: nat, n: Need)
    requires Because(w, user, doc, items, i, n)
    ensures items[i] in items && !Entitled(w, user, doc, items[i])
  {
  }

  /** The preflight loop: each cluster is resolved once and remembered, a miss as the empty id. */
  method Preflight(w: World, user: Held, doc: Doc) returns (answer: Denial)
    requires NamedEnvs(w)
    ensures answer == FirstDenied(w, user, DocNeeds(doc, doc.items))
    ensures answer.Allowed? <==> forall x :: x in doc.items ==> Entitled(w, user, doc, x)
    ensures answer.Denied? ==> exists i: nat :: Because(w, user, doc, doc.items, i, answer.need)
  {
    var needs := DocNeeds(doc, doc.items);
    AnswerMeans(w, user, doc);
    hide Entitled, Because;
    var resolved: map<string, string> := map[];
    for i := 0 to |needs|
      invariant FirstDenied(w, user, needs) == FirstDenied(w, user, needs[i..])
      invariant forall c :: c in resolved ==> resolved[c] == if c in w.envs then w.envs[c] else ""
    {
      var n := needs[i];
      assert needs[i..][0] == n && needs[i..][1..] == needs[i + 1..];
      if n.cluster == "" {
        if !user.Has(n.cap, "") { return Denied(n); }
        continue;
      }
      if n.cluster !in resolved {
        resolved := resolved[n.cluster := if n.cluster in w.envs then w.envs[n.cluster] else ""];
      }
      var env := resolved[n.cluster];
      if env == "" {
        if user.Has(n.cap, "") { continue; }
        return Denied(n);
      }
      if !user.Has(n.cap, env) { return Denied(n); }
    }
    return Allowed;
  }

  lemma AnswerMeans(w: World, user: Held, doc: Doc)
    requires NamedEnvs(w)
    ensures var answer := FirstDenied(w, user, DocNeeds(doc, doc.items));
      && (answer.Allowed? <==> forall x :: x in doc.items ==> Entitled(w, user, doc, x))
      && (answer.Denied? ==> exists i: nat :: Because(w, user, doc, doc.items, i, answer.need))
  {
    DeniedExactly(w, user, doc, doc.items);
    var answer := FirstDenied(w, user, DocNeeds(doc, doc.items));
    if answer.Denied? {
      var i: nat :| Because(w, user, doc, doc.items, i, answer.need);
      DeniedIsNotEntitled(w, user, doc, doc.items, i, answer.need);
    }
    hide Entitled, Because;
  }

  lemma {:induction false} AllowedMeans(w: World, user: Held, doc: Doc, items: seq<Item>)
    ensures FirstDenied(w, user, DocNeeds(doc, items)).Allowed?
            <==> forall x, n :: x in items && n in NeedsOf(doc, x) ==> Meets(w, user, n)
  {
    hide NeedsOf, Meets;
    if items != [] {
      AllowedMeans(w, user, doc, items[1..]);
      DeniedConcat(w, user, NeedsOf(doc, items[0]), DocNeeds(doc, items[1..]));
      DeniedMeans(w, user, NeedsOf(doc, items[0]));
    }
  }

  lemma {:induction false} DeniedConcat(w: World, user: Held, a: seq<Need>, b: seq<Need>)
    ensures FirstDenied(w, user, a + b)
            == if FirstDenied(w, user, a).Allowed? then FirstDenied(w, user, b) else FirstDenied(w, user, a)
  {
    if a == [] {
      assert a + b == b;
    } else {
      assert (a + b)[1..] == a[1..] + b;
      DeniedConcat(w, user, a[1..], b);
    }
  }

  lemma {:induction false} DeniedMeans(w: World, user: Held, needs: seq<Need>)
    ensures FirstDenied(w, user, needs).Allowed? <==> forall n :: n in needs ==> Meets(w, user, n)
  {
    if needs != [] { DeniedMeans(w, user, needs[1..]); }
  }

  /** The refusal does not tell a missing cluster from a forbidden one: for a user who holds
      nothing on a cluster, the answer is the same whether or not it exists. */
  lemma {:induction false} MissingLooksForbidden(w: World, user: Held, cluster: string, needs: seq<Need>)
    requires cluster in w.envs && (w.envs[cluster] in user.at ==> user.at[w.envs[cluster]] == {})
    ensures FirstDenied(w.(envs := w.envs - {cluster}), user, needs) == FirstDenied(w, user, needs)
  {
    if needs != [] { MissingLooksForbidden(w, user, cluster, needs[1..]); }
  }

  // ── what the walk writes ────────────────────────────────────────────────────────────

  /** Where a stack is deployed, or the empty environment. */
  function HomeOf(w: World, doc: Doc, st: StackDecl): string {
    match EnvOf(w, Effective(doc, st.cluster))
    case None => ""
    case Some(e) => e
  }

  /** The user holds the capability the row's own editing route asks for, where the row lives.
      A generated secret is edited by whoever edits a stack that uses it. */
  ghost predicate Permitted(w: World, user: Held, doc: Doc, k: RowKey, row: Row) {
    match k.kind
    case SSHKeyKind => user.Has(SSHKeysEdit, "")
    case GitCredKind => user.Has(GitCredsEdit, "")
    case CAKind => user.Has(CertsEdit, "")
    case CertKind => user.Has(CertsEdit, "")
    case DeliveryKind => user.Has(CertsEdit, "")
    case GeneratedKind =>
      exists x :: x in doc.items && Needs(w, x, k.name) && user.Has(StacksEdit, HomeOf(w, doc, x.stack))
    case WebhookKind => row.WebhookIn? && user.Has(WebhooksEdit, row.webhook.env)
    case StackKind => user.Has(StacksEdit, k.env)
    case VolKind => user.Has(VolSourcesEdit, k.env)
  }

  /** Validation: a generated secret is declared for some stack of the document. */
  ghost predicate Owned(w: World, doc: Doc) {
    forall g :: g in doc.items && g.GeneratedItem? ==> exists x :: x in doc.items && Needs(w, x, g.gen.name)
  }

  /** Every env-scoped resource names a cluster, its own or the document's. */
  ghost predicate Clustered(doc: Doc) {
    forall x :: x in doc.items ==>
      match x
      case WebhookItem(h) => h.shared || Effective(doc, h.cluster) != ""
      case StackItem(st) => Effective(doc, st.cluster) != ""
      case VolItem(v) => Effective(doc, v.cluster) != ""
      case _ => true
  }

  /** A target's own webhook lands on the target's environment. */
  lemma HookPlaced(w: World, doc: Doc, db: Store, y: Item, k: RowKey)
    requires !Agree(db, Ensure(w, doc, true, db, y).db, k) && KeyOf(w, doc, y) != Some(k)
    ensures var s := Ensure(w, doc, true, db, y);
      && k.kind == WebhookKind && TakesName(w, doc, y, k.name) && Place(w, doc, y).Some?
      && k in s.db.rows && s.db.rows[k].WebhookIn? && s.db.rows[k].webhook.env == Place(w, doc, y).value
  {
    StepTouches(w, doc, true, db, y);
    match y
    case StackItem(st) => StackHookPlaced(w, doc, db, st, k);
    case VolItem(v) => VolHookPlaced(w, doc, db, v, k);
    case _ =>
  }

  lemma StackHookPlaced(w: World, doc: Doc, db: Store, st: StackDecl, k: RowKey)
    requires !Agree(db, EnsureStack(w, doc, true, db, st).db, k) && KeyOf(w, doc, StackItem(st)) != Some(k)
    ensures var s := EnsureStack(w, doc, true, db, st); var env := EnvOf(w, Effective(doc, st.cluster));
      env.Some? && k in s.db.rows && s.db.rows[k].WebhookIn? && s.db.rows[k].webhook.env == env.value
  {
    hide StackChanges, WantedStack, StackCols, TargetWebhook, NewStack, FindCred, IsFreeName, Declares;
    var cluster := Effective(doc, st.cluster);
    var env := EnvOf(w, cluster);
    if env.Some? {
      var cred := FindCred(doc, true, db, CredName(st.source));
      var named := NamedWebhook(doc, true, db, st.webhook, env.value);
      if cred.Some? && named.Some? {
        var found := db.Stack(env.value, st.name);
        var row := if found.Some? then found.value else NewStack(db, st, cred.value);
        var db' := if found.Some? then db else AddStack(db, env.value, st, cred.value);
        var auto := st.autoDeploy && st.source.FromGit?;
        HookTouches(w, true, db', named.value, row.webhook, auto, st.name, env.value, cluster);
      }
    }
  }

  lemma VolHookPlaced(w: World, doc: Doc, db: Store, v: VolDecl, k: RowKey)
    requires !Agree(db, EnsureVol(w, doc, true, db, v).db, k) && KeyOf(w, doc, VolItem(v)) != Some(k)
    ensures var s := EnsureVol(w, doc, true, db, v); var env := EnvOf(w, Effective(doc, v.cluster));
      env.Some? && k in s.db.rows && s.db.rows[k].WebhookIn? && s.db.rows[k].webhook.env == env.value
  {
    hide Refused, FindCred, FindStack, VolMatches, WantedVol, TargetWebhook, IsFreeName, Declares;
    var cluster := Effective(doc, v.cluster);
    var env := EnvOf(w, cluster);
    if env.Some? {
      var named := NamedWebhook(doc, true, db, v.webhook, env.value);
      if named.Some? {
        var row := db.Vol(env.value, v.volume);
        var current := if row.Some? then row.value.webhook else NoLink;
        HookTouches(w, true, db, named.value, current, v.autoSync, "volume-" + v.volume, env.value, cluster);
      }
    }
  }

  /** What one step writes is permitted. */
  lemma StepPermitted(w: World, user: Held, doc: Doc, db: Store, y: Item, k: RowKey)
    requires y in doc.items && Owned(w, doc) && Clustered(doc) && Typed(db)
    requires forall x, n :: x in doc.items && n in NeedsOf(doc, x) ==> Meets(w, user, n)
    requires !Agree(db, Ensure(w, doc, true, db, y).db, k)
    ensures var s := Ensure(w, doc, true, db, y); k in s.db.rows && Permitted(w, user, doc, k, s.db.rows[k])
  {
    hide Ensure, Owned, Needs;
    var s := Ensure(w, doc, true, db, y);
    RowsGrow(w, doc, true, db, y);
    assert k in s.db.rows;
    assert forall n :: n in NeedsOf(doc, y) ==> Meets(w, user, n);
    if KeyOf(w, doc, y) != Some(k) {
      HookPlaced(w, doc, db, y, k);
      var at := if y.StackItem? then Effective(doc, y.stack.cluster) else Effective(doc, y.vol.cluster);
      assert Need(WebhooksEdit, at) in NeedsOf(doc, y);
    } else {
      match y
      case GeneratedItem(g) => GeneratedPermitted(w, user, doc, g);
      case WebhookItem(h) =>
        assert Need(WebhooksEdit, if h.shared then "" else Effective(doc, h.cluster)) in NeedsOf(doc, y);
        WebhookRowPlaced(w, doc, db, h);
      case StackItem(st) => assert Need(StacksEdit, Effective(doc, st.cluster)) in NeedsOf(doc, y);
      case VolItem(v) => assert Need(VolSourcesEdit, Effective(doc, v.cluster)) in NeedsOf(doc, y);
      case SSHKeyItem(_) => assert Need(SSHKeysEdit, "") in NeedsOf(doc, y);
      case GitCredItem(_) => assert Need(GitCredsEdit, "") in NeedsOf(doc, y);
      case _ => assert Need(CertsEdit, "") in NeedsOf(doc, y);
    }
  }

  lemma WebhookRowPlaced(w: World, doc: Doc, db: Store, h: WebhookDecl)
    ensures var s := Ensure(w, doc, true, db, WebhookItem(h)); var k := HookKey(h.name);
      Agree(db, s.db, k) || (s.db.rows[k].WebhookIn?
                             && PlaceOf(w, doc, h.shared, h.cluster) == Some(s.db.rows[k].webhook.env))
  {
  }

  lemma GeneratedPermitted(w: World, user: Held, doc: Doc, g: GeneratedDecl)
    requires GeneratedItem(g) in doc.items && Owned(w, doc) && Clustered(doc)
    requires forall x, n :: x in doc.items && n in NeedsOf(doc, x) ==> Meets(w, user, n)
    ensures exists x :: x in doc.items && Needs(w, x, g.name) && user.Has(StacksEdit, HomeOf(w, doc, x.stack))
  {
    assert GeneratedItem(g).GeneratedItem?;
    var x :| x in doc.items && Needs(w, x, GeneratedItem(g).gen.name);
    var n := Need(StacksEdit, Effective(doc, x.stack.cluster));
    assert n in NeedsOf(doc, x);
    assert Meets(w, user, n) && n.cluster != "";
    assert Needs(w, x, g.name);
  }

  lemma {:induction false} WalkPermitted(w: World, user: Held, doc: Doc, db: Store, items: seq<Item>, k: RowKey)
    requires Owned(w, doc) && Clustered(doc) && Typed(db)
    requires forall x, n :: x in doc.items && n in NeedsOf(doc, x) ==> Meets(w, user, n)
    requires forall y :: y in items ==> y in doc.items
    ensures var r := Walk(w, doc, true, db, items);
      && Grows(w, doc, db, r.db)
      && (!Agree(db, r.db, k) ==> k in r.db.rows && Permitted(w, user, doc, k, r.db.rows[k]))
    decreases items
  {
    hide Ensure, Owned, Clustered, NeedsOf, Meets, Permitted, DeclaredKey, AutoKey;
    if items != [] {
      var y := items[0];
      var s := Ensure(w, doc, true, db, y);
      StepGrows(w, doc, db, y);
      TypedOn(w, doc, db, s.db);
      if !Agree(db, s.db, k) { StepPermitted(w, user, doc, db, y, k); }
      if !s.failed {
        WalkPermitted(w, user, doc, s.db, items[1..], k);
        var r := Walk(w, doc, true, s.db, items[1..]);
        GrowsOn(w, doc, db, s.db, r.db);
        if !Agree(db, s.db, k) {
          StillPermitted(w, user, doc, k, s.db.rows[k], r.db.rows[k]);
        }
      }
    }
  }

  lemma StillPermitted(w: World, user: Held, doc: Doc, k: RowKey, row: Row, row': Row)
    requires Permitted(w, user, doc, k, row) && Kept(row, row')
    ensures Permitted(w, user, doc, k, row')
  {
  }

  /** The preflight covers the walk: once it has allowed the document, every row the apply
      leaves different, even one that stops half-way, is one the user may edit where it lives. */
  lemma PreflightCovers(w: World, user: Held, doc: Doc, db: Store)
    requires Owned(w, doc) && Clustered(doc) && Typed(db)
    requires FirstDenied(w, user, DocNeeds(doc, doc.items)).Allowed?
    ensures var r := Walk(w, doc, true, db, doc.items);
      forall k :: !Agree(db, r.db, k) ==> k in r.db.rows && Permitted(w, user, doc, k, r.db.rows[k])
  {
    hide Walk, Permitted, Owned, Clustered, Typed;
    AllowedMeans(w, user, doc, doc.items);
    var r := Walk(w, doc, true, db, doc.items);
    forall k | !Agree(db, r.db, k) ensures k in r.db.rows && Permitted(w, user, doc, k, r.db.rows[k]) {
      WalkPermitted(w, user, doc, db, doc.items, k);
    }
  }
}
