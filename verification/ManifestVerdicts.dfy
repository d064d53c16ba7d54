/** When an apply blocks, creates, updates, leaves alone or reports drift, and what a row it creates
    holds: said of the declaration and the stored rows alone. */
module ManifestVerdicts {
  import opened Wrappers
  import opened ManifestModel
  import opened Text
  import opened SlotMerge
  import opened Comparisons
  import opened ManifestSpec
  import opened ManifestFrame
  import opened ManifestFixpoint
  import opened ManifestAgreement
  import opened ManifestDeclared
  import opened ManifestReads
  import opened ManifestConverges

  // ── what stands in the way ──────────────────────────────────────────────────────────

  /** Whether this resource has a row yet, on the environment it lands on. */
  predicate Absent(w: World, doc: Doc, db: Store, x: Item) {
    match x
    case SSHKeyItem(k) => db.SSHKey(k.name).None?
    case GitCredItem(g) => db.GitCred(g.name).None?
    case CAItem(ca) => db.CA(ca.name).None?
    case CertItem(c) =>
      var env := Landing(w, doc, c.shared, c.cluster);
      env.None? || db.Cert(env.value, c.name).None?
    case DeliveryItem(d) =>
      var env := EnvOf(w, Effective(doc, d.cluster));
      env.None? || db.Deliveries(env.value, d.volume) == []
    case GeneratedItem(g) => db.Generated(g.name).None?
    case WebhookItem(h) => db.Webhook(h.name).None?
    case StackItem(st) =>
      var env := EnvOf(w, Effective(doc, st.cluster));
      env.None? || db.Stack(env.value, st.name).None?
    case VolItem(v) =>
      var env := EnvOf(w, Effective(doc, v.cluster));
      env.None? || db.Vol(env.value, v.volume).None?
  }

  /** What a resource needs whether or not it has a row: a cluster that exists, and its references. */
  ghost predicate Finds(w: World, doc: Doc, db: Store, x: Item) {
    match x
    case CertItem(c) => Landing(w, doc, c.shared, c.cluster).Some? && w.sans(c.sans).Some? && w.usages(c.usages).Some?
    case DeliveryItem(d) =>
      var env := EnvOf(w, Effective(doc, d.cluster));
      && env.Some? && w.mount(d.mountPath).Some? && |db.Deliveries(env.value, d.volume)| <= 1
      && (exists certs :: CarriesAs(db, env.value, d.certs, certs))
      && exists bundle: seq<nat> :: BundleAs(db, d.bundleCAs, bundle)
    case WebhookItem(h) => Landing(w, doc, h.shared, h.cluster).Some?
    case StackItem(st) =>
      var env := EnvOf(w, Effective(doc, st.cluster));
      && env.Some? && HookFound(db, env.value, st.webhook)
      && (st.source.FromGit? && st.source.git.credential != "" ==> db.GitCred(st.source.git.credential).Some?)
    case VolItem(v) =>
      var env := EnvOf(w, Effective(doc, v.cluster));
      && env.Some? && HookFound(db, env.value, v.webhook) && Free(w, db, env.value, v)
      && (v.content.GitContent? && v.content.git.credential != "" ==> db.GitCred(v.content.git.credential).Some?)
      && (v.stack != "" ==> db.Stack(env.value, v.stack).Some?)
    case _ => true
  }

  /** What it needs besides to be made: a usable algorithm, its secret, an authority that can sign, an
      environment that is connected and of the right sort, a volume no fleet delivery has. */
  predicate Makeable(w: World, doc: Doc, db: Store, x: Item) {
    match x
    case SSHKeyItem(k) => k.algo in {"", "ed25519", "rsa"}
    case GitCredItem(g) => if g.kind == GitToken then SubmittedAs(w, g.tokenFrom) else db.SSHKey(g.sshKey).Some?
    case CAItem(ca) => !w.caRefused(ca)
    case CertItem(c) => db.CA(c.ca).Some? && db.CA(c.ca).value.canSign && !w.issueRefused(c)
    case DeliveryItem(d) =>
      var env := EnvOf(w, Effective(doc, d.cluster));
      env.Some? && env.value in w.connected && (env.value, d.volume) !in w.fleetOwned
    case WebhookItem(h) => h.secretFrom == "" || SubmittedAs(w, h.secretFrom)
    case StackItem(st) =>
      var env := EnvOf(w, Effective(doc, st.cluster));
      env.Some? && env.value in w.connected && env.value in if st.engine == "swarm" then w.swarms else w.single
    case _ => true
  }

  ghost predicate InTheWay(w: World, doc: Doc, db: Store, x: Item) {
    !Finds(w, doc, db, x) || (Absent(w, doc, db, x) && !Makeable(w, doc, db, x))
  }

  /** A stored row says otherwise in a column that is never rewritten. */
  predicate AtOdds(w: World, doc: Doc, db: Store, x: Item) {
    !Absent(w, doc, db, x) &&
    match x
    case SSHKeyItem(k) => k.algo != "" && Lower(k.algo) != Lower(db.SSHKey(k.name).value.algo)
    case GitCredItem(g) => !GitCredAs(db, g)
    case CAItem(ca) =>
      var row := db.CA(ca.name).value;
      (ca.keyAlgo != "" && row.keyAlgo != ca.keyAlgo) || !Contains(row.subject, "CN=" + Trim(ca.commonName))
    case CertItem(c) =>
      var row := db.Cert(Landing(w, doc, c.shared, c.cluster).value, c.name).value;
      || w.sans(c.sans) != Some(row.sans) || w.usages(c.usages) !in {Some(""), Some(row.usages)}
      || c.keyAlgo !in {"", row.keyAlgo}
      || (db.CA(c.ca).Some? && row.caID !in {NoLink, LinkTo(db.CA(c.ca).value.id)})
    case GeneratedItem(g) => !GeneratedAs(db, g)
    case WebhookItem(h) => Landing(w, doc, h.shared, h.cluster) != Some(db.Webhook(h.name).value.env)
    case StackItem(st) =>
      var row := db.Stack(EnvOf(w, Effective(doc, st.cluster)).value, st.name).value;
      row.engine != st.engine || (row.source.isGit && st.source.Inline? && st.source.compose != "")
    case _ => false
  }

  // ── the verdict ─────────────────────────────────────────────────────────────────────

  /** The verdict of an apply step that does not fail is the one this table gives. */
  ghost predicate Judged(w: World, doc: Doc, db: Store, x: Item, v: Verdict) {
    && (v == Blocked <==> InTheWay(w, doc, db, x))
    && (v == Drifted <==> !InTheWay(w, doc, db, x) && AtOdds(w, doc, db, x))
    && (v == Create <==> !InTheWay(w, doc, db, x) && Absent(w, doc, db, x))
  }

  lemma DeliveryFinds(w: World, doc: Doc, db: Store, d: DeliveryDecl)
    ensures var env := EnvOf(w, Effective(doc, d.cluster));
      env.Some? ==>
        && (ResolveCerts(doc, true, db, env.value, d.certs).Resolved? <==>
            exists certs :: CarriesAs(db, env.value, d.certs, certs))
        && (ResolveCAs(doc, true, db, d.bundleCAs).Resolved? <==>
            exists bundle: seq<nat> :: BundleAs(db, d.bundleCAs, bundle))
        && !(ResolveCerts(doc, true, db, env.value, d.certs).Resolved?
             && ResolveCerts(doc, true, db, env.value, d.certs).pending)
        && !(ResolveCAs(doc, true, db, d.bundleCAs).Resolved? && ResolveCAs(doc, true, db, d.bundleCAs).pending)
  {
    var env := EnvOf(w, Effective(doc, d.cluster));
    if env.Some? {
      NothingPending(doc, db, env.value, d.certs, d.bundleCAs);
      forall certs
        ensures var found := ResolveCerts(doc, true, db, env.value, d.certs);
          found.Resolved? && found.found == certs <==> CarriesAs(db, env.value, d.certs, certs)
      {
        CarriesExactly(doc, db, env.value, d.certs, certs);
      }
      forall bundle: seq<nat>
        ensures var found := ResolveCAs(doc, true, db, d.bundleCAs);
          found.Resolved? && found.found == bundle <==> BundleAs(db, d.bundleCAs, bundle)
      {
        BundleExactly(doc, db, d.bundleCAs, bundle);
      }
      hide ResolveCerts, ResolveCAs, CarriesAs, BundleAs;
      var certs, bundle := ResolveCerts(doc, true, db, env.value, d.certs), ResolveCAs(doc, true, db, d.bundleCAs);
      if certs.Resolved? { assert CarriesAs(db, env.value, d.certs, certs.found); }
      if bundle.Resolved? { assert BundleAs(db, d.bundleCAs, bundle.found); }
    }
  }

  lemma DeliveryJudged(w: World, doc: Doc, db: Store, d: DeliveryDecl)
    requires !EnsureDelivery(w, doc, true, db, d).failed
    ensures Judged(w, doc, db, DeliveryItem(d), EnsureDelivery(w, doc, true, db, d).verdict)
  {
    DeliveryFinds(w, doc, db, d);
    hide ResolveCerts, ResolveCAs, CarriesAs, BundleAs, RepeatsCert, DeliveryMatches, WantedDelivery;
  }

  lemma StackJudged(w: World, doc: Doc, db: Store, st: StackDecl)
    requires !EnsureStack(w, doc, true, db, st).failed
    ensures Judged(w, doc, db, StackItem(st), EnsureStack(w, doc, true, db, st).verdict)
  {
    var cluster := Effective(doc, st.cluster);
    var env := EnvOf(w, cluster);
    if env.Some? {
      CredExactly(doc, db, CredName(st.source), NoLink);
      HookExactly(doc, db, env.value, st.webhook, false, NoLink);
      hide FindCred, NamedWebhook, HookFound, ConvergeStack, AddStack, NewStack;
      var cred := FindCred(doc, true, db, CredName(st.source));
      var named := NamedWebhook(doc, true, db, st.webhook, env.value);
      if cred.Some? && named.Some? {
        var row := db.Stack(env.value, st.name);
        if row.Some? {
          ConvergesTo(w, db, env.value, st, cluster, cred.value, named.value, row.value, false);
        } else {
          ConvergesTo(w, AddStack(db, env.value, st, cred.value), env.value, st, cluster, cred.value, named.value,
                      NewStack(db, st, cred.value), true);
        }
      }
    }
  }

  lemma ConvergesTo(w: World, db: Store, env: string, st: StackDecl, cluster: string, cred: Link, named: Link,
                    row: StackRow, created: bool)
    ensures var s := ConvergeStack(w, true, db, env, st, cluster, cred, named, row, created);
      !s.failed ==> if created then s.verdict == Create else s.verdict in {Update, InSync}
  {
    hide StackChanges, WantedStack, StackCols, TargetWebhook;
  }

  lemma VolJudged(w: World, doc: Doc, db: Store, v: VolDecl)
    requires !EnsureVol(w, doc, true, db, v).failed
    ensures Judged(w, doc, db, VolItem(v), EnsureVol(w, doc, true, db, v).verdict)
  {
    var cluster := Effective(doc, v.cluster);
    var env := EnvOf(w, cluster);
    if env.Some? {
      CredExactly(doc, db, VolCred(v), NoLink);
      StackLinkExactly(doc, db, env.value, v.stack, NoLink);
      HookExactly(doc, db, env.value, v.webhook, false, NoLink);
      FreeExactly(w, db, env.value, v);
      hide FindCred, FindStack, NamedWebhook, HookFound, Refused, Free, PlaceVol;
      var cred, stack := FindCred(doc, true, db, VolCred(v)), FindStack(doc, true, db, env.value, v.stack);
      var named := NamedWebhook(doc, true, db, v.webhook, env.value);
      if cred.Some? && stack.Some? && named.Some? {
        PlacesTo(w, db, env.value, v, cluster, cred.value, stack.value, named.value);
      }
    }
  }

  lemma PlacesTo(w: World, db: Store, env: string, v: VolDecl, cluster: string, cred: Link, stack: Link, named: Link)
    ensures var s := PlaceVol(w, true, db, env, v, cluster, cred, stack, named);
      !s.failed ==> if db.Vol(env, v.volume).None? then s.verdict == Create else s.verdict in {Update, InSync}
  {
    hide VolHook, VolMatches, WantedVol;
  }

  lemma PlainJudged(w: World, doc: Doc, db: Store, x: Item)
    requires !x.DeliveryItem? && !x.StackItem? && !x.VolItem?
    requires !Ensure(w, doc, true, db, x).failed
    ensures Judged(w, doc, db, x, Ensure(w, doc, true, db, x).verdict)
  {
    hide Contains, Trim, Lower, Declares;
  }

  /** Blocked, drifted and created exactly as the table says; in sync exactly when the store already
      holds what is asked for; and updated in what is left. */
  lemma VerdictExactly(w: World, doc: Doc, db: Store, x: Item)
    requires ItemOK(x) && Minted(w, db, x) && RowsDistinct(db) && !Ensure(w, doc, true, db, x).failed
    ensures var s := Ensure(w, doc, true, db, x);
      && Judged(w, doc, db, x, s.verdict)
      && (s == Step(db, InSync, false) <==> Conforms(w, doc, db, x))
  {
    InSyncExactly(w, doc, db, x);
    hide EnsureDelivery, EnsureStack, EnsureVol, Judged, Conforms;
    match x
    case DeliveryItem(d) => DeliveryJudged(w, doc, db, d);
    case StackItem(st) => StackJudged(w, doc, db, st);
    case VolItem(v) => VolJudged(w, doc, db, v);
    case _ => PlainJudged(w, doc, db, x);
  }

  // ── what a new row holds ────────────────────────────────────────────────────────────

  /** A row just made, with a fresh id: what the declaration leaves open is filled in. The columns it
      does fix are those of Conforms. */
  ghost predicate MadeAs(w: World, doc: Doc, db: Store, x: Item, next: Store) {
    match x
    case SSHKeyItem(k) => next.SSHKey(k.name) == Some(SSHKeyRow(db.nextID, if k.algo == "" then "ed25519" else k.algo))
    case GitCredItem(g) =>
      next.GitCred(g.name).Some? &&
      var row := next.GitCred(g.name).value;
      && row.id == db.nextID && row.hostKey == Trim(g.hostKey)
      && (if g.kind == GitToken
          then SubmittedAs(w, g.tokenFrom) && row.token == w.values[g.tokenFrom] && row.sshKey == NoLink
          else row.token == "")
    case CAItem(ca) =>
      next.CA(ca.name).Some? &&
      var row := next.CA(ca.name).value;
      && row.id == db.nextID && row.canSign && row.subject == w.subject(Trim(ca.commonName), Trim(ca.org))
      && row.keyAlgo == (if ca.keyAlgo == "" then "ecdsa-p256" else ca.keyAlgo)
      && row.outboundTrust == (ca.outboundTrust != Some(false))
    case CertItem(c) =>
      var env := Landing(w, doc, c.shared, c.cluster);
      && env.Some? && db.CA(c.ca).Some? && next.Cert(env.value, c.name).Some?
      && var row := next.Cert(env.value, c.name).value;
      && row.id == db.nextID && row.name == c.name && row.caID == LinkTo(db.CA(c.ca).value.id)
      && Some(row.sans) == w.sans(c.sans)
      && (w.usages(c.usages) == Some("") ==> row.usages == "server")
      && row.keyAlgo == (if c.keyAlgo == "" then "ecdsa-p256" else c.keyAlgo)
      && row.renewBeforeDays == if c.renewBeforeDays == 0 then 30 else c.renewBeforeDays
    case DeliveryItem(d) =>
      var env := EnvOf(w, Effective(doc, d.cluster));
      && env.Some? && |next.Deliveries(env.value, d.volume)| == 1
      && var row := next.Deliveries(env.value, d.volume)[0];
      row.id == db.nextID && CarriesAs(db, env.value, d.certs, row.certs) && BundleAs(db, d.bundleCAs, row.bundle)
    case GeneratedItem(g) =>
      next.Generated(g.name).Some? &&
      next.Generated(g.name).value.id == db.nextID && next.Generated(g.name).value.value == w.mint(db.nextID)
    case WebhookItem(h) =>
      next.Webhook(h.name).Some? &&
      next.Webhook(h.name).value.id == db.nextID
      && next.Webhook(h.name).value.secret
         == if SubmittedAs(w, h.secretFrom) then w.values[h.secretFrom] else w.mint(db.nextID)
    case StackItem(st) =>
      var env := EnvOf(w, Effective(doc, st.cluster));
      env.Some? && next.Stack(env.value, st.name).Some? && next.Stack(env.value, st.name).value.id == db.nextID
    case VolItem(v) =>
      var env := EnvOf(w, Effective(doc, v.cluster));
      env.Some? && next.Vol(env.value, v.volume).Some? && next.Vol(env.value, v.volume).value.id >= db.nextID
  }

  lemma DeliveryMade(w: World, doc: Doc, db: Store, d: DeliveryDecl)
    requires EnsureDelivery(w, doc, true, db, d).verdict == Create && !EnsureDelivery(w, doc, true, db, d).failed
    ensures MadeAs(w, doc, db, DeliveryItem(d), EnsureDelivery(w, doc, true, db, d).db)
  {
    DeliveryFinds(w, doc, db, d);
    var env := EnvOf(w, Effective(doc, d.cluster)).value;
    CarriesExactly(doc, db, env, d.certs, ResolveCerts(doc, true, db, env, d.certs).found);
    BundleExactly(doc, db, d.bundleCAs, ResolveCAs(doc, true, db, d.bundleCAs).found);
    hide ResolveCerts, ResolveCAs, CarriesAs, BundleAs, RepeatsCert, DeliveryMatches;
  }

  lemma StackMade(w: World, doc: Doc, db: Store, st: StackDecl)
    requires EnsureStack(w, doc, true, db, st).verdict == Create && !EnsureStack(w, doc, true, db, st).failed
    ensures MadeAs(w, doc, db, StackItem(st), EnsureStack(w, doc, true, db, st).db)
  {
    var cluster := Effective(doc, st.cluster);
    var env := EnvOf(w, cluster);
    hide FindCred, NamedWebhook, ConvergeStack;
    var cred := FindCred(doc, true, db, CredName(st.source));
    var named := NamedWebhook(doc, true, db, st.webhook, env.value);
    if db.Stack(env.value, st.name).Some? {
      ConvergesTo(w, db, env.value, st, cluster, cred.value, named.value, db.Stack(env.value, st.name).value, false);
    } else {
      KeepsID(w, AddStack(db, env.value, st, cred.value), env.value, st, cluster, cred.value, named.value,
              NewStack(db, st, cred.value), true);
    }
  }

  lemma KeepsID(w: World, db: Store, env: string, st: StackDecl, cluster: string, cred: Link, named: Link,
                row: StackRow, created: bool)
    requires db.Stack(env, st.name) == Some(row)
    ensures var s := ConvergeStack(w, true, db, env, st, cluster, cred, named, row, created);
      s.db.Stack(env, st.name).Some? && s.db.Stack(env, st.name).value.id == row.id
  {
    HookTouches(w, true, db, named, row.webhook, st.autoDeploy && st.source.FromGit?, st.name, env, cluster);
    hide StackChanges, StackCols, TargetWebhook, EnvMerged, FilesMerged;
  }

  lemma VolMade(w: World, doc: Doc, db: Store, v: VolDecl)
    requires EnsureVol(w, doc, true, db, v).verdict == Create && !EnsureVol(w, doc, true, db, v).failed
    ensures MadeAs(w, doc, db, VolItem(v), EnsureVol(w, doc, true, db, v).db)
  {
    hide FindCred, FindStack, NamedWebhook, Refused, VolMatches, FreeName;
  }

  /** A resource reported created has a new row of its own, with what the declaration leaves open filled
      in: default algorithms and windows, submitted or random secrets, the authority it was issued by. */
  lemma CreatedHolds(w: World, doc: Doc, db: Store, x: Item)
    requires ItemOK(x) && !Ensure(w, doc, true, db, x).failed && Ensure(w, doc, true, db, x).verdict == Create
    ensures MadeAs(w, doc, db, x, Ensure(w, doc, true, db, x).db)
  {
    hide EnsureDelivery, EnsureStack, EnsureVol;
    match x
    case DeliveryItem(d) => DeliveryMade(w, doc, db, d);
    case StackItem(st) => StackMade(w, doc, db, st);
    case VolItem(v) => VolMade(w, doc, db, v);
    case _ => PlainMade(w, doc, db, x);
  }

  lemma PlainMade(w: World, doc: Doc, db: Store, x: Item)
    requires !x.DeliveryItem? && !x.StackItem? && !x.VolItem?
    requires ItemOK(x) && !Ensure(w, doc, true, db, x).failed && Ensure(w, doc, true, db, x).verdict == Create
    ensures MadeAs(w, doc, db, x, Ensure(w, doc, true, db, x).db)
  {
    hide Contains, Trim, Lower, Declares;
  }

  /** The name a webhook a target makes for itself gets: its own if that is free, else with the cluster,
      else with a random suffix. */
  function OwnName(w: World, db: Store, base: string, cluster: string): string {
    if db.Webhook(base).None? then base
    else if db.Webhook(base + "-" + cluster).None? then base + "-" + cluster
    else w.suffixed(base, db.nextID)
  }

  /** A target with no webhook named and none yet that deploys on push makes one on its environment, with
      random material, unless even the last name is taken: then the walk stops. */
  lemma HookMade(w: World, db: Store, base: string, env: string, cluster: string)
    requires Typed(db)
    ensures var h, name := TargetWebhook(w, true, db, NoLink, NoLink, true, base, env, cluster),
                           OwnName(w, db, base, cluster);
      && (h.failed <==> db.Webhook(name).Some?)
      && (h.failed ==> h.db == db)
      && (!h.failed ==> h.link == LinkTo(db.nextID)
                        && h.db.Webhook(name) == Some(WebhookRow(db.nextID, env, w.mint(db.nextID))))
  {
  }

  lemma DeliveryStops(w: World, doc: Doc, db: Store, d: DeliveryDecl)
    requires !InTheWay(w, doc, db, DeliveryItem(d))
    ensures var env := EnvOf(w, Effective(doc, d.cluster));
      && env.Some? && ResolveCerts(doc, true, db, env.value, d.certs).Resolved?
      && (EnsureDelivery(w, doc, true, db, d).failed <==>
          !DeliveryMet(w, doc, db, d) && RepeatsCert(ResolveCerts(doc, true, db, env.value, d.certs).found))
  {
    DeliveryFinds(w, doc, db, d);
    hide ResolveCerts, ResolveCAs, CarriesAs, BundleAs, RepeatsCert, WantedDelivery;
  }

  lemma BlockedDelivery(w: World, doc: Doc, db: Store, d: DeliveryDecl)
    requires InTheWay(w, doc, db, DeliveryItem(d))
    ensures !EnsureDelivery(w, doc, true, db, d).failed
  {
    DeliveryFinds(w, doc, db, d);
    hide ResolveCerts, ResolveCAs, CarriesAs, BundleAs, RepeatsCert, WantedDelivery, DeliveryMatches;
  }

  lemma TwiceExactly(w: World, doc: Doc, db: Store, d: DeliveryDecl)
    ensures CarriesTwice(w, doc, db, d) <==>
            var env := EnvOf(w, Effective(doc, d.cluster));
            && env.Some? && ResolveCerts(doc, true, db, env.value, d.certs).Resolved?
            && RepeatsCert(ResolveCerts(doc, true, db, env.value, d.certs).found)
  {
    var env := EnvOf(w, Effective(doc, d.cluster));
    if env.Some? {
      var found := ResolveCerts(doc, true, db, env.value, d.certs);
      if found.Resolved? { CarriesExactly(doc, db, env.value, d.certs, found.found); }
      if CarriesTwice(w, doc, db, d) {
        var certs: seq<Carried> :| CarriesAs(db, env.value, d.certs, certs) && Repeats(certs);
        CarriesExactly(doc, db, env.value, d.certs, certs);
      }
      hide ResolveCerts, CarriesAs;
    }
  }

  /** The walk stops at a delivery exactly when it would write one that carries a certificate twice. */
  lemma DeliveryFails(w: World, doc: Doc, db: Store, d: DeliveryDecl)
    ensures EnsureDelivery(w, doc, true, db, d).failed <==>
            && !InTheWay(w, doc, db, DeliveryItem(d)) && !DeliveryAs(w, doc, db, d)
            && CarriesTwice(w, doc, db, d)
  {
    DeliveryMetExactly(w, doc, db, d);
    TwiceExactly(w, doc, db, d);
    hide InTheWay, DeliveryAs, DeliveryMet, CarriesTwice, EnsureDelivery, ResolveCerts, RepeatsCert;
    if InTheWay(w, doc, db, DeliveryItem(d)) { BlockedDelivery(w, doc, db, d); } else { DeliveryStops(w, doc, db, d); }
  }

  predicate Repeats(certs: seq<Carried>) {
    exists i, j :: 0 <= i < j < |certs| && certs[i].certID == certs[j].certID
  }

  ghost predicate CarriesTwice(w: World, doc: Doc, db: Store, d: DeliveryDecl) {
    var env := EnvOf(w, Effective(doc, d.cluster));
    env.Some? && exists certs: seq<Carried> :: CarriesAs(db, env.value, d.certs, certs) && Repeats(certs)
  }

  /** Every name a target could give a webhook of its own is taken. */
  ghost predicate NamesTaken(w: World, db: Store, base: string, cluster: string) {
    && HookKey(base) in db.rows && HookKey(base + "-" + cluster) in db.rows
    && exists n: nat :: HookKey(w.suffixed(base, n)) in db.rows
  }

  /** The walk stops at a stack only when every name for its own webhook is taken. Its row, new or not,
      then has its source already, and nothing else of what was asked for. */
  lemma StackStops(w: World, doc: Doc, db: Store, st: StackDecl)
    requires EnsureStack(w, doc, true, db, st).failed && Typed(db)
    ensures var env := EnvOf(w, Effective(doc, st.cluster));
      && env.Some? && st.webhook == "" && st.autoDeploy && st.source.FromGit?
      && NamesTaken(w, db, st.name, Effective(doc, st.cluster))
      && var was, row := db.Stack(env.value, st.name), EnsureStack(w, doc, true, db, st).db.Stack(env.value, st.name);
      && row.Some? && SourceAs(db, st.source, row.value.source)
      && (was.Some? ==> row.value == was.value.(source := row.value.source))
      && (was.None? ==> row.value == StackRow(db.nextID, st.engine, row.value.source, false, "", NoLink, [], []))
  {
    var cluster := Effective(doc, st.cluster);
    var env := EnvOf(w, cluster).value;
    hide StackCols, ConvergeStack, FindCred, SourceAs, NamesTaken, Typed;
    var cred := FindCred(doc, true, db, CredName(st.source));
    var named := NamedWebhook(doc, true, db, st.webhook, env);
    SourceExactly(doc, db, st.source, StackCols(st.source, cred.value));
    if db.Stack(env, st.name).Some? {
      ConvergeStops(w, db, env, st, cluster, cred.value, named.value, db.Stack(env, st.name).value, false);
    } else {
      NewStops(w, db, env, st, cluster, cred.value, named.value);
    }
  }

  lemma NewStops(w: World, db: Store, env: string, st: StackDecl, cluster: string, cred: Link, named: Link)
    requires ConvergeStack(w, true, AddStack(db, env, st, cred), env, st, cluster, cred, named, NewStack(db, st, cred),
                           true).failed
    requires Typed(db)
    ensures named == NoLink && st.autoDeploy && st.source.FromGit? && NamesTaken(w, db, st.name, cluster)
    ensures ConvergeStack(w, true, AddStack(db, env, st, cred), env, st, cluster, cred, named, NewStack(db, st, cred),
                          true).db.Stack(env, st.name)
            == Some(StackRow(db.nextID, st.engine, StackCols(st.source, cred), false, "", NoLink, [], []))
  {
    hide StackCols, ConvergeStack;
    var made := AddStack(db, env, st, cred);
    ConvergeStops(w, made, env, st, cluster, cred, named, NewStack(db, st, cred), true);
    assert forall name :: HookKey(name) in made.rows <==> HookKey(name) in db.rows;
  }

  lemma ConvergeStops(w: World, db: Store, env: string, st: StackDecl, cluster: string, cred: Link, named: Link,
                      row: StackRow, created: bool)
    requires ConvergeStack(w, true, db, env, st, cluster, cred, named, row, created).failed
    requires db.Stack(env, st.name) == Some(row) && Typed(db)
    ensures named == NoLink && st.autoDeploy && st.source.FromGit? && NamesTaken(w, db, st.name, cluster)
    ensures ConvergeStack(w, true, db, env, st, cluster, cred, named, row, created).db.Stack(env, st.name)
            == Some(row.(source := StackCols(st.source, cred)))
  {
    hide StackCols;
    var name := FreeName(w, db, st.name, cluster);
    assert HookKey(name) in db.rows;
  }
}
