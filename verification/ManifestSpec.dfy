/** One resource's verdict and effect: what the walk computes for each kind, in plan mode
    (apply == false) and in apply mode, as a function of the store it meets. */
module ManifestSpec {
  import opened Wrappers
  import opened ManifestModel
  import opened Text
  import opened SlotMerge
  import opened Comparisons

  /** The store afterwards and the verdict pushed. failed: the walk stops here with an error
      and pushes nothing; the store then holds whatever had been written before it. */
  datatype Step = Step(db: Store, verdict: Verdict, failed: bool)

  function Leave(db: Store, verdict: Verdict): Step { Step(db, verdict, false) }

  // ── keys, credentials, authorities, certificates ────────────────────────────────────

  function GenerateAlgo(algo: string): Option<string> {
    if algo == "" || algo == "ed25519" then Some("ed25519")
    else if algo == "rsa" then Some("rsa")
    else None
  }

  function EnsureSSHKey(apply: bool, db: Store, k: SSHKeyDecl): Step {
    match db.SSHKey(k.name)
    case Some(row) => Leave(db, if k.algo != "" && Lower(k.algo) != Lower(row.algo) then Drifted else InSync)
    case None =>
      if !apply then Leave(db, Create)
      else match GenerateAlgo(k.algo)
        case None => Leave(db, Blocked)
        case Some(algo) =>
          Leave(db.Insert(RowKey(SSHKeyKind, "", k.name), SSHKeyIn(SSHKeyRow(db.nextID, algo))), Create)
  }

  predicate GitCredDiffers(db: Store, row: GitCredRow, g: GitCredDecl) {
    || row.kind != g.kind
    || row.username != Trim(g.username)
    || (g.kind == GitSSH && (db.SSHKey(g.sshKey).None? || row.sshKey != LinkTo(db.SSHKey(g.sshKey).value.id)))
    || (g.hostKey != "" && row.hostKey != Trim(g.hostKey))
  }

  function NewGitCred(w: World, db: Store, g: GitCredDecl): GitCredRow {
    GitCredRow(db.nextID, g.kind, Trim(g.username), Trim(g.hostKey),
               if g.kind == GitSSH && db.SSHKey(g.sshKey).Some? then LinkTo(db.SSHKey(g.sshKey).value.id) else NoLink,
               if g.kind == GitToken && ValueOf(w, g.tokenFrom).Some? then ValueOf(w, g.tokenFrom).value else "")
  }

  function EnsureGitCred(w: World, doc: Doc, apply: bool, db: Store, g: GitCredDecl): Step {
    match db.GitCred(g.name)
    case Some(row) => Leave(db, if GitCredDiffers(db, row, g) then Drifted else InSync)
    case None =>
      if g.kind == GitToken && ValueOf(w, g.tokenFrom).None? then Leave(db, Blocked)
      else if g.kind == GitSSH && db.SSHKey(g.sshKey).None? && (apply || !Declares(doc, SSHKeyKind, g.sshKey)) then
        Leave(db, Blocked)
      else if !apply then Leave(db, Create)
      else Leave(db.Insert(RowKey(GitCredKind, "", g.name), GitCredIn(NewGitCred(w, db, g))), Create)
  }

  function Outbound(ca: CADecl): bool { ca.outboundTrust.None? || ca.outboundTrust.value }

  function DefaultAlgo(algo: string): string { if algo == "" then "ecdsa-p256" else algo }

  predicate CADiffers(row: CARow, ca: CADecl) {
    || (ca.keyAlgo != "" && row.keyAlgo != ca.keyAlgo)
    || !Contains(row.subject, "CN=" + Trim(ca.commonName))
  }

  function NewCA(w: World, id: nat, ca: CADecl): CARow {
    CARow(id, w.subject(Trim(ca.commonName), Trim(ca.org)), DefaultAlgo(ca.keyAlgo), Outbound(ca), true)
  }

  function EnsureCA(w: World, apply: bool, db: Store, ca: CADecl): Step {
    var key := RowKey(CAKind, "", ca.name);
    match db.CA(ca.name)
    case Some(row) =>
      if CADiffers(row, ca) then Leave(db, Drifted)
      else if row.outboundTrust == Outbound(ca) then Leave(db, InSync)
      else if !apply then Leave(db, Update)
      else Leave(db.Update(key, CAIn(row.(outboundTrust := Outbound(ca)))), Update)
    case None =>
      if !apply then Leave(db, Create)
      else if w.caRefused(ca) then Leave(db, Blocked)
      else Leave(db.Insert(key, CAIn(NewCA(w, db.nextID, ca))), Create)
  }

  /** The environment a certificate or webhook lands on: the empty id when shared, and no
      answer when its cluster does not exist. */
  function PlaceOf(w: World, doc: Doc, shared: bool, cluster: string): Option<string> {
    if shared then Some("") else EnvOf(w, Effective(doc, cluster))
  }

  predicate CertDiffers(db: Store, row: CertRow, c: CertDecl, sans: string, usages: string) {
    || sans != row.sans
    || (usages != "" && usages != row.usages)
    || (c.keyAlgo != "" && row.keyAlgo != c.keyAlgo)
    || (db.CA(c.ca).Some? && row.caID != NoLink && row.caID != LinkTo(db.CA(c.ca).value.id))
  }

  function NewCert(id: nat, c: CertDecl, ca: nat, sans: string, usages: string): CertRow {
    CertRow(id, c.name, LinkTo(ca), sans, if usages == "" then "server" else usages, DefaultAlgo(c.keyAlgo),
            if c.renewBeforeDays <= 0 then 30 else c.renewBeforeDays)
  }

  /** A certificate whose place, names and usages are legal. */
  function PlaceCert(w: World, doc: Doc, apply: bool, db: Store, env: string, c: CertDecl, sans: string,
                     usages: string): Step {
    var key := RowKey(CertKind, env, c.name);
    match db.Cert(env, c.name)
    case Some(row) =>
      if CertDiffers(db, row, c, sans, usages) then Leave(db, Drifted)
      else if c.renewBeforeDays == 0 || row.renewBeforeDays == c.renewBeforeDays then Leave(db, InSync)
      else if !apply then Leave(db, Update)
      else Leave(db.Update(key, CertIn(row.(renewBeforeDays := c.renewBeforeDays))), Update)
    case None =>
      match db.CA(c.ca)
      case None => Leave(db, if !apply && Declares(doc, CAKind, c.ca) then Create else Blocked)
      case Some(ca) =>
        if !ca.canSign then Leave(db, Blocked)
        else if !apply then Leave(db, Create)
        else if w.issueRefused(c) then Leave(db, Blocked)
        else Leave(db.Insert(key, CertIn(NewCert(db.nextID, c, ca.id, sans, usages))), Create)
  }

  function EnsureCert(w: World, doc: Doc, apply: bool, db: Store, c: CertDecl): Step {
    var env := PlaceOf(w, doc, c.shared, c.cluster);
    var sans, usages := w.sans(c.sans), w.usages(c.usages);
    if env.None? || sans.None? || usages.None? then Leave(db, Blocked)
    else PlaceCert(w, doc, apply, db, env.value, c, sans.value, usages.value)
  }

  // ── certificate deliveries ──────────────────────────────────────────────────────────

  /** Name lookups for a delivery: the ids found, in order; pending: some name will only exist
      once this document is applied; Missing: some name is nowhere. */
  datatype Refs<T> = Missing | Resolved(found: seq<T>, pending: bool)

  /** A certificate name reaches the environment's own certificate first, then the shared one. */
  function FindCert(db: Store, env: string, name: string): Option<CertRow> {
    if db.Cert(env, name).Some? then db.Cert(env, name) else db.Cert("", name)
  }

  function ResolveCerts(doc: Doc, apply: bool, db: Store, env: string, refs: seq<CertRef>): Refs<Carried> {
    if refs == [] then Resolved([], false)
    else
      var found := FindCert(db, env, refs[0].name);
      var rest := ResolveCerts(doc, apply, db, env, refs[1..]);
      if found.None? && (apply || !Declares(doc, CertKind, refs[0].name)) then Missing
      else if rest.Missing? then Missing
      else if found.None? then Resolved(rest.found, true)
      else Resolved([Carried(found.value.id, refs[0].isDefault)] + rest.found, rest.pending)
  }

  function ResolveCAs(doc: Doc, apply: bool, db: Store, names: seq<string>): Refs<nat> {
    if names == [] then Resolved([], false)
    else
      var found := db.CA(names[0]);
      var rest := ResolveCAs(doc, apply, db, names[1..]);
      if found.None? && (apply || !Declares(doc, CAKind, names[0])) then Missing
      else if rest.Missing? then Missing
      else if found.None? then Resolved(rest.found, true)
      else Resolved([found.value.id] + rest.found, rest.pending)
  }

  predicate RepeatsCert(certs: seq<Carried>) {
    exists i, j :: 0 <= i < j < |certs| && certs[i].certID == certs[j].certID
  }

  predicate DeliveryMatches(row: DeliveryRow, d: DeliveryDecl, certs: seq<Carried>, bundle: seq<nat>, mount: string) {
    && multiset(row.certs) == multiset(certs)
    && row.mountPath == mount
    && row.uid == d.uid && row.gid == d.gid && row.traefik == d.traefik
    && row.restartTargets == Trim(d.restartTargets)
    && multiset(row.bundle) == multiset(bundle)
  }

  function WantedDelivery(id: nat, d: DeliveryDecl, certs: seq<Carried>, bundle: seq<nat>, mount: string): DeliveryRow {
    DeliveryRow(id, certs, mount, d.uid, d.gid, d.traefik, Trim(d.restartTargets), bundle)
  }

  /** A delivery whose names all resolved, against the rows already writing its volume. */
  function PlaceDelivery(w: World, apply: bool, db: Store, env: string, d: DeliveryDecl,
                         certs: seq<Carried>, bundle: seq<nat>, pending: bool, mount: string): Step {
    var key := RowKey(DeliveryKind, env, d.volume);
    var rows := db.Deliveries(env, d.volume);
    if |rows| > 1 then Leave(db, Blocked)
    else if |rows| == 1 then
      if pending then Leave(db, Update)
      else if DeliveryMatches(rows[0], d, certs, bundle, mount) then Leave(db, InSync)
      else if !apply then Leave(db, Update)
      else if RepeatsCert(certs) then Step(db, Update, true)
      else Leave(db.Update(key, DeliveriesIn([WantedDelivery(rows[0].id, d, certs, bundle, mount)])), Update)
    else if env !in w.connected then Leave(db, Blocked)
    else if !apply then Leave(db, Create)
    else if (env, d.volume) in w.fleetOwned then Leave(db, Blocked)
    else if RepeatsCert(certs) then Step(db, Create, true)
    else Leave(db.Insert(key, DeliveriesIn([WantedDelivery(db.nextID, d, certs, bundle, mount)])), Create)
  }

  function EnsureDelivery(w: World, doc: Doc, apply: bool, db: Store, d: DeliveryDecl): Step {
    var env := EnvOf(w, Effective(doc, d.cluster));
    if env.None? then Leave(db, Blocked)
    else
      var certs := ResolveCerts(doc, apply, db, env.value, d.certs);
      var bundle := ResolveCAs(doc, apply, db, d.bundleCAs);
      var mount := w.mount(d.mountPath);
      if certs.Missing? || bundle.Missing? || mount.None? then Leave(db, Blocked)
      else
        var pending := certs.pending || bundle.pending;
        PlaceDelivery(w, apply, db, env.value, d, certs.found, bundle.found, pending, mount.value)
  }

  // ── generated secrets and webhooks ──────────────────────────────────────────────────

  function GeneratedFormat(g: GeneratedDecl): string { if g.format == "" then "alphanumeric" else g.format }
  function GeneratedLength(g: GeneratedDecl): nat { if g.length == 0 then 32 else g.length }

  function EnsureGenerated(w: World, apply: bool, db: Store, g: GeneratedDecl): Step {
    match db.Generated(g.name)
    case Some(row) =>
      Leave(db, if row.format != GeneratedFormat(g) || row.length != GeneratedLength(g) then Drifted else InSync)
    case None =>
      if !apply then Leave(db, Create)
      else
        var row := GeneratedRow(db.nextID, w.mint(db.nextID), GeneratedFormat(g), GeneratedLength(g));
        Leave(db.Insert(RowKey(GeneratedKind, "", g.name), GeneratedIn(row)), Create)
  }

  function AddWebhook(db: Store, name: string, env: string, secret: string): Store {
    db.Insert(RowKey(WebhookKind, "", name), WebhookIn(WebhookRow(db.nextID, env, secret)))
  }

  function WebhookSecret(w: World, db: Store, h: WebhookDecl): string {
    if ValueOf(w, h.secretFrom).Some? then ValueOf(w, h.secretFrom).value else w.mint(db.nextID)
  }

  function EnsureWebhook(w: World, doc: Doc, apply: bool, db: Store, h: WebhookDecl): Step {
    var env := PlaceOf(w, doc, h.shared, h.cluster);
    if env.None? then Leave(db, Blocked)
    else match db.Webhook(h.name)
      case Some(row) => Leave(db, if row.env != env.value then Drifted else InSync)
      case None =>
        if h.secretFrom != "" && ValueOf(w, h.secretFrom).None? then Leave(db, Blocked)
        else if !apply then Leave(db, Create)
        else Leave(AddWebhook(db, h.name, env.value, WebhookSecret(w, db, h)), Create)
  }

  /** The webhook a target names: None when the name cannot be linked from this environment. */
  function NamedWebhook(doc: Doc, apply: bool, db: Store, name: string, env: string): Option<Link> {
    if name == "" then Some(NoLink)
    else match db.Webhook(name)
      case None => if !apply && Declares(doc, WebhookKind, name) then Some(PendingLink) else None
      case Some(row) => if row.env != "" && row.env != env then None else Some(LinkTo(row.id))
  }

  function FreeName(w: World, db: Store, base: string, cluster: string): string {
    if db.Webhook(base).None? then base
    else if db.Webhook(base + "-" + cluster).None? then base + "-" + cluster
    else w.suffixed(base, db.nextID)
  }

  datatype Hooked = Hooked(db: Store, link: Link, failed: bool)

  /** The webhook a target ends up linked to: the one it names, else the one it has, else, when
      it deploys on push, one of its own created now. */
  function TargetWebhook(w: World, apply: bool, db: Store, named: Link, current: Link, auto: bool,
                         base: string, env: string, cluster: string): Hooked {
    if named != NoLink then Hooked(db, named, false)
    else if current != NoLink || !auto then Hooked(db, current, false)
    else if !apply then Hooked(db, PendingLink, false)
    else
      var name := FreeName(w, db, base, cluster);
      if RowKey(WebhookKind, "", name) in db.rows then Hooked(db, NoLink, true)
      else Hooked(AddWebhook(db, name, env, w.mint(db.nextID)), LinkTo(db.nextID), false)
  }

  // ── stacks ──────────────────────────────────────────────────────────────────────────

  /** A named git credential: None when it is nowhere; an empty link while it is pending. */
  function FindCred(doc: Doc, apply: bool, db: Store, name: string): Option<Link> {
    if name == "" then Some(NoLink)
    else match db.GitCred(name)
      case Some(row) => Some(LinkTo(row.id))
      case None => if !apply && Declares(doc, GitCredKind, name) then Some(NoLink) else None
  }

  function GitCols(g: GitSource, cred: Link): SourceCols {
    SourceCols(true, Trim(g.url), Trim(g.ref), Trim(g.path), cred, "")
  }

  function StackCols(source: StackSource, cred: Link): SourceCols {
    match source
    case FromGit(g) => GitCols(g, cred)
    case Inline(compose) => SourceCols(false, "", "", "", NoLink, compose)
  }

  function CredName(source: StackSource): string { if source.FromGit? then source.git.credential else "" }

  function EnvMerged(w: World, db: Store, st: StackDecl, row: StackRow): Merged {
    Merge(row.env, EnvWants(w, db, st.env))
  }

  function FilesMerged(w: World, db: Store, st: StackDecl, row: StackRow): Merged {
    Merge(row.secrets, FileWants(w, db, st.files))
  }

  /** The row a declaration asks for, and whether it differs from the one there. */
  function WantedStack(w: World, db: Store, st: StackDecl, cred: Link, hook: Link, row: StackRow): StackRow {
    StackRow(row.id, row.engine, StackCols(st.source, cred), st.autoDeploy, st.watchPaths, hook,
             EnvMerged(w, db, st, row).rows, FilesMerged(w, db, st, row).rows)
  }

  predicate StackChanges(w: World, db: Store, st: StackDecl, cred: Link, hook: Link, row: StackRow) {
    || row.source != StackCols(st.source, cred)
    || row.autoDeploy != st.autoDeploy || row.watchPaths != st.watchPaths || row.webhook != hook
    || EnvMerged(w, db, st, row).changed || FilesMerged(w, db, st, row).changed
  }

  /** Converging source, push settings, variables and secret files on a stack row. */
  function ConvergeStack(w: World, apply: bool, db: Store, env: string, st: StackDecl, cluster: string,
                         cred: Link, named: Link, row: StackRow, created: bool): Step {
    var key := RowKey(StackKind, env, st.name);
    var source := StackCols(st.source, cred);
    var auto := st.autoDeploy && st.source.FromGit?;
    var hook := TargetWebhook(w, apply, db, named, row.webhook, auto, st.name, env, cluster);
    if hook.failed then
      Step(if apply && row.source != source then db.Update(key, StackIn(row.(source := source))) else db, Update, true)
    else
      var changed := StackChanges(w, db, st, cred, hook.link, row);
      Step(if apply && changed then hook.db.Update(key, StackIn(WantedStack(w, db, st, cred, hook.link, row)))
           else hook.db,
           if created then Create else if changed then Update else InSync, false)
  }

  function NewStack(db: Store, st: StackDecl, cred: Link): StackRow {
    StackRow(db.nextID, st.engine, StackCols(st.source, cred), false, "", NoLink, [], [])
  }

  function AddStack(db: Store, env: string, st: StackDecl, cred: Link): Store {
    db.Insert(RowKey(StackKind, env, st.name), StackIn(NewStack(db, st, cred)))
  }

  /** A stack whose credential and webhook resolved. */
  function PlaceStack(w: World, apply: bool, db: Store, env: string, st: StackDecl, cluster: string,
                      cred: Link, named: Link): Step {
    match db.Stack(env, st.name)
    case None =>
      if env !in w.connected then Leave(db, Blocked)
      else if st.engine == "swarm" && env !in w.swarms then Leave(db, Blocked)
      else if st.engine != "swarm" && env !in w.single then Leave(db, Blocked)
      else if !apply then Leave(db, Create)
      else ConvergeStack(w, apply, AddStack(db, env, st, cred), env, st, cluster, cred, named, NewStack(db, st, cred),
                         true)
    case Some(row) =>
      if row.engine != st.engine then Leave(db, Drifted)
      else if row.source.isGit && st.source.Inline? && st.source.compose != "" then Leave(db, Drifted)
      else ConvergeStack(w, apply, db, env, st, cluster, cred, named, row, false)
  }

  function EnsureStack(w: World, doc: Doc, apply: bool, db: Store, st: StackDecl): Step {
    var cluster := Effective(doc, st.cluster);
    var env := EnvOf(w, cluster);
    if env.None? then Leave(db, Blocked)
    else
      var cred := FindCred(doc, apply, db, CredName(st.source));
      var named := NamedWebhook(doc, apply, db, st.webhook, env.value);
      if cred.None? || named.None? then Leave(db, Blocked)
      else PlaceStack(w, apply, db, env.value, st, cluster, cred.value, named.value)
  }

  // ── volume sources ──────────────────────────────────────────────────────────────────

  function FindStack(doc: Doc, apply: bool, db: Store, env: string, name: string): Option<Link> {
    if name == "" then Some(NoLink)
    else match db.Stack(env, name)
      case Some(row) => Some(LinkTo(row.id))
      case None => if !apply && Declares(doc, StackKind, name) then Some(NoLink) else None
  }

  /** The delivery that renders tls.yml into a volume, if any: the first with a fragment. */
  function TraefikOn(rows: seq<DeliveryRow>): Option<DeliveryRow> {
    if rows == [] then None
    else if rows[0].traefik then Some(rows[0])
    else TraefikOn(rows[1..])
  }

  predicate CertFile(db: Store, certs: seq<Carried>, name: string) {
    exists i, k :: 0 <= i < |certs| && k in db.rows && k.kind == CertKind && db.rows[k].CertIn? &&
                   db.rows[k].cert.id == certs[i].certID &&
                   (name == db.rows[k].cert.name + ".crt" || name == db.rows[k].cert.name + ".key")
  }

  predicate DeliveryOwns(db: Store, env: string, volume: string, name: string) {
    var d := TraefikOn(db.Deliveries(env, volume));
    d.Some? && (name == "tls.yml" || name == "ca-bundle.crt" || name == ".daffa-certs-manifest"
                || CertFile(db, d.value.certs, name))
  }

  predicate Refused(w: World, db: Store, env: string, volume: string, files: seq<VolFile>) {
    exists i :: 0 <= i < |files| &&
                (DeliveryOwns(db, env, volume, files[i].path)
                 || ((env, volume) in w.fleetOwned && files[i].path in w.fleetOwned[(env, volume)]))
  }

  function VolCred(v: VolDecl): string { if v.content.GitContent? then v.content.git.credential else "" }

  function VolFiles(v: VolDecl): seq<VolFile> { if v.content.InlineContent? then v.content.files else [] }

  function VolCols(v: VolDecl, cred: Link): SourceCols {
    if v.content.GitContent? then GitCols(v.content.git, cred) else SourceCols(false, "", "", "", NoLink, "")
  }

  /** The row a declaration asks for; an inline source has no push settings and a git source
      keeps whatever files an earlier inline life left behind. */
  function WantedVol(v: VolDecl, cred: Link, stack: Link, hook: Link, id: nat, kept: seq<VolFile>): VolRow {
    VolRow(id, VolCols(v, cred), v.content.GitContent? && v.autoSync, v.uid, v.gid, stack,
           Trim(v.restartTargets), hook, if v.content.InlineContent? then v.content.files else kept)
  }

  /** The files of a git source are not looked at. */
  predicate VolMatches(row: VolRow, want: VolRow) {
    want.(files := row.files) == row && (want.source.isGit || SameFiles(row.files, want.files))
  }

  function VolHook(w: World, apply: bool, db: Store, v: VolDecl, named: Link, current: Link, env: string,
                   cluster: string): Hooked {
    if v.content.GitContent?
    then TargetWebhook(w, apply, db, named, current, v.autoSync, "volume-" + v.volume, env, cluster)
    else Hooked(db, NoLink, false)
  }

  /** A volume source whose references resolved and whose filenames nobody else owns. */
  function PlaceVol(w: World, apply: bool, db: Store, env: string, v: VolDecl, cluster: string,
                    cred: Link, stack: Link, named: Link): Step {
    var key := RowKey(VolKind, env, v.volume);
    match db.Vol(env, v.volume)
    case None =>
      if !apply then Leave(db, Create)
      else
        var hook := VolHook(w, apply, db, v, named, NoLink, env, cluster);
        if hook.failed then Step(db, Create, true)
        else Leave(hook.db.Insert(key, VolIn(WantedVol(v, cred, stack, hook.link, hook.db.nextID, []))), Create)
    case Some(row) =>
      var hook := VolHook(w, apply, db, v, named, row.webhook, env, cluster);
      if hook.failed then Step(db, Update, true)
      else
        var want := WantedVol(v, cred, stack, hook.link, row.id, row.files);
        if VolMatches(row, want) then Leave(hook.db, InSync)
        else if !apply then Leave(hook.db, Update)
        else Leave(hook.db.Update(key, VolIn(want)), Update)
  }

  function EnsureVol(w: World, doc: Doc, apply: bool, db: Store, v: VolDecl): Step {
    var cluster := Effective(doc, v.cluster);
    var env := EnvOf(w, cluster);
    if env.None? then Leave(db, Blocked)
    else
      var cred := FindCred(doc, apply, db, VolCred(v));
      var stack := FindStack(doc, apply, db, env.value, v.stack);
      var named := NamedWebhook(doc, apply, db, v.webhook, env.value);
      if cred.None? || stack.None? || named.None? || Refused(w, db, env.value, v.volume, VolFiles(v))
      then Leave(db, Blocked)
      else PlaceVol(w, apply, db, env.value, v, cluster, cred.value, stack.value, named.value)
  }

  // ── the walk ────────────────────────────────────────────────────────────────────────

  function Ensure(w: World, doc: Doc, apply: bool, db: Store, x: Item): Step {
    match x
    case SSHKeyItem(k) => EnsureSSHKey(apply, db, k)
    case GitCredItem(g) => EnsureGitCred(w, doc, apply, db, g)
    case CAItem(ca) => EnsureCA(w, apply, db, ca)
    case CertItem(c) => EnsureCert(w, doc, apply, db, c)
    case DeliveryItem(d) => EnsureDelivery(w, doc, apply, db, d)
    case GeneratedItem(g) => EnsureGenerated(w, apply, db, g)
    case WebhookItem(h) => EnsureWebhook(w, doc, apply, db, h)
    case StackItem(st) => EnsureStack(w, doc, apply, db, st)
    case VolItem(v) => EnsureVol(w, doc, apply, db, v)
  }

  datatype Outcome = Outcome(db: Store, verdicts: seq<Verdict>, failed: bool)

  /** Every resource in order, stopping at the first error. */
  function Walk(w: World, doc: Doc, apply: bool, db: Store, items: seq<Item>): Outcome
    decreases items
  {
    if items == [] then Outcome(db, [], false)
    else
      var s := Ensure(w, doc, apply, db, items[0]);
      if s.failed then Outcome(s.db, [], true)
      else
        var rest := Walk(w, doc, apply, s.db, items[1..]);
        Outcome(rest.db, [s.verdict] + rest.verdicts, rest.failed)
  }
}
