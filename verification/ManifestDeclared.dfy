/** What it means for the store to hold what a declaration asks for, column by column: said of the
    document and the stored rows alone, for every kind. */
module ManifestDeclared {
  import opened Wrappers
  import opened ManifestModel
  import opened Text

  // ── references ──────────────────────────────────────────────────────────────────────

  /** A credential column: empty when none is named, else the stored credential of that name. */
  predicate CredAs(db: Store, name: string, has: Link) {
    if name == "" then has == NoLink else db.GitCred(name).Some? && has == LinkTo(db.GitCred(name).value.id)
  }

  predicate StackLinkAs(db: Store, env: string, name: string, has: Link) {
    if name == "" then has == NoLink else db.Stack(env, name).Some? && has == LinkTo(db.Stack(env, name).value.id)
  }

  /** A webhook column: the webhook named, which must be shared or of the same environment; with none
      named, any at all where the target deploys on push, and whatever it was otherwise. */
  predicate HookAs(db: Store, env: string, name: string, auto: bool, has: Link) {
    if name == "" then auto ==> has != NoLink
    else
      && db.Webhook(name).Some? && db.Webhook(name).value.env in {"", env}
      && has == LinkTo(db.Webhook(name).value.id)
  }

  /** What a target's webhook column needs of the store, without the column. */
  predicate HookFound(db: Store, env: string, name: string) {
    name != "" ==> db.Webhook(name).Some? && db.Webhook(name).value.env in {"", env}
  }

  // ── sources ─────────────────────────────────────────────────────────────────────────

  predicate GitAs(db: Store, g: GitSource, has: SourceCols) {
    && has.isGit && has.url == Trim(g.url) && has.ref == Trim(g.ref) && has.path == Trim(g.path)
    && CredAs(db, g.credential, has.cred) && has.inlineYAML == ""
  }

  predicate NoGit(has: SourceCols) {
    !has.isGit && has.url == "" && has.ref == "" && has.path == "" && has.cred == NoLink
  }

  predicate SourceAs(db: Store, source: StackSource, has: SourceCols) {
    match source
    case FromGit(g) => GitAs(db, g, has)
    case Inline(compose) => NoGit(has) && has.inlineYAML == compose
  }

  // ── values ──────────────────────────────────────────────────────────────────────────

  function Joined(parts: seq<string>): string {
    if parts == [] then "" else Joined(parts[..|parts| - 1]) + parts[|parts| - 1]
  }

  /** One piece of a composed value: a text, or what a generated secret holds. */
  predicate PieceIs(db: Store, piece: Piece, part: string) {
    match piece
    case Text(t) => part == t
    case Reference(n) => db.Generated(n).Some? && part == db.Generated(n).value.value
  }

  /** The pieces say this, one after the other. */
  ghost predicate Spells(db: Store, pieces: seq<Piece>, text: string) {
    exists parts: seq<string> ::
      |parts| == |pieces| && text == Joined(parts) && forall i :: 0 <= i < |parts| ==> PieceIs(db, pieces[i], parts[i])
  }

  predicate GeneratedIs(db: Store, name: string, value: string) {
    db.Generated(name).Some? && value == db.Generated(name).value.value
  }

  predicate SubmittedAs(w: World, variable: string) {
    variable != "" && variable in w.values && w.values[variable] != ""
  }

  predicate HasKey(rows: seq<SlotRow>, key: string) { exists i :: 0 <= i < |rows| && rows[i].key == key }

  /** A declared variable's slot: a plain value as it is; a secret from a generated one, composed, or
      submitted; and one nobody has filled yet is there for somebody to fill. */
  ghost predicate VarAs(w: World, db: Store, rows: seq<SlotRow>, v: EnvDecl) {
    if !v.secret then SlotRow(v.key, v.value, false) in rows
    else if v.fromGenerated != "" then
      exists text :: GeneratedIs(db, v.fromGenerated, text) && SlotRow(v.key, text, true) in rows
    else if v.value != "" then
      exists text :: Spells(db, w.pieces(v.value), text) && SlotRow(v.key, text, true) in rows
    else if SubmittedAs(w, v.valueFromEnv) then SlotRow(v.key, w.values[v.valueFromEnv], true) in rows
    else HasKey(rows, v.key)
  }

  /** A declared secret file: submitted, generated or composed; nothing is asked of an unfilled one. */
  ghost predicate FileAs(w: World, db: Store, rows: seq<SlotRow>, f: SecretFileDecl) {
    if f.valueFromEnv != "" then
      SubmittedAs(w, f.valueFromEnv) ==> SlotRow(f.name, w.values[f.valueFromEnv], true) in rows
    else if f.fromGenerated != "" then
      exists text :: GeneratedIs(db, f.fromGenerated, text) && SlotRow(f.name, text, true) in rows
    else f.value != "" ==> exists text :: Spells(db, w.pieces(f.value), text) && SlotRow(f.name, text, true) in rows
  }

  /** The last file listed at its path. */
  ghost predicate Has(files: seq<VolFile>, f: VolFile) {
    exists i :: 0 <= i < |files| && files[i] == f && forall k :: i < k < |files| ==> files[k].path != f.path
  }

  ghost predicate FilesAs(has: seq<VolFile>, want: seq<VolFile>) {
    |has| == |want| && forall f :: f in want ==> Has(has, f)
  }

  // ── each kind ───────────────────────────────────────────────────────────────────────

  predicate SSHKeyAs(db: Store, k: SSHKeyDecl) {
    db.SSHKey(k.name).Some? && (k.algo == "" || Lower(db.SSHKey(k.name).value.algo) == Lower(k.algo))
  }

  predicate GitCredAs(db: Store, g: GitCredDecl) {
    db.GitCred(g.name).Some? &&
    var row := db.GitCred(g.name).value;
    && row.kind == g.kind && row.username == Trim(g.username)
    && (g.hostKey == "" || row.hostKey == Trim(g.hostKey))
    && (g.kind == GitSSH ==> db.SSHKey(g.sshKey).Some? && row.sshKey == LinkTo(db.SSHKey(g.sshKey).value.id))
  }

  predicate CAAs(db: Store, ca: CADecl) {
    db.CA(ca.name).Some? &&
    var row := db.CA(ca.name).value;
    && (ca.keyAlgo == "" || row.keyAlgo == ca.keyAlgo)
    && Contains(row.subject, "CN=" + Trim(ca.commonName))
    && row.outboundTrust == (ca.outboundTrust != Some(false))
  }

  /** Where a certificate or webhook lands: nowhere in particular when it is shared. */
  function Landing(w: World, doc: Doc, shared: bool, cluster: string): Option<string> {
    if shared then Some("") else EnvOf(w, Effective(doc, cluster))
  }

  predicate CertAs(w: World, doc: Doc, db: Store, c: CertDecl) {
    var env := Landing(w, doc, c.shared, c.cluster);
    && env.Some? && w.sans(c.sans).Some? && w.usages(c.usages).Some? && db.Cert(env.value, c.name).Some?
    && var row := db.Cert(env.value, c.name).value;
    && row.sans == w.sans(c.sans).value
    && w.usages(c.usages).value in {"", row.usages}
    && c.keyAlgo in {"", row.keyAlgo}
    && c.renewBeforeDays in {0, row.renewBeforeDays}
    && (db.CA(c.ca).None? || row.caID in {NoLink, LinkTo(db.CA(c.ca).value.id)})
  }

  /** A certificate a delivery is to carry: the environment's own of that name, or else the shared. */
  predicate CarriedAs(db: Store, env: string, ref: CertRef, c: Carried) {
    && c.isDefault == ref.isDefault
    && if db.Cert(env, ref.name).Some? then c.certID == db.Cert(env, ref.name).value.id
       else db.Cert("", ref.name).Some? && c.certID == db.Cert("", ref.name).value.id
  }

  ghost predicate CarriesAs(db: Store, env: string, refs: seq<CertRef>, certs: seq<Carried>) {
    |certs| == |refs| && forall i :: 0 <= i < |refs| ==> CarriedAs(db, env, refs[i], certs[i])
  }

  ghost predicate BundleAs(db: Store, names: seq<string>, bundle: seq<nat>) {
    |bundle| == |names| && forall i :: 0 <= i < |names| ==>
      db.CA(names[i]).Some? && bundle[i] == db.CA(names[i]).value.id
  }

  ghost predicate DeliveryAs(w: World, doc: Doc, db: Store, d: DeliveryDecl) {
    var env := EnvOf(w, Effective(doc, d.cluster));
    && env.Some? && w.mount(d.mountPath).Some? && |db.Deliveries(env.value, d.volume)| == 1
    && var row := db.Deliveries(env.value, d.volume)[0];
    && (exists certs :: CarriesAs(db, env.value, d.certs, certs) && multiset(row.certs) == multiset(certs))
    && (exists bundle: seq<nat> :: BundleAs(db, d.bundleCAs, bundle) && multiset(row.bundle) == multiset(bundle))
    && row.mountPath == w.mount(d.mountPath).value && row.restartTargets == Trim(d.restartTargets)
    && (row.uid, row.gid, row.traefik) == (d.uid, d.gid, d.traefik)
  }

  predicate GeneratedAs(db: Store, g: GeneratedDecl) {
    db.Generated(g.name).Some? &&
    var row := db.Generated(g.name).value;
    && row.format == (if g.format == "" then "alphanumeric" else g.format)
    && row.length == if g.length == 0 then 32 else g.length
  }

  predicate WebhookAs(w: World, doc: Doc, db: Store, h: WebhookDecl) {
    var env := Landing(w, doc, h.shared, h.cluster);
    env.Some? && db.Webhook(h.name).Some? && db.Webhook(h.name).value.env == env.value
  }

  ghost predicate StackAs(w: World, doc: Doc, db: Store, st: StackDecl) {
    var env := EnvOf(w, Effective(doc, st.cluster));
    && env.Some? && db.Stack(env.value, st.name).Some?
    && var row := db.Stack(env.value, st.name).value;
    && row.engine == st.engine && SourceAs(db, st.source, row.source)
    && row.autoDeploy == st.autoDeploy && row.watchPaths == st.watchPaths
    && HookAs(db, env.value, st.webhook, st.autoDeploy && st.source.FromGit?, row.webhook)
    && (forall v :: v in st.env ==> VarAs(w, db, row.env, v))
    && (forall f :: f in st.files ==> FileAs(w, db, row.secrets, f))
  }

  /** The file names a delivery with a Traefik fragment has for its own on its volume. */
  ghost predicate Taken(db: Store, env: string, volume: string, path: string) {
    exists i :: 0 <= i < |db.Deliveries(env, volume)| && FirstTraefik(db.Deliveries(env, volume), i)
                && (path in {"tls.yml", "ca-bundle.crt", ".daffa-certs-manifest"}
                    || CertPath(db, db.Deliveries(env, volume)[i], path))
  }

  predicate FirstTraefik(rows: seq<DeliveryRow>, i: nat)
    requires i < |rows|
  {
    rows[i].traefik && forall j :: 0 <= j < i ==> !rows[j].traefik
  }

  ghost predicate CertPath(db: Store, row: DeliveryRow, path: string) {
    exists c, k :: c in row.certs && k in db.rows && db.rows[k].CertIn? && k.kind == CertKind
                   && db.rows[k].cert.id == c.certID
                   && path in {db.rows[k].cert.name + ".crt", db.rows[k].cert.name + ".key"}
  }

  /** No inline file of this volume source is another writer's. */
  ghost predicate Free(w: World, db: Store, env: string, v: VolDecl) {
    v.content.InlineContent? ==>
      forall f :: f in v.content.files ==>
        && !Taken(db, env, v.volume, f.path)
        && !((env, v.volume) in w.fleetOwned && f.path in w.fleetOwned[(env, v.volume)])
  }

  ghost predicate VolAs(w: World, doc: Doc, db: Store, v: VolDecl) {
    var env := EnvOf(w, Effective(doc, v.cluster));
    && env.Some? && db.Vol(env.value, v.volume).Some? && Free(w, db, env.value, v)
    && var row := db.Vol(env.value, v.volume).value;
    && StackLinkAs(db, env.value, v.stack, row.stack)
    && (row.uid, row.gid, row.restartTargets) == (v.uid, v.gid, Trim(v.restartTargets))
    && match v.content
       case GitContent(g) =>
         && GitAs(db, g, row.source) && row.autoSync == v.autoSync
         && HookAs(db, env.value, v.webhook, v.autoSync, row.webhook)
       case InlineContent(files) =>
         && NoGit(row.source) && row.source.inlineYAML == "" && !row.autoSync
         && HookFound(db, env.value, v.webhook) && row.webhook == NoLink && FilesAs(row.files, files)
  }

  /** The store holds what this declaration asks for. */
  ghost predicate Conforms(w: World, doc: Doc, db: Store, x: Item) {
    match x
    case SSHKeyItem(k) => SSHKeyAs(db, k)
    case GitCredItem(g) => GitCredAs(db, g)
    case CAItem(ca) => CAAs(db, ca)
    case CertItem(c) => CertAs(w, doc, db, c)
    case DeliveryItem(d) => DeliveryAs(w, doc, db, d)
    case GeneratedItem(g) => GeneratedAs(db, g)
    case WebhookItem(h) => WebhookAs(w, doc, db, h)
    case StackItem(st) => StackAs(w, doc, db, st)
    case VolItem(v) => VolAs(w, doc, db, v)
  }
}
