/** The manifest document, the stored rows it is reconciled with, and the fixed surroundings
    of one walk (cluster table, connections, submitted values, library verdicts). */
module ManifestModel {
  import opened Wrappers

  /** A foreign key column: empty, the plan-only stand-in for a row that apply will create,
      or the id of a stored row. */
  datatype Link = NoLink | PendingLink | LinkTo(id: nat)

  datatype Verdict = InSync | Create | Update | Blocked | Drifted

  // ── declarations ────────────────────────────────────────────────────────────────

  datatype GitKind = GitToken | GitSSH
  datatype GitSource = GitSource(url: string, ref: string, path: string, credential: string)
  datatype StackSource = FromGit(git: GitSource) | Inline(compose: string)
  datatype VolFile = VolFile(path: string, content: string)
  datatype VolContent = GitContent(git: GitSource) | InlineContent(files: seq<VolFile>)
  datatype CertRef = CertRef(name: string, isDefault: bool)

  /** One stack variable; value, valueFromEnv and fromGenerated are empty when undeclared. */
  datatype EnvDecl = EnvDecl(key: string, secret: bool, value: string, valueFromEnv: string, fromGenerated: string)
  datatype SecretFileDecl = SecretFileDecl(name: string, fromGenerated: string, value: string, valueFromEnv: string)

  datatype SSHKeyDecl = SSHKeyDecl(name: string, algo: string)
  datatype GitCredDecl = GitCredDecl(name: string, kind: GitKind, username: string, tokenFrom: string,
                                     sshKey: string, hostKey: string)
  datatype CADecl = CADecl(name: string, commonName: string, org: string, keyAlgo: string, days: int,
                           outboundTrust: Option<bool>)
  datatype CertDecl = CertDecl(name: string, cluster: string, shared: bool, ca: string, sans: seq<string>,
                               usages: seq<string>, keyAlgo: string, validityDays: int, renewBeforeDays: int)
  datatype DeliveryDecl = DeliveryDecl(cluster: string, volume: string, certs: seq<CertRef>, mountPath: string,
                                       uid: int, gid: int, traefik: bool, restartTargets: string,
                                       bundleCAs: seq<string>)
  datatype GeneratedDecl = GeneratedDecl(name: string, format: string, length: nat)
  datatype WebhookDecl = WebhookDecl(name: string, cluster: string, shared: bool, secretFrom: string)
  datatype StackDecl = StackDecl(name: string, cluster: string, engine: string, source: StackSource,
                                 watchPaths: string, autoDeploy: bool, webhook: string,
                                 env: seq<EnvDecl>, files: seq<SecretFileDecl>)
  datatype VolDecl = VolDecl(cluster: string, volume: string, content: VolContent, stack: string,
                             restartTargets: string, uid: int, gid: int, autoSync: bool, webhook: string)

  /** The kinds modelled, in walk order. */
  datatype Kind =
    SSHKeyKind | GitCredKind | CAKind | CertKind | DeliveryKind | GeneratedKind | WebhookKind | StackKind | VolKind
  {
    function Rank(): nat {
      match this
      case SSHKeyKind => 0
      case GitCredKind => 1
      case CAKind => 2
      case CertKind => 3
      case DeliveryKind => 4
      case GeneratedKind => 5
      case WebhookKind => 6
      case StackKind => 7
      case VolKind => 8
    }
  }

  /** A declared resource of any kind. */
  datatype Item =
    | SSHKeyItem(ssh: SSHKeyDecl)
    | GitCredItem(git: GitCredDecl)
    | CAItem(ca: CADecl)
    | CertItem(cert: CertDecl)
    | DeliveryItem(delivery: DeliveryDecl)
    | GeneratedItem(gen: GeneratedDecl)
    | WebhookItem(webhook: WebhookDecl)
    | StackItem(stack: StackDecl)
    | VolItem(vol: VolDecl)
  {
    function Kind(): Kind {
      match this
      case SSHKeyItem(_) => SSHKeyKind
      case GitCredItem(_) => GitCredKind
      case CAItem(_) => CAKind
      case CertItem(_) => CertKind
      case DeliveryItem(_) => DeliveryKind
      case GeneratedItem(_) => GeneratedKind
      case WebhookItem(_) => WebhookKind
      case StackItem(_) => StackKind
      case VolItem(_) => VolKind
    }

    function Name(): string {
      match this
      case SSHKeyItem(k) => k.name
      case GitCredItem(g) => g.name
      case CAItem(ca) => ca.name
      case CertItem(c) => c.name
      case DeliveryItem(d) => d.volume
      case GeneratedItem(g) => g.name
      case WebhookItem(h) => h.name
      case StackItem(st) => st.name
      case VolItem(v) => v.volume
    }
  }

  /** The default cluster, and every declared resource in the order the walk visits them. */
  datatype Doc = Doc(cluster: string, items: seq<Item>)

  // ── stored rows; sealed columns hold what opening them gives back ────────────────────

  datatype SSHKeyRow = SSHKeyRow(id: nat, algo: string)
  datatype GitCredRow = GitCredRow(id: nat, kind: GitKind, username: string, hostKey: string,
                                   sshKey: Link, token: string)
  datatype CARow = CARow(id: nat, subject: string, keyAlgo: string, outboundTrust: bool, canSign: bool)
  datatype CertRow = CertRow(id: nat, name: string, caID: Link, sans: string, usages: string, keyAlgo: string,
                             renewBeforeDays: int)
  datatype Carried = Carried(certID: nat, isDefault: bool)
  datatype DeliveryRow = DeliveryRow(id: nat, certs: seq<Carried>, mountPath: string, uid: int, gid: int,
                                     traefik: bool, restartTargets: string, bundle: seq<nat>)
  datatype GeneratedRow = GeneratedRow(id: nat, value: string, format: string, length: nat)
  datatype WebhookRow = WebhookRow(id: nat, env: string, secret: string)

  /** A stored stack variable, or a stored secret file (always secret). */
  datatype SlotRow = SlotRow(key: string, value: string, secret: bool)

  /** The source columns a stack and a volume source share. */
  datatype SourceCols = SourceCols(isGit: bool, url: string, ref: string, path: string, cred: Link, inlineYAML: string)

  datatype StackRow = StackRow(id: nat, engine: string, source: SourceCols, autoDeploy: bool, watchPaths: string,
                               webhook: Link, env: seq<SlotRow>, secrets: seq<SlotRow>)
  datatype VolRow = VolRow(id: nat, source: SourceCols, autoSync: bool, uid: int, gid: int, stack: Link,
                           restartTargets: string, webhook: Link, files: seq<VolFile>)

  datatype Row =
    | SSHKeyIn(sshKey: SSHKeyRow)
    | GitCredIn(gitCred: GitCredRow)
    | CAIn(ca: CARow)
    | CertIn(cert: CertRow)
    | DeliveriesIn(deliveries: seq<DeliveryRow>)
    | GeneratedIn(generated: GeneratedRow)
    | WebhookIn(webhook: WebhookRow)
    | StackIn(stack: StackRow)
    | VolIn(vol: VolRow)

  /** The unique key the store enforces for each kind; env is empty for fleet-wide kinds and
      for a shared certificate. */
  datatype RowKey = RowKey(kind: Kind, env: string, name: string)

  /** Every managed row, and the supply of fresh ids. */
  datatype Store = Store(rows: map<RowKey, Row>, nextID: nat) {
    function SSHKey(name: string): Option<SSHKeyRow> {
      var k := RowKey(SSHKeyKind, "", name);
      if k in rows && rows[k].SSHKeyIn? then Some(rows[k].sshKey) else None
    }

    function GitCred(name: string): Option<GitCredRow> {
      var k := RowKey(GitCredKind, "", name);
      if k in rows && rows[k].GitCredIn? then Some(rows[k].gitCred) else None
    }

    function CA(name: string): Option<CARow> {
      var k := RowKey(CAKind, "", name);
      if k in rows && rows[k].CAIn? then Some(rows[k].ca) else None
    }

    function Cert(env: string, name: string): Option<CertRow> {
      var k := RowKey(CertKind, env, name);
      if k in rows && rows[k].CertIn? then Some(rows[k].cert) else None
    }

    function Deliveries(env: string, volume: string): seq<DeliveryRow> {
      var k := RowKey(DeliveryKind, env, volume);
      if k in rows && rows[k].DeliveriesIn? then rows[k].deliveries else []
    }

    function Generated(name: string): Option<GeneratedRow> {
      var k := RowKey(GeneratedKind, "", name);
      if k in rows && rows[k].GeneratedIn? then Some(rows[k].generated) else None
    }

    function Webhook(name: string): Option<WebhookRow> {
      var k := RowKey(WebhookKind, "", name);
      if k in rows && rows[k].WebhookIn? then Some(rows[k].webhook) else None
    }

    function Stack(env: string, name: string): Option<StackRow> {
      var k := RowKey(StackKind, env, name);
      if k in rows && rows[k].StackIn? then Some(rows[k].stack) else None
    }

    function Vol(env: string, volume: string): Option<VolRow> {
      var k := RowKey(VolKind, env, volume);
      if k in rows && rows[k].VolIn? then Some(rows[k].vol) else None
    }

    function Update(k: RowKey, row: Row): Store { Store(rows[k := row], nextID) }

    /** Inserting a row that took the next id. */
    function Insert(k: RowKey, row: Row): Store { Store(rows[k := row], nextID + 1) }
  }

  datatype Piece = Text(text: string) | Reference(name: string)

  /** What a walk can see and cannot change. Library calls that can refuse a declaration are
      fixed verdicts; randomness is a supply indexed by the next id. */
  datatype World = World(
    envs: map<string, string>,                    // cluster name → environment id
    connected: set<string>,
    swarms: set<string>,
    single: set<string>,                          // environments with exactly one node
    values: map<string, string>,                  // the submitter's resolved variables
    fleetOwned: map<(string, string), set<string>>,
    subject: (string, string) -> string,          // (common name, organisation) → subject line
    caRefused: CADecl -> bool,
    issueRefused: CertDecl -> bool,
    sans: seq<string> -> Option<string>,          // normalised and joined, or refused
    usages: seq<string> -> Option<string>,
    mount: string -> Option<string>,              // the cleaned mount path, or refused
    pieces: string -> seq<Piece>,                 // a composed value split at its references
    mint: nat -> string,                          // random material
    suffixed: (string, nat) -> string)            // a base name with a random suffix

  // ── document lookups ────────────────────────────────────────────────────────────

  function Effective(doc: Doc, own: string): string { if own != "" then own else doc.cluster }

  function EnvOf(w: World, cluster: string): Option<string> {
    if cluster in w.envs then Some(w.envs[cluster]) else None
  }

  /** Whether the document declares a resource of this kind and name, on whatever cluster:
      the index behind a plan's pending references. */
  predicate Declares(doc: Doc, kind: Kind, name: string) {
    exists x :: x in doc.items && x.Kind() == kind && x.Name() == name
  }

  /** A submitted value counts only when it is there and not empty. */
  function ValueOf(w: World, variable: string): Option<string> {
    if variable != "" && variable in w.values && w.values[variable] != "" then Some(w.values[variable]) else None
  }
}
