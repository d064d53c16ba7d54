/** Concrete documents on which planning or reapplying goes wrong, and what an authority whose
    subject does not spell its name out comes to. */
module ManifestLimits {
  import opened Wrappers
  import opened ManifestModel
  import opened Text
  import opened SlotMerge
  import opened Comparisons
  import opened ManifestSpec
  import opened ManifestFrame
  import opened ManifestFixpoint
  import opened ManifestAgreement

  // ── documents on which it goes wrong ────────────────────────────────────────────────

  /** One connected single-node cluster, "prod", and a library that refuses nothing. */
  function SmallWorld(): World {
    World(map["prod" := "e"], {"e"}, {}, {"e"}, map[], map[],
          (cn, org) => "CN=" + cn, ca => false, cert => false, sans => Some(""), usages => Some(""),
          path => Some(path), value => [], n => "t", (base, n) => base + "-x")
  }

  function Pushed(name: string, cluster: string, auto: bool, webhook: string): Item {
    StackItem(StackDecl(name, cluster, "compose", FromGit(GitSource("u", "main", "f", "")), "", auto, webhook, [], []))
  }

  function Waiting(): Item { Pushed("a", "", false, "b") }
  function Taking(): Item { Pushed("b", "", true, "") }

  const EMPTY := Store(map[], 0)

  /** A stack created now, on push, with no webhook of its own and its name free. */
  lemma CreatesItsOwn(w: World, doc: Doc, db: Store, env: string, st: StackDecl)
    requires EnvOf(w, Effective(doc, st.cluster)) == Some(env) && env in w.connected && env in w.single
             && st.engine != "swarm"
    requires db.Stack(env, st.name).None? && HookKey(st.name) !in db.rows
    requires st.webhook == "" && st.autoDeploy && st.source.FromGit? && CredName(st.source) == ""
    ensures var s := EnsureStack(w, doc, true, db, st);
      && s.verdict == Create && !s.failed
      && s.db.Webhook(st.name) == Some(WebhookRow(db.nextID + 1, env, w.mint(db.nextID + 1)))
      && s.db.Stack(env, st.name).Some?
      && forall e, n :: (e, n) != (env, st.name) ==> s.db.Stack(e, n) == db.Stack(e, n)
  {
    hide StackChanges, WantedStack, StackCols, Declares;
    var cluster, cred := Effective(doc, st.cluster), FindCred(doc, true, db, "");
    var row, db' := NewStack(db, st, NoLink), AddStack(db, env, st, NoLink);
    assert db'.Webhook(st.name).None? && FreeName(w, db', st.name, cluster) == st.name;
    assert TargetWebhook(w, true, db', NoLink, row.webhook, true, st.name, env, cluster)
           == Hooked(AddWebhook(db', st.name, env, w.mint(db'.nextID)), LinkTo(db'.nextID), false);
  }

  /** A stack that names a webhook nobody declares: blocked without it, created with it. */
  lemma WaitsForWebhook(w: World, doc: Doc, apply: bool, db: Store, env: string, st: StackDecl)
    requires EnvOf(w, Effective(doc, st.cluster)) == Some(env) && env in w.connected && env in w.single
             && st.engine != "swarm"
    requires st.webhook != "" && !Declares(doc, WebhookKind, st.webhook) && CredName(st.source) == ""
    ensures db.Webhook(st.webhook).None? ==> EnsureStack(w, doc, apply, db, st) == Step(db, Blocked, false)
    ensures db.Webhook(st.webhook).Some? && db.Webhook(st.webhook).value.env == env && db.Stack(env, st.name).None? ==>
      var s := EnsureStack(w, doc, true, db, st); s.verdict == Create && !s.failed && s.db.Stack(env, st.name).Some?
  {
    hide StackChanges, WantedStack, StackCols, Declares;
  }

  /** Applying twice is not enough: a stack blocked on a webhook nobody declares comes to life
      on the second apply, because a later stack's own webhook took that name on the first. */
  lemma SecondApplyCreates()
    ensures var w, doc := SmallWorld(), Doc("prod", [Waiting(), Taking()]);
      var first := Walk(w, doc, true, EMPTY, doc.items);
      var second := Walk(w, doc, true, first.db, doc.items);
      && !first.failed && first.verdicts == [Blocked, Create]
      && second.db != first.db && (!second.failed ==> second.verdicts[0] == Create)
  {
    hide EnsureStack, Declares;
    var w, doc := SmallWorld(), Doc("prod", [Waiting(), Taking()]);
    NoWebhooks(doc);
    var tail := doc.items[1..];
    assert tail == [Taking()] && tail[1..] == [];
    WaitsForWebhook(w, doc, true, EMPTY, "e", Waiting().stack);
    CreatesItsOwn(w, doc, EMPTY, "e", Taking().stack);
    var first := Walk(w, doc, true, EMPTY, doc.items);
    WaitsForWebhook(w, doc, true, first.db, "e", Waiting().stack);
    var s := Ensure(w, doc, true, first.db, Waiting());
    StepTouches(w, doc, true, s.db, Taking());
    assert first.db.Stack("e", "a") == EMPTY.Stack("e", "a");
    assert KeyOf(w, doc, Taking()) == Some(RowKey(StackKind, "e", "b"));
    assert Agree(s.db, Ensure(w, doc, true, s.db, Taking()).db, RowKey(StackKind, "e", "a"));
  }

  lemma NoWebhooks(doc: Doc)
    requires forall x :: x in doc.items ==> x.StackItem?
    ensures forall n :: !Declares(doc, WebhookKind, n)
  {
  }

  /** Nor is planning: with the two stacks the other way round the plan blocks what apply creates. */
  lemma PlanBlocksApplyCreates()
    ensures var w, doc := SmallWorld(), Doc("prod", [Taking(), Waiting()]);
      var p, a := Walk(w, doc, false, EMPTY, doc.items), Walk(w, doc, true, EMPTY, doc.items);
      p.verdicts == [Create, Blocked] && a.verdicts == [Create, Create] && !a.failed
  {
    hide EnsureStack, Declares;
    var w, doc := SmallWorld(), Doc("prod", [Taking(), Waiting()]);
    NoWebhooks(doc);
    PlanReads(w, doc, EMPTY, doc.items);
    PlansToCreate(w, doc, EMPTY, "e", Taking().stack);
    WaitsForWebhook(w, doc, false, EMPTY, "e", Waiting().stack);
    CreatesItsOwn(w, doc, EMPTY, "e", Taking().stack);
    var s := Ensure(w, doc, true, EMPTY, Taking());
    WaitsForWebhook(w, doc, true, s.db, "e", Waiting().stack);
    var tail := doc.items[1..];
    assert tail == [Waiting()] && tail[1..] == [];
  }

  lemma PlansToCreate(w: World, doc: Doc, db: Store, env: string, st: StackDecl)
    requires EnvOf(w, Effective(doc, st.cluster)) == Some(env) && env in w.connected && env in w.single
             && st.engine != "swarm"
    requires db.Stack(env, st.name).None? && st.webhook == "" && CredName(st.source) == ""
    ensures EnsureStack(w, doc, false, db, st).verdict == Create
  {
  }

  /** Validation tells declarations apart by the cluster as written. A stack on the default
      cluster and one that spells the same cluster out pass it, and converge one row. */
  lemma TwiceDeclared()
    ensures var w, doc := SmallWorld(), Doc("prod", [Pushed("a", "", true, ""), Pushed("a", "prod", true, "")]);
      var p, a := Walk(w, doc, false, EMPTY, doc.items), Walk(w, doc, true, EMPTY, doc.items);
      && doc.items[0].stack.cluster != doc.items[1].stack.cluster
      && KeyOf(w, doc, doc.items[0]) == KeyOf(w, doc, doc.items[1])
      && p.verdicts == [Create, Create] && (!a.failed ==> a.verdicts[1] != Create)
  {
    hide EnsureStack, Declares;
    var w, doc := SmallWorld(), Doc("prod", [Pushed("a", "", true, ""), Pushed("a", "prod", true, "")]);
    PlanReads(w, doc, EMPTY, doc.items);
    PlansToCreate(w, doc, EMPTY, "e", doc.items[0].stack);
    PlansToCreate(w, doc, EMPTY, "e", doc.items[1].stack);
    CreatesItsOwn(w, doc, EMPTY, "e", doc.items[0].stack);
    var s := Ensure(w, doc, true, EMPTY, doc.items[0]);
    FoundIsNotCreated(w, doc, s.db, "e", doc.items[1].stack);
    var tail := doc.items[1..];
    assert tail == [doc.items[1]] && tail[1..] == [];
  }

  lemma FoundIsNotCreated(w: World, doc: Doc, db: Store, env: string, st: StackDecl)
    requires EnvOf(w, Effective(doc, st.cluster)) == Some(env) && db.Stack(env, st.name).Some?
    ensures EnsureStack(w, doc, true, db, st).verdict != Create
  {
    hide StackChanges, WantedStack, StackCols, FindCred, NamedWebhook, TargetWebhook;
  }

  // ── a shared certificate covered ────────────────────────────────────────────────────

  function Authority(): CARow { CARow(0, "CN=ca", "ecdsa-p256", true, true) }

  /** A delivery that carries a shared certificate. */
  function SharedInUse(): Store {
    Store(map[RowKey(CAKind, "", "ca") := CAIn(Authority()),
              RowKey(CertKind, "", "c") := CertIn(CertRow(1, "c", LinkTo(0), "", "server", "ecdsa-p256", 30)),
              RowKey(DeliveryKind, "e", "v") :=
                DeliveriesIn([DeliveryRow(2, [Carried(1, false)], "m", 0, 0, false, "", [])])],
          3)
  }

  function Covering(): CertDecl { CertDecl("c", "", false, "ca", ["s"], [], "", 0, 0) }

  function Carrying(): DeliveryDecl { DeliveryDecl("", "v", [CertRef("c", false)], "m", 0, 0, false, "", []) }

  lemma CarriesIt(w: World, doc: Doc, apply: bool, db: Store, id: nat)
    requires w == SmallWorld() && doc.cluster == "prod"
    requires FindCert(db, "e", "c").Some? && FindCert(db, "e", "c").value.id == id
    requires db.Deliveries("e", "v") == SharedInUse().Deliveries("e", "v")
    ensures var s := EnsureDelivery(w, doc, apply, db, Carrying());
      !s.failed && s.verdict == if id == 1 then InSync else Update
  {
    var d := Carrying();
    assert d.certs[1..] == [];
    assert ResolveCerts(doc, apply, db, "e", d.certs) == Resolved([Carried(id, false)], false);
    assert ResolveCAs(doc, apply, db, d.bundleCAs) == Resolved([], false);
    assert Carried(id, false) in multiset([Carried(id, false)]);
    assert Trim("") == "";
    hide ResolveCerts, ResolveCAs, Trim;
  }

  lemma CoversIt(doc: Doc, apply: bool)
    requires doc.cluster == "prod"
    ensures var s := EnsureCert(SmallWorld(), doc, apply, SharedInUse(), Covering());
      && s.verdict == Create && !s.failed
      && (apply ==> s.db.Cert("e", "c").Some? && s.db.Cert("e", "c").value.id == 3)
      && s.db.Deliveries("e", "v") == SharedInUse().Deliveries("e", "v")
  {
    hide Declares;
  }

  /** A document that gives the environment a certificate of the name a delivery there carries as a
      shared one: the plan finds the delivery in sync, apply updates it. */
  lemma CoverSurprises()
    ensures var w, doc := SmallWorld(), Doc("prod", [CertItem(Covering()), DeliveryItem(Carrying())]);
      var p, a := Walk(w, doc, false, SharedInUse(), doc.items), Walk(w, doc, true, SharedInUse(), doc.items);
      p.verdicts == [Create, InSync] && a.verdicts == [Create, Update] && !a.failed
  {
    hide EnsureCert, EnsureDelivery;
    var w, doc := SmallWorld(), Doc("prod", [CertItem(Covering()), DeliveryItem(Carrying())]);
    PlanReads(w, doc, SharedInUse(), doc.items);
    CoversIt(doc, false);
    CoversIt(doc, true);
    CarriesIt(w, doc, false, SharedInUse(), 1);
    CarriesIt(w, doc, true, EnsureCert(w, doc, true, SharedInUse(), Covering()).db, 3);
    var tail := doc.items[1..];
    assert tail == [DeliveryItem(Carrying())] && tail[1..] == [];
  }

  // ── a refusal lifted ────────────────────────────────────────────────────────────────

  /** A delivery that renders tls.yml into its volume. */
  function Rendering(): Store {
    Store(map[RowKey(CAKind, "", "ca") := CAIn(Authority()),
              RowKey(DeliveryKind, "e", "v") := DeliveriesIn([DeliveryRow(1, [], "m", 0, 0, true, "", [0])])], 2)
  }

  function TurnedOff(): DeliveryDecl { DeliveryDecl("", "v", [], "m", 0, 0, false, "", ["ca"]) }

  function OwnFragment(): VolDecl {
    VolDecl("", "v", InlineContent([VolFile("tls.yml", "")]), "", "", 0, 0, false, "")
  }

  lemma TurnsOff(doc: Doc, apply: bool)
    requires doc.cluster == "prod"
    ensures var s := EnsureDelivery(SmallWorld(), doc, apply, Rendering(), TurnedOff());
      && s.verdict == Update && !s.failed
      && (apply ==> var rows := s.db.Deliveries("e", "v"); |rows| == 1 && !rows[0].traefik)
      && s.db.Vol("e", "v").None?
  {
    var d, db := TurnedOff(), Rendering();
    assert d.bundleCAs[1..] == [];
    assert ResolveCerts(doc, apply, db, "e", d.certs) == Resolved([], false);
    assert ResolveCAs(doc, apply, db, d.bundleCAs) == Resolved([0], false);
    hide ResolveCerts, ResolveCAs, Trim;
  }

  lemma FragmentGoes(doc: Doc, db: Store)
    requires doc.cluster == "prod" && |db.Deliveries("e", "v")| == 1 && db.Vol("e", "v").None?
    ensures db.Deliveries("e", "v")[0].traefik ==>
      EnsureVol(SmallWorld(), doc, false, db, OwnFragment()).verdict == Blocked
    ensures !db.Deliveries("e", "v")[0].traefik ==>
      var s := EnsureVol(SmallWorld(), doc, true, db, OwnFragment()); s.verdict == Create && !s.failed
  {
    hide CertFile, Declares, Trim;
    var rows, files := db.Deliveries("e", "v"), VolFiles(OwnFragment());
    assert rows[1..] == [];
    if rows[0].traefik {
      assert TraefikOn(rows) == Some(rows[0]);
      assert DeliveryOwns(db, "e", "v", files[0].path);
    } else {
      assert TraefikOn(rows) == None;
      assert !Refused(SmallWorld(), db, "e", "v", files);
    }
  }

  /** A plan refuses tls.yml on a volume whose delivery renders it, though the document turns that
      off first and apply creates the source. */
  lemma LiftSurprises()
    ensures var w, doc := SmallWorld(), Doc("prod", [DeliveryItem(TurnedOff()), VolItem(OwnFragment())]);
      var p, a := Walk(w, doc, false, Rendering(), doc.items), Walk(w, doc, true, Rendering(), doc.items);
      p.verdicts == [Update, Blocked] && a.verdicts == [Update, Create] && !a.failed
  {
    hide EnsureVol, EnsureDelivery;
    var w, doc := SmallWorld(), Doc("prod", [DeliveryItem(TurnedOff()), VolItem(OwnFragment())]);
    PlanReads(w, doc, Rendering(), doc.items);
    TurnsOff(doc, false);
    TurnsOff(doc, true);
    FragmentGoes(doc, Rendering());
    FragmentGoes(doc, EnsureDelivery(w, doc, true, Rendering(), TurnedOff()).db);
    var tail := doc.items[1..];
    assert tail == [VolItem(OwnFragment())] && tail[1..] == [];
  }

  // ── an authority that does not spell its name out ───────────────────────────────────

  /** An authority that is not there and that nothing refuses is created, and comes to rest in sync
      exactly when its subject line spells its common name out; otherwise it is drifted for good. */
  lemma AuthorityExactly(w: World, doc: Doc, db: Store, ca: CADecl)
    requires db.CA(ca.name).None? && !w.caRefused(ca)
    ensures var s := Ensure(w, doc, true, db, CAItem(ca));
      && s.verdict == Create && !s.failed
      && (Calm(w, doc, s.db, CAItem(ca), InSync) <==> !Unspelt(w, CAItem(ca)))
      && (Calm(w, doc, s.db, CAItem(ca), Drifted) <==> Unspelt(w, CAItem(ca)))
  {
    hide Contains, Trim;
    CASettles(w, db, ca);
  }

  /** The library escapes what separates the parts of a subject line. */
  function Escaping(): World { SmallWorld().(subject := (cn, org) => if cn == "a,b" then "CN=a\\,b" else "CN=" + cn) }

  function Comma(): CADecl { CADecl("ca", "a,b", "", "", 0, None) }

  lemma {:induction false} ContainsAt(s: string, sub: string) returns (k: nat)
    requires Contains(s, sub)
    ensures k + |sub| <= |s| && forall i {:trigger sub[i]} :: 0 <= i < |sub| ==> s[k + i] == sub[i]
  {
    if sub <= s {
      return 0;
    } else {
      k := ContainsAt(s[1..], sub);
      k := k + 1;
    }
  }

  lemma CommaUnspelt()
    ensures Unspelt(Escaping(), CAItem(Comma()))
  {
    var s, sub := "CN=a\\,b", "CN=a,b";
    assert Trim("a,b") == "a,b" by { assert TrimLeft("a,b") == "a,b"; }
    assert Escaping().subject(Trim(Comma().commonName), Trim(Comma().org)) == s
           && "CN=" + Trim(Comma().commonName) == sub;
    hide Trim;
    if Contains(s, sub) {
      assert sub[0] == 'C' && sub[4] == ',';
      var _ := ContainsAt(s, sub);
      assert false;
    }
  }

  /** An authority called "a,b" is created, and every apply from then on reports it drifted. */
  lemma CommaDrifts()
    ensures var w, doc := Escaping(), Doc("prod", [CAItem(Comma())]);
      var first := Walk(w, doc, true, EMPTY, doc.items);
      && first.verdicts == [Create] && !first.failed
      && Walk(w, doc, true, first.db, doc.items) == Outcome(first.db, [Drifted], false)
  {
    var w, doc := Escaping(), Doc("prod", [CAItem(Comma())]);
    CommaUnspelt();
    AuthorityExactly(w, doc, EMPTY, Comma());
    hide Ensure, Unspelt;
    assert doc.items[1..] == [];
  }
}
