/** What tells two declarations apart: validation goes by the cluster as written, the store by the
    cluster they land on. */
module ManifestIdentity {
  import opened Wrappers
  import opened ManifestModel
  import opened ManifestSpec
  import opened ManifestFrame
  import opened ManifestFixpoint

  /** The scope validation compares within. */
  datatype Scope = FleetWide | SharedMark | Written(cluster: string)

  function ScopeOf(x: Item): Scope {
    match x
    case CertItem(c) => if c.shared then SharedMark else Written(c.cluster)
    case DeliveryItem(d) => Written(d.cluster)
    case StackItem(st) => Written(st.cluster)
    case VolItem(v) => Written(v.cluster)
    case _ => FleetWide
  }

  predicate SameName(x: Item, y: Item) { x.Kind() == y.Kind() && x.Name() == y.Name() }

  /** No two declarations of one kind, scope and name. */
  ghost predicate ToldApart(items: seq<Item>) {
    forall i, j :: 0 <= i < j < |items| ==> !(SameName(items[i], items[j]) && ScopeOf(items[i]) == ScopeOf(items[j]))
  }

  /** Two declarations of one kind and name that spell the same environment in two ways. */
  predicate TwoSpellings(w: World, doc: Doc, x: Item, y: Item) {
    && SameName(x, y) && ScopeOf(x).Written? && ScopeOf(y).Written? && ScopeOf(x) != ScopeOf(y)
    && EnvOf(w, Effective(doc, ScopeOf(x).cluster)).Some?
    && EnvOf(w, Effective(doc, ScopeOf(x).cluster)) == EnvOf(w, Effective(doc, ScopeOf(y).cluster))
  }

  ghost predicate RealIDs(w: World) { forall c :: c in w.envs ==> w.envs[c] != "" }

  lemma PlaceIs(w: World, doc: Doc, x: Item)
    ensures Place(w, doc, x) == match ScopeOf(x)
                                case Written(c) => EnvOf(w, Effective(doc, c))
                                case _ => Some("")
  {
  }

  lemma SameRowExactly(w: World, doc: Doc, x: Item, y: Item)
    requires RealIDs(w) && !(SameName(x, y) && ScopeOf(x) == ScopeOf(y))
    ensures KeyOf(w, doc, x).Some? && KeyOf(w, doc, x) == KeyOf(w, doc, y) <==> TwoSpellings(w, doc, x, y)
  {
    PlaceIs(w, doc, x);
    PlaceIs(w, doc, y);
    hide Place, Effective;
    if SameName(x, y) && ScopeOf(x) != ScopeOf(y) {
      assert !ScopeOf(x).FleetWide? && !ScopeOf(y).FleetWide?;
    }
  }

  /** A document that passes validation converges each row once exactly when no two of its
      declarations spell one environment in two ways. */
  lemma IdentifiedExactly(w: World, doc: Doc, items: seq<Item>)
    requires RealIDs(w) && ToldApart(items)
    ensures Identified(w, doc, items) <==>
            forall i, j :: 0 <= i < j < |items| ==> !TwoSpellings(w, doc, items[i], items[j])
  {
    hide KeyOf, TwoSpellings, SameName, ScopeOf;
    forall i, j | 0 <= i < j < |items|
      ensures KeyOf(w, doc, items[i]).Some? && KeyOf(w, doc, items[i]) == KeyOf(w, doc, items[j])
              <==> TwoSpellings(w, doc, items[i], items[j])
    {
      SameRowExactly(w, doc, items[i], items[j]);
    }
  }

  /** Cluster names tell environments apart. */
  ghost predicate Injective(w: World) {
    forall a, b :: a in w.envs && b in w.envs && w.envs[a] == w.envs[b] ==> a == b
  }

  /** The one way left then: a blank cluster, and the document's own spelt out. */
  predicate BlankAndDefault(w: World, doc: Doc, x: Item, y: Item) {
    && SameName(x, y) && doc.cluster != "" && doc.cluster in w.envs
    && (ScopeOf(x), ScopeOf(y)) in {(Written(""), Written(doc.cluster)), (Written(doc.cluster), Written(""))}
  }

  lemma OneWayLeft(w: World, doc: Doc, x: Item, y: Item)
    requires Injective(w)
    ensures TwoSpellings(w, doc, x, y) <==> BlankAndDefault(w, doc, x, y)
  {
    if TwoSpellings(w, doc, x, y) {
      assert Effective(doc, ScopeOf(x).cluster) == Effective(doc, ScopeOf(y).cluster);
    }
  }

  /** Hence, where every cluster has one name, validated documents are identified exactly when none
      declares a resource both without a cluster and on its default cluster by name. */
  lemma DefaultSpeltOut(w: World, doc: Doc, items: seq<Item>)
    requires RealIDs(w) && Injective(w) && ToldApart(items)
    ensures Identified(w, doc, items) <==>
            forall i, j :: 0 <= i < j < |items| ==> !BlankAndDefault(w, doc, items[i], items[j])
  {
    hide TwoSpellings, BlankAndDefault, Identified, Injective, SameName, ScopeOf;
    IdentifiedExactly(w, doc, items);
    forall i, j | 0 <= i < j < |items|
      ensures TwoSpellings(w, doc, items[i], items[j]) <==> BlankAndDefault(w, doc, items[i], items[j])
    {
      OneWayLeft(w, doc, items[i], items[j]);
    }
  }
}
