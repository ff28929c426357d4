/**
 * What the driver can observe of the cluster and of its host while it handles one event:
 * the lister caches and the API behind them (pkg/client/listers.go), the answers of the access
 * review (pkg/client/client.go) and which host paths refuse file operations.
 */
module Cluster {
  import opened Text
  import opened Keys

  type Path = string
  type Bytes = seq<bv8>
  type Content = map<string, Bytes>

  datatype Kind = Secret | ConfigMap

  /** driverVolume.SharedDataKind: text that need not name a known kind. */
  datatype VolKind = Known(kind: Kind) | Unknown(text: string)

  datatype Ref = Ref(ns: string, name: string)

  function Key(ref: Ref): string {
    BuildKey(ref.ns, ref.name)
  }

  /** A Secret (bytes = Data, texts = StringData) or a ConfigMap (bytes = BinaryData, texts = Data). */
  datatype Object = Object(bytes: Content, texts: Content)

  /** What the share rangers write: byte entries overlaid by text entries, for both kinds. */
  function SharePayload(obj: Object): Content {
    obj.bytes + obj.texts
  }

  /** What the backing-object callbacks write: they leave out a Secret's StringData. */
  function ObjectPayload(kind: Kind, obj: Object): Content {
    if kind == Secret then obj.bytes else obj.bytes + obj.texts
  }

  /** One kind's shares and backing objects, as cached by the listers and as held by the API. */
  datatype Source = Source(
    listedShares: map<string, Ref>,
    apiShares: map<string, Ref>,
    listedObjects: map<Ref, Object>,
    apiObjects: map<Ref, Object>,
    forbidden: set<Ref>)

  /** A SubjectAccessReview: may this service account use this share? The pod name is not part of it. */
  datatype Review = Review(kind: VolKind, share: string, podNs: string, podSA: string)

  /** What ExecuteSAR reports: a call that fails for another reason than being forbidden has no answer. */
  datatype Answer = Granted | Refused | Unanswered

  /**
   * Apart from the cluster: which host paths are broken, whether the volume-map directory cannot be opened,
   * whether creating, writing or removing a record in it fails, and which record files cannot be opened.
   */
  datatype World = World(
    secrets: Source,
    configMaps: Source,
    allowed: set<Review>,
    unanswered: set<Review>,
    broken: set<Path>,
    mapRootClosed: bool,
    createFails: bool,
    writeFails: bool,
    removeFails: bool,
    unreadable: set<string>,
    refreshResources: bool,
    missingPods: set<(string, string)>)
  {
    function Of(kind: Kind): Source {
      if kind == Secret then secrets else configMaps
    }

    /** GetSharedSecret / GetSharedConfigMap: lister first, API as fallback. */
    function GetShare(kind: Kind, name: string): Option<Ref> {
      var src := Of(kind);
      if name in src.listedShares then Some(src.listedShares[name])
      else if name in src.apiShares then Some(src.apiShares[name])
      else None
    }

    /** ListSharedSecrets / ListSharedConfigMap: the API is asked only when the lister is empty. */
    function ListShares(kind: Kind): map<string, Ref> {
      var src := Of(kind);
      if src.listedShares != map[] then src.listedShares else src.apiShares
    }

    /** GetSecret / GetConfigMap. */
    function Fetch(kind: Kind, ref: Ref): Fetched {
      var src := Of(kind);
      if ref in src.listedObjects then Found(src.listedObjects[ref])
      else if ref in src.forbidden then Forbidden
      else if ref in src.apiObjects then Found(src.apiObjects[ref])
      else Failed
    }

    function Ask(review: Review): Answer {
      if review in allowed then Granted else if review in unanswered then Unanswered else Refused
    }

    /** Every file operation on the path fails; the empty path is never usable. */
    predicate FsFails(path: Path) {
      path == "" || path in broken
    }
  }

  datatype Fetched = Found(obj: Object) | Forbidden | Failed

  /** One kind's tables. */
  function Tables(w: World, kind: Kind): Source {
    match kind
    case Secret => w.secrets
    case ConfigMap => w.configMaps
  }

  /** The object that the tables hold for a reference: the lister's; the API's only if the lister has none and access is not forbidden. */
  predicate Holds(src: Source, ref: Ref, obj: Object) {
    if ref in src.listedObjects then src.listedObjects[ref] == obj
    else ref !in src.forbidden && ref in src.apiObjects && src.apiObjects[ref] == obj
  }

  /** The reference of a share: the lister's, or else the API's. */
  predicate Refers(src: Source, name: string, ref: Ref) {
    if name in src.listedShares then src.listedShares[name] == ref
    else name in src.apiShares && src.apiShares[name] == ref
  }

  /** A fetch finds exactly what the tables hold, is forbidden exactly for an unlisted object of that kind, and fails otherwise. */
  lemma FetchExactly(w: World, kind: Kind, ref: Ref)
    ensures forall obj :: w.Fetch(kind, ref) == Found(obj) <==> Holds(Tables(w, kind), ref, obj)
    ensures w.Fetch(kind, ref) == Forbidden <==>
      ref !in Tables(w, kind).listedObjects && ref in Tables(w, kind).forbidden
    ensures w.Fetch(kind, ref).Found? <==> exists obj :: Holds(Tables(w, kind), ref, obj)
  {
    if w.Fetch(kind, ref).Found? {
      assert Holds(Tables(w, kind), ref, w.Fetch(kind, ref).obj);
    }
  }

  lemma GetShareExactly(w: World, kind: Kind, name: string)
    ensures forall ref :: w.GetShare(kind, name) == Some(ref) <==> Refers(Tables(w, kind), name, ref)
    ensures w.GetShare(kind, name).Some? <==> exists ref :: Refers(Tables(w, kind), name, ref)
  {
    if w.GetShare(kind, name).Some? {
      assert Refers(Tables(w, kind), name, w.GetShare(kind, name).value);
    }
  }

  /** A listing is the lister's if it has any share, and the API's otherwise. */
  lemma ListSharesExactly(w: World, kind: Kind, name: string, ref: Ref)
    ensures name in w.ListShares(kind) && w.ListShares(kind)[name] == ref <==>
      var src := Tables(w, kind);
      if exists other :: other in src.listedShares then name in src.listedShares && src.listedShares[name] == ref
      else name in src.apiShares && src.apiShares[name] == ref
  {
    var src := Tables(w, kind);
    assert src.listedShares == map[] <==> !exists other :: other in src.listedShares;
  }

  /** The contents are the object's entries: its bytes, and its texts, which win where both have a key. */
  predicate IsPayload(obj: Object, c: Content) {
    && c.Keys == obj.bytes.Keys + obj.texts.Keys
    && (forall k :: k in obj.texts ==> c[k] == obj.texts[k])
    && (forall k :: k in obj.bytes && k !in obj.texts ==> c[k] == obj.bytes[k])
  }

  lemma PayloadExactly(obj: Object, c: Content)
    ensures IsPayload(obj, c) <==> c == SharePayload(obj)
    ensures SharePayload(obj) == map[] <==> obj.bytes == map[] && obj.texts == map[]
  {
    if obj.bytes == map[] && obj.texts == map[] {
      assert SharePayload(obj).Keys == {};
    }
    if SharePayload(obj) == map[] {
      assert obj.bytes.Keys <= SharePayload(obj).Keys && obj.texts.Keys <= SharePayload(obj).Keys;
    }
  }

  /** The key of a reference, as text. */
  lemma KeyText(ref: Ref)
    ensures Key(ref) == ref.ns + ":" + ref.name
  {
  }

  /** Listing shows every share a lookup can find, with the same reference. */
  ghost predicate ListersAgree(w: World, kind: Kind) {
    forall name :: w.GetShare(kind, name).Some? ==>
      name in w.ListShares(kind) && w.ListShares(kind)[name] == w.GetShare(kind, name).value
  }

  /** A listed share is always found by a lookup under its name, with the listed reference. */
  lemma ListedIsGettable(w: World, kind: Kind, name: string)
    requires name in w.ListShares(kind)
    ensures w.GetShare(kind, name) == Some(w.ListShares(kind)[name])
  {
    var src := w.Of(kind);
    if src.listedShares == map[] {
      assert name !in src.listedShares;
    }
  }

  /** Lookups and listings agree exactly when the lister is empty or misses no share of the API. */
  lemma ListersAgreeExactly(w: World, kind: Kind)
    ensures ListersAgree(w, kind) <==>
      var src := w.Of(kind);
      src.listedShares == map[] || src.apiShares.Keys <= src.listedShares.Keys
  {
    var src := w.Of(kind);
    if ListersAgree(w, kind) && src.listedShares != map[] {
      forall name | name in src.apiShares ensures name in src.listedShares {
        assert w.GetShare(kind, name).Some?;
      }
    }
    if src.listedShares == map[] {
      assert forall name :: name !in src.listedShares;
    }
  }

  /** ListSharedConfigMap as written: it consults its own lister only if the SharedSecret lister has been set. */
  function ListSharedConfigMap(w: World, secretListerSet: bool): map<string, Ref> {
    var src := w.configMaps;
    if secretListerSet && src.listedShares != map[] then src.listedShares else src.apiShares
  }

  /** That guard makes a difference exactly when the lister it skips holds something else than the API. */
  lemma ListingGuardExactly(w: World, secretListerSet: bool)
    ensures ListSharedConfigMap(w, secretListerSet) == w.ListShares(ConfigMap) <==>
      secretListerSet || w.configMaps.listedShares in {map[], w.configMaps.apiShares}
  {
  }

  /** The two payloads of a backing object agree exactly when it is a ConfigMap or its StringData adds nothing. */
  lemma PayloadsAgreeExactly(kind: Kind, obj: Object)
    ensures SharePayload(obj) == ObjectPayload(kind, obj) <==>
      kind == ConfigMap || forall k :: k in obj.texts ==> k in obj.bytes && obj.bytes[k] == obj.texts[k]
  {
    if kind == Secret {
      if forall k :: k in obj.texts ==> k in obj.bytes && obj.bytes[k] == obj.texts[k] {
        assert SharePayload(obj) == obj.bytes;
      }
      if SharePayload(obj) == obj.bytes {
        forall k | k in obj.texts ensures k in obj.bytes && obj.bytes[k] == obj.texts[k] {
          assert k in SharePayload(obj) && SharePayload(obj)[k] == obj.texts[k];
        }
      }
    }
  }
}
