/**
 * What the callbacks do to the files of the volumes they range over, as pointwise updates.
 * Closures registered in the callback tables are represented by a Rule and the volume they capture.
 */
module Sweeps {
  import opened Text
  import opened Cluster

  /** pkg/csidriver/dpv.go: the persisted fields of a driverVolume that the driver reads. */
  datatype Vol = Vol(
    volID: string,
    anchorDir: string,
    targetPath: Path,
    kind: VolKind,
    shareID: string,
    podNs: string,
    podName: string,
    podUID: string,
    podSA: string,
    refresh: bool)

  type Files = map<Path, Content>

  /** The directory at a path, if there is one. */
  function At(files: Files, path: Path): Option<Content> {
    if path in files then Some(files[path]) else None
  }

  /** What a pod sees at a path: a missing directory shows no keys. */
  function Shown(files: Files, path: Path): Content {
    if path in files then files[path] else map[]
  }

  lemma ShownAt(files: Files, path: Path)
    ensures Shown(files, path) == if At(files, path).Some? then At(files, path).value else map[]
  {
  }

  predicate Allowed(w: World, vol: Vol) {
    Review(vol.kind, vol.shareID, vol.podNs, vol.podSA) in w.allowed
  }

  /** commonRangerProceedFilter: the event's key is the key of the volume's own share. */
  predicate Proceed(w: World, vol: Vol, key: string) {
    vol.kind.Known? &&
    var share := w.GetShare(vol.kind.kind, vol.shareID);
    share.Some? && Key(share.value) == key
  }

  datatype Outcome = Skip | Clear | Put(payload: Content)

  datatype Rule =
    | UpdateRule(kind: Kind)
    | UpsertRule(key: string, payload: Content)
    | DeleteRule(key: string)
    | ShareDeleteRule

  /** What one callback decides for one volume it has matched. */
  function Decide(w: World, rule: Rule, vol: Vol): Outcome {
    match rule
    case UpdateRule(kind) =>
      (match w.GetShare(kind, vol.shareID)
       case None => Skip
       case Some(ref) =>
         match w.Fetch(kind, ref)
         case Found(obj) =>
           if !Allowed(w, vol) then Clear
           else if Proceed(w, vol, Key(ref)) then Put(SharePayload(obj))
           else Skip
         case _ => Skip)
    case UpsertRule(key, payload) => if Proceed(w, vol, key) then Put(payload) else Skip
    case DeleteRule(key) => if Proceed(w, vol, key) then Clear else Skip
    case ShareDeleteRule => if vol.volID != "" && vol.targetPath != "" then Clear else Skip
  }

  /** The effect of an outcome on a directory: emptying needs a directory, an empty payload only makes one. */
  function Settle(outcome: Outcome, dir: Option<Content>): Option<Content> {
    match outcome
    case Skip => dir
    case Clear => if dir.Some? then Some(map[]) else None
    case Put(payload) =>
      if payload != map[] then Some(payload) else if dir.Some? then dir else Some(map[])
  }

  predicate DistinctTargets(vols: map<string, Vol>) {
    forall a, b :: a in vols && b in vols && vols[a].targetPath == vols[b].targetPath ==> a == b
  }

  ghost predicate Targeted(vols: map<string, Vol>, ids: set<string>, path: Path) {
    exists id :: id in ids && id in vols && vols[id].targetPath == path
  }

  ghost function Owner(vols: map<string, Vol>, ids: set<string>, path: Path): (id: string)
    requires Targeted(vols, ids, path)
    ensures id in ids && id in vols && vols[id].targetPath == path
  {
    var id :| id in ids && id in vols && vols[id].targetPath == path;
    id
  }

  /** The directory at a path after a rule has been applied to each of the volumes `ids`. */
  ghost function Swept(w: World, rule: Rule, files: Files, vols: map<string, Vol>, ids: set<string>, path: Path)
    : Option<Content>
  {
    if Targeted(vols, ids, path) && !w.FsFails(path)
    then Settle(Decide(w, rule, vols[Owner(vols, ids, path)]), At(files, path))
    else At(files, path)
  }

  ghost function Touched(vols: map<string, Vol>, ids: set<string>): set<Path> {
    set id | id in ids && id in vols :: vols[id].targetPath
  }

  ghost function Sweep(w: World, rule: Rule, files: Files, vols: map<string, Vol>, ids: set<string>): Files {
    map path | path in files.Keys + Touched(vols, ids) && Swept(w, rule, files, vols, ids, path).Some?
      :: Swept(w, rule, files, vols, ids, path).value
  }

  /** A sweep acts path by path. */
  lemma SweepAt(w: World, rule: Rule, files: Files, vols: map<string, Vol>, ids: set<string>, path: Path)
    ensures At(Sweep(w, rule, files, vols, ids), path) == Swept(w, rule, files, vols, ids, path)
  {
    if Targeted(vols, ids, path) {
      assert vols[Owner(vols, ids, path)].targetPath in Touched(vols, ids);
    }
  }

  lemma SameFiles(a: Files, b: Files)
    requires forall path :: At(a, path) == At(b, path)
    ensures a == b
  {
    forall path ensures path in a <==> path in b {
      assert At(a, path) == At(b, path);
    }
    forall path | path in a ensures a[path] == b[path] {
      assert At(a, path) == At(b, path);
    }
  }

  /** On the target of a swept volume the sweep applies that volume's own decision, and no other's. */
  lemma SweepOwn(w: World, rule: Rule, files: Files, vols: map<string, Vol>, ids: set<string>, id: string)
    requires DistinctTargets(vols) && id in ids && id in vols
    ensures At(Sweep(w, rule, files, vols, ids), vols[id].targetPath) ==
      var path := vols[id].targetPath;
      if w.FsFails(path) then At(files, path) else Settle(Decide(w, rule, vols[id]), At(files, path))
  {
    var path := vols[id].targetPath;
    SweepAt(w, rule, files, vols, ids, path);
    assert Targeted(vols, ids, path);
    assert Owner(vols, ids, path) == id;
  }

  /** A volume that is not swept keeps its files, whatever happens to the swept ones. */
  lemma SweepOther(w: World, rule: Rule, files: Files, vols: map<string, Vol>, ids: set<string>, path: Path)
    requires !Targeted(vols, ids, path)
    ensures At(Sweep(w, rule, files, vols, ids), path) == At(files, path)
  {
    SweepAt(w, rule, files, vols, ids, path);
  }

  /** What the pod sees after an outcome: an emptied volume shows nothing, an empty payload leaves old keys. */
  function ShownAfter(outcome: Outcome, before: Content): Content {
    match outcome
    case Skip => before
    case Clear => map[]
    case Put(payload) => if payload != map[] then payload else before
  }

  /** The same in terms of what the pod of one volume sees. */
  lemma SweepShows(w: World, rule: Rule, files: Files, vols: map<string, Vol>, ids: set<string>, vol: Vol)
    requires DistinctTargets(vols)
    requires forall id :: id in ids && id in vols && vols[id].targetPath == vol.targetPath ==> vols[id] == vol
    ensures Shown(Sweep(w, rule, files, vols, ids), vol.targetPath) ==
      if w.FsFails(vol.targetPath) || !Targeted(vols, ids, vol.targetPath) then Shown(files, vol.targetPath)
      else ShownAfter(Decide(w, rule, vol), Shown(files, vol.targetPath))
  {
    SweepAt(w, rule, files, vols, ids, vol.targetPath);
    hide Sweep, Decide;
    ShownAt(Sweep(w, rule, files, vols, ids), vol.targetPath);
    ShownAt(files, vol.targetPath);
  }

  /** An outcome applied twice is the outcome applied once. */
  lemma SettleTwice(o: Outcome, dir: Option<Content>)
    ensures Settle(o, Settle(o, dir)) == Settle(o, dir)
  {
  }

  /**
   * The law behind every loop of the driver: sweeping A and then B is sweeping A + B.
   * It contains idempotence (A = B), commutation, and independence of the iteration order.
   */
  lemma SweepSweep(w: World, rule: Rule, files: Files, vols: map<string, Vol>, a: set<string>, b: set<string>)
    requires DistinctTargets(vols)
    ensures Sweep(w, rule, Sweep(w, rule, files, vols, a), vols, b) == Sweep(w, rule, files, vols, a + b)
  {
    var mid := Sweep(w, rule, files, vols, a);
    var end := Sweep(w, rule, mid, vols, b);
    forall path ensures At(end, path) == At(Sweep(w, rule, files, vols, a + b), path) {
      SweepAt(w, rule, files, vols, a, path);
      SweepAt(w, rule, mid, vols, b, path);
      SweepAt(w, rule, files, vols, a + b, path);
      SweptTwice(w, rule, files, vols, a, b, path);
    }
    SameFiles(end, Sweep(w, rule, files, vols, a + b));
  }

  lemma SweptTwice(w: World, rule: Rule, files: Files, vols: map<string, Vol>, a: set<string>, b: set<string>, path: Path)
    requires DistinctTargets(vols)
    ensures At(Sweep(w, rule, Sweep(w, rule, files, vols, a), vols, b), path)
         == Swept(w, rule, files, vols, a + b, path)
  {
    SweepAt(w, rule, files, vols, a, path);
    SweepAt(w, rule, Sweep(w, rule, files, vols, a), vols, b, path);
    if Targeted(vols, a, path) {
      var id := Owner(vols, a, path);
      assert id in a + b;
      SettleTwice(Decide(w, rule, vols[id]), At(files, path));
    }
    if Targeted(vols, b, path) {
      var id := Owner(vols, b, path);
      assert id in a + b;
    }
  }

  /** Sweeping nothing changes nothing. */
  lemma SweepNone(w: World, rule: Rule, files: Files, vols: map<string, Vol>)
    ensures Sweep(w, rule, files, vols, {}) == files
  {
    forall path ensures At(Sweep(w, rule, files, vols, {}), path) == At(files, path) {
      SweepAt(w, rule, files, vols, {}, path);
    }
    SameFiles(Sweep(w, rule, files, vols, {}), files);
  }

  /** One outcome applied to one path. */
  function SetDir(w: World, files: Files, path: Path, outcome: Outcome): Files {
    if w.FsFails(path) then files
    else
      match Settle(outcome, At(files, path))
      case None => files
      case Some(dir) => files[path := dir]
  }

  lemma SetDirSkip(w: World, files: Files, path: Path)
    ensures SetDir(w, files, path, Skip) == files
  {
  }

  lemma SetDirTwice(w: World, files: Files, path: Path, o: Outcome)
    ensures SetDir(w, SetDir(w, files, path, o), path, o) == SetDir(w, files, path, o)
  {
    SettleTwice(o, At(files, path));
  }

  /** Sweeping a single volume applies its decision to its target path. */
  lemma SweepSingle(w: World, rule: Rule, files: Files, vols: map<string, Vol>, id: string)
    requires id in vols
    ensures Sweep(w, rule, files, vols, {id}) == SetDir(w, files, vols[id].targetPath, Decide(w, rule, vols[id]))
  {
    var swept := Sweep(w, rule, files, vols, {id});
    var path := vols[id].targetPath;
    var end := SetDir(w, files, path, Decide(w, rule, vols[id]));
    assert Targeted(vols, {id}, path) && Owner(vols, {id}, path) == id;
    forall p ensures At(swept, p) == At(end, p) {
      SweepAt(w, rule, files, vols, {id}, p);
      if p != path {
        assert !Targeted(vols, {id}, p);
      }
    }
    SameFiles(swept, end);
  }

  /** One more volume after a sweep: the loop step of every ranger. */
  lemma SweepStep(w: World, rule: Rule, files: Files, vols: map<string, Vol>, done: set<string>, id: string)
    requires DistinctTargets(vols) && id in vols
    ensures SetDir(w, Sweep(w, rule, files, vols, done), vols[id].targetPath, Decide(w, rule, vols[id]))
      == Sweep(w, rule, files, vols, done + {id})
  {
    hide Sweep, SetDir, Decide;
    SweepSingle(w, rule, Sweep(w, rule, files, vols, done), vols, id);
    SweepSweep(w, rule, files, vols, done, {id});
  }
}
