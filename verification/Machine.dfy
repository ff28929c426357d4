/**
 * The driver as a state machine: the table of volumes, the eight callback tables, the files of the
 * target paths, the volume records on disk and the mounts, and what each call and event does to them.
 */
module Machine {
  import opened Text
  import opened Cluster
  import opened Reservations
  import opened Sweeps
  import opened Requests

  /** One kind's four callback tables, keyed by volume id; upserts and deletes capture a volume. */
  datatype Callbacks<T> = Callbacks(
    upserts: map<string, T>,
    deletes: map<string, T>,
    shareUpdates: set<string>,
    shareDeletes: set<string>)

  /** A file of the volume-map directory: a decodable record or something else. */
  datatype Record = Record(vol: Vol) | Garbage

  datatype State = State(
    volumes: map<string, Vol>,
    secret: Callbacks<Vol>,
    configMap: Callbacks<Vol>,
    files: Files,
    disk: map<string, Record>,
    mounts: map<Path, string>)
  {
    function Of(kind: Kind): Callbacks<Vol> {
      if kind == Secret then secret else configMap
    }

    function With(kind: Kind, cbs: Callbacks<Vol>): State {
      if kind == Secret then this.(secret := cbs) else this.(configMap := cbs)
    }
  }

  /* ------------------------------------------------------------------ share and object events */

  /** Unregistering the backing-object callbacks of some volumes. */
  function Dropped<T>(cbs: Callbacks<T>, ids: set<string>): Callbacks<T> {
    cbs.(upserts := cbs.upserts - ids, deletes := cbs.deletes - ids)
  }

  /** The volumes among ids whose access review is denied while their share's object can be fetched. */
  ghost function Denied(w: World, kind: Kind, vols: map<string, Vol>, ids: set<string>): set<string> {
    set id | id in ids && id in vols && Decide(w, UpdateRule(kind), vols[id]).Clear?
  }

  /** innerShareUpdateRanger applied to each of the matched volumes ids. */
  ghost function Pass(w: World, kind: Kind, st: State, ids: set<string>): State {
    var denied := Denied(w, kind, st.volumes, ids);
    st.(files := Sweep(w, UpdateRule(kind), st.files, st.volumes, ids),
        secret := Dropped(st.secret, denied),
        configMap := Dropped(st.configMap, denied))
  }

  /** The volumes a share ranger matches: by share name, whatever their kind. */
  ghost function Naming(vols: map<string, Vol>, names: set<string>): set<string> {
    set id | id in vols && vols[id].volID == id && vols[id].shareID in names
  }

  /** A share event sent through every registered share-update callback. */
  ghost function FanOut(w: World, kind: Kind, st: State, names: set<string>): State {
    if st.Of(kind).shareUpdates == {} then st
    else Pass(w, kind, st, Naming(st.volumes, names))
  }

  /** AddSharedSecret / AddSharedConfigMap, to which the updates delegate. */
  ghost function AddShare(w: World, kind: Kind, name: string, ref: Ref, st: State): State {
    if w.Fetch(kind, ref).Found? then FanOut(w, kind, st, {name}) else st
  }

  /** DelSharedSecret / DelSharedConfigMap. */
  ghost function DeleteShare(w: World, kind: Kind, name: string, st: State): State {
    if st.Of(kind).shareDeletes == {} then st
    else st.(files := Sweep(w, ShareDeleteRule, st.files, st.volumes, Naming(st.volumes, {name})))
  }

  /** The listed shares that point at an object. */
  ghost function Referring(w: World, kind: Kind, ref: Ref): set<string> {
    set name | name in w.ListShares(kind) && w.ListShares(kind)[name] == ref
  }

  /** Second phase of an upsert: every backing-object callback, with no access review. */
  ghost function CallUpserts(w: World, kind: Kind, ref: Ref, obj: Object, st: State): State {
    var cbs := st.Of(kind).upserts;
    st.(files := Sweep(w, UpsertRule(Key(ref), ObjectPayload(kind, obj)), st.files, cbs, cbs.Keys))
  }

  /** UpsertSecret / UpsertConfigMap: first the shares that refer to the object, then the object's callbacks. */
  ghost function UpsertObject(w: World, kind: Kind, ref: Ref, obj: Object, st: State): State {
    CallUpserts(w, kind, ref, obj, FanOut(w, kind, st, Referring(w, kind, ref)))
  }

  /** DelSecret / DelConfigMap. */
  ghost function DeleteObject(w: World, kind: Kind, ref: Ref, st: State): State {
    var cbs := st.Of(kind).deletes;
    st.(files := Sweep(w, DeleteRule(Key(ref)), st.files, cbs, cbs.Keys))
  }

  /* ------------------------------------------------------------------ mapping a volume */

  /** mapBackingResourceToPod: writes the payload, then registers the object callbacks. */
  ghost function MapBacking(w: World, vol: Vol, st: State): (Code, State) {
    match vol.kind
    case Unknown(_) => (Internal, st)
    case Known(kind) =>
      match w.GetShare(kind, vol.shareID)
      case None => (if kind == ConfigMap then OK else Panic, st)
      case Some(ref) =>
        match w.Fetch(kind, ref)
        case Forbidden => (PermissionDenied, st)
        case Failed => (Internal, st)
        case Found(obj) =>
          if w.FsFails(vol.targetPath) then (Internal, st)
          else (OK, Mapped(w, kind, ref, obj, vol, st))
  }

  ghost function Mapped(w: World, kind: Kind, ref: Ref, obj: Object, vol: Vol, st: State): State {
    var cbs := st.Of(kind);
    var own := map[vol.volID := vol];
    st.(files := Sweep(w, UpsertRule(Key(ref), ObjectPayload(kind, obj)), st.files, own, {vol.volID}))
      .With(kind, cbs.(
        upserts := if vol.refresh && w.refreshResources then cbs.upserts[vol.volID := vol] else cbs.upserts,
        deletes := cbs.deletes[vol.volID := vol]))
  }

  /** registerRangers: registering the update callback also runs it once. */
  ghost function RegisterRangers(w: World, vol: Vol, st: State): State {
    match vol.kind
    case Unknown(_) => st
    case Known(kind) =>
      var cbs := st.Of(kind);
      var st1 := st.With(kind, cbs.(
        shareUpdates := cbs.shareUpdates + {vol.volID}, shareDeletes := cbs.shareDeletes + {vol.volID}));
      if w.GetShare(kind, vol.shareID).Some?
      then Pass(w, kind, st1, Naming(st1.volumes, {vol.shareID}))
      else st1
  }

  /** mapVolumeToPod. */
  ghost function MapVolume(w: World, vol: Vol, st: State): (Code, State) {
    var (code, st1) := MapBacking(w, vol, st);
    if code != OK then (code, st1) else (OK, RegisterRangers(w, vol, st1))
  }

  /* ------------------------------------------------------------------ kubelet calls */

  datatype Creation = Created(vol: Vol, volumes: map<string, Vol>) | NotCreated

  /** createVolume. */
  function CreateVolume(w: World, req: Request, cm: Option<Share>, sec: Option<Share>, volumes: map<string, Vol>): Creation {
    if cm.Some? && sec.Some? then NotCreated
    else if cm.None? && sec.None? then NotCreated
    else if req.volumeId in volumes then Created(volumes[req.volumeId], volumes)
    else if w.FsFails(MountID(req)) then NotCreated
    else
      var vol := if cm.Some? then NewVol(req, ConfigMap, cm.value.name) else NewVol(req, Secret, sec.value.name);
      Created(vol, volumes[req.volumeId := vol])
  }

  /** NodePublishVolume. */
  ghost function Publish(w: World, rn: ReservedNames, req: Request, st: State): (Code, State) {
    match Validate(w, rn, req)
    case Rejected(code) => (code, st)
    case Passed(cm, sec) =>
      match CreateVolume(w, req, cm, sec, st.volumes)
      case NotCreated => (Internal, st)
      case Created(vol, volumes) => Attach(w, req, vol, st.(volumes := volumes))
  }

  /** The rest of NodePublishVolume, once the volume is in the table. */
  ghost function Attach(w: World, req: Request, vol: Vol, st: State): (Code, State) {
    if w.FsFails(req.targetPath) then (Internal, st)
    else if req.targetPath in st.mounts then (OK, st)
    else
      var (code, st1) := MapVolume(w, vol, MountFresh(req, st));
      if code == Panic then (Panic, st1)
      else if code != OK then (Internal, st1)
      else StoreRecord(w, vol, st1)
  }

  /** StoreToDisk: no error and no record when the directory cannot be opened; a failed write leaves a truncated file. */
  function StoreRecord(w: World, vol: Vol, st: State): (Code, State) {
    if w.mapRootClosed then (OK, st)
    else if w.createFails then (Internal, st)
    else if w.writeFails then (Internal, st.(disk := st.disk[vol.volID := Garbage]))
    else (OK, st.(disk := st.disk[vol.volID := Record(vol)]))
  }

  /** makeFSMounts: a fresh tmpfs hides whatever was at the target. */
  function MountFresh(req: Request, st: State): State {
    st.(mounts := st.mounts[req.targetPath := MountID(req)], files := st.files[req.targetPath := map[]])
  }

  /** Unmounting by identifier; what the tmpfs held is gone. */
  function Unmounted(st: State, ids: set<string>): State {
    var targets := set path | path in st.mounts && st.mounts[path] in ids;
    st.(mounts := st.mounts - targets, files := st.files - targets)
  }

  /** deleteVolume. The share-update tables keep their entry: their unregister functions clear the upsert tables. */
  function DeleteVolume(w: World, id: string, st: State): State {
    var st1 :=
      if id !in st.volumes then st
      else
        var path := st.volumes[id].targetPath;
        st.(volumes := st.volumes - {id}, files := if w.FsFails(path) then st.files else st.files - {path});
    st1.(secret := Dropped(st1.secret, {id}).(shareDeletes := st1.secret.shareDeletes - {id}),
         configMap := Dropped(st1.configMap, {id}).(shareDeletes := st1.configMap.shareDeletes - {id}))
  }

  /** NodeUnpublishVolume. */
  function Unpublish(w: World, id: string, target: Path, st: State): (Code, State) {
    if id == "" || target == "" then (InvalidArgument, st)
    else if id !in st.volumes then (Internal, st)
    else
      var vol := st.volumes[id];
      if vol.anchorDir !in st.mounts.Values then (Internal, st)
      else
        var st1 := DeleteVolume(w, id, Unmounted(st, {vol.anchorDir}));
        if w.removeFails || vol.volID !in st1.disk then (Internal, st1)
        else (OK, st1.(disk := st1.disk - {vol.volID}))
  }

  /* ------------------------------------------------------------------ restart and pruning */

  const NO_CALLBACKS: Callbacks<Vol> := Callbacks(map[], map[], {}, {})

  /** A record that loadVolsFromDisk keeps: decodable and filed under its own volume id. */
  predicate Loadable(disk: map<string, Record>, name: string) {
    name in disk && disk[name].Record? && disk[name].vol.volID == name
  }

  /** loadVolsFromDisk over the files in walk order; each volume's rangers run as it is registered. */
  ghost function Load(w: World, st: State, names: seq<string>): State {
    if names == [] then st
    else
      var st1 := Load(w, st, names[..|names| - 1]);
      var name := names[|names| - 1];
      if !Loadable(st.disk, name) then st1
      else
        var vol := st.disk[name].vol;
        RegisterRangers(w, vol, st1.(volumes := st1.volumes[vol.volID := vol]))
  }

  /** A new driver process: files, mounts and disk survive, every table starts empty. */
  ghost function Restart(w: World, st: State, names: seq<string>): State {
    Load(w, st.(volumes := map[], secret := NO_CALLBACKS, configMap := NO_CALLBACKS), names)
  }

  /** The records Prune removes: decodable, whose pod lookup says NotFound. */
  function Orphans(w: World, disk: map<string, Record>): set<string> {
    set name | name in disk && disk[name].Record? && (disk[name].vol.podNs, disk[name].vol.podName) in w.missingPods
  }

  /** Logging that a record cannot be opened dereferences the wrong error, which is nil. */
  predicate PrunePanics(w: World, disk: map<string, Record>) {
    !w.mapRootClosed && exists name :: name in disk && name in w.unreadable
  }

  /** Prune. A panic comes while it still collects, before anything is removed. */
  function Prune(w: World, st: State): State {
    if w.mapRootClosed || PrunePanics(w, st.disk) || w.removeFails then st
    else
      var orphans := Orphans(w, st.disk);
      var anchors := set name | name in orphans && name in st.disk && st.disk[name].Record? :: st.disk[name].vol.anchorDir;
      Unmounted(st, anchors).(disk := st.disk - orphans)
  }

  /** A decodable record of a pod that does not exist. */
  predicate Orphaned(w: World, disk: map<string, Record>, name: string) {
    name in disk && disk[name].Record? && (disk[name].vol.podNs, disk[name].vol.podName) in w.missingPods
  }

  /** The directory and every record in it can be opened, and records can be removed. */
  predicate Prunable(w: World, disk: map<string, Record>) {
    !w.mapRootClosed && !w.removeFails && forall name :: name in disk ==> name !in w.unreadable
  }

  /** Some orphaned record has this mount identifier. */
  ghost predicate OrphanMount(w: World, disk: map<string, Record>, anchor: string) {
    exists name :: Orphaned(w, disk, name) && disk[name].vol.anchorDir == anchor
  }

  /**
   * What a prune makes of records, mounts and files: exactly the orphaned records go, exactly what was mounted
   * under an identifier of theirs is unmounted, with its files, and everything else stays.
   */
  ghost predicate PruneOutcome(w: World, disk: map<string, Record>, mounts: map<Path, string>, files: Files,
                               disk': map<string, Record>, mounts': map<Path, string>, files': Files) {
    if Prunable(w, disk) then
      && (forall name :: name in disk' <==> name in disk && !Orphaned(w, disk, name))
      && (forall name :: name in disk' ==> disk'[name] == disk[name])
      && (forall path :: path in mounts' <==> path in mounts && !OrphanMount(w, disk, mounts[path]))
      && (forall path :: path in mounts' ==> mounts'[path] == mounts[path])
      && (forall path :: path in mounts && OrphanMount(w, disk, mounts[path]) ==> At(files', path) == None)
      && (forall path :: !(path in mounts && OrphanMount(w, disk, mounts[path])) ==> At(files', path) == At(files, path))
    else disk' == disk && mounts' == mounts && files' == files
  }

  lemma PruneExactly(w: World, st: State)
    ensures var st1 := Prune(w, st); PruneOutcome(w, st.disk, st.mounts, st.files, st1.disk, st1.mounts, st1.files)
    ensures var st1 := Prune(w, st); st1 == st.(disk := st1.disk, mounts := st1.mounts, files := st1.files)
  {
    hide Unmounted;
    var orphans := Orphans(w, st.disk);
    var anchors := set name | name in orphans && name in st.disk && st.disk[name].Record? :: st.disk[name].vol.anchorDir;
    assert Prunable(w, st.disk) ==> Prune(w, st) == Unmounted(st, anchors).(disk := st.disk - orphans);
    assert !Prunable(w, st.disk) ==> Prune(w, st) == st;
    AnchorsExactly(w, st.disk);
    UnmountedExactly(st, anchors);
    hide OrphanMount, Orphaned, Orphans, Prune, Prunable;
  }

  lemma AnchorsExactly(w: World, disk: map<string, Record>)
    ensures forall name :: name in Orphans(w, disk) <==> Orphaned(w, disk, name)
    ensures
      var anchors := set name | name in Orphans(w, disk) && name in disk && disk[name].Record? :: disk[name].vol.anchorDir;
      forall anchor :: anchor in anchors <==> OrphanMount(w, disk, anchor)
  {
  }

  lemma UnmountedExactly(st: State, ids: set<string>)
    ensures
      var st1 := Unmounted(st, ids);
      && st1 == st.(mounts := st1.mounts, files := st1.files)
      && (forall path :: path in st1.mounts <==> path in st.mounts && st.mounts[path] !in ids)
      && (forall path :: path in st1.mounts ==> st1.mounts[path] == st.mounts[path])
      && (forall path :: path in st.mounts && st.mounts[path] in ids ==> At(st1.files, path) == None)
      && (forall path :: !(path in st.mounts && st.mounts[path] in ids) ==> At(st1.files, path) == At(st.files, path))
  {
  }

  /* ------------------------------------------------------------------ runs */

  datatype Step =
    | PublishStep(req: Request)
    | UnpublishStep(id: string, target: Path)
    | ShareUpsert(kind: Kind, name: string, ref: Ref)
    | ShareDelete(kind: Kind, name: string)
    | ObjectUpsert(kind: Kind, ref: Ref, obj: Object)
    | ObjectDelete(kind: Kind, ref: Ref)
    | RestartStep(names: seq<string>)
    | PruneStep

  /** One event together with what the driver observes while handling it. */
  datatype Event = Event(w: World, step: Step)

  ghost function Next(rn: ReservedNames, e: Event, st: State): State {
    match e.step
    case PublishStep(req) => Publish(e.w, rn, req, st).1
    case UnpublishStep(id, target) => Unpublish(e.w, id, target, st).1
    case ShareUpsert(kind, name, ref) => AddShare(e.w, kind, name, ref, st)
    case ShareDelete(kind, name) => DeleteShare(e.w, kind, name, st)
    case ObjectUpsert(kind, ref, obj) => UpsertObject(e.w, kind, ref, obj, st)
    case ObjectDelete(kind, ref) => DeleteObject(e.w, kind, ref, st)
    case RestartStep(names) => Restart(e.w, st, names)
    case PruneStep => Prune(e.w, st)
  }

  /** The state after a whole run. */
  ghost function Run(rn: ReservedNames, trace: seq<Event>, st: State): State {
    if trace == [] then st
    else Next(rn, trace[|trace| - 1], Run(rn, trace[..|trace| - 1], st))
  }
}
