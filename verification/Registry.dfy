/** The invariant that ties the callback tables, the disk and the mounts to the table of volumes. */
module Registry {
  import opened Cluster
  import opened Reservations
  import opened Sweeps
  import opened Requests
  import opened Machine

  /**
   * What the kubelet guarantees over a whole run: a volume id always arrives with the same volume, and
   * different ids have different target paths. The plan assigns each id its volume.
   */
  type Plan = map<string, Vol>

  predicate PlanOK(plan: Plan) {
    DistinctTargets(plan) && forall id :: id in plan ==> plan[id].volID == id
  }

  /** Every id of a backing-object or share-delete table is a volume of the kind, which is the captured one. */
  ghost predicate Captured(volumes: map<string, Vol>, kind: Kind, cbs: Callbacks<Vol>) {
    && (forall id :: id in cbs.upserts ==> id in volumes && volumes[id].kind == Known(kind) && cbs.upserts[id] == volumes[id])
    && (forall id :: id in cbs.deletes ==> id in volumes && volumes[id].kind == Known(kind) && cbs.deletes[id] == volumes[id])
    && (forall id :: id in cbs.shareDeletes ==> id in volumes && volumes[id].kind == Known(kind))
  }

  /** Every id of a backing-object table is also in the kind's share-update table. */
  ghost predicate Covered(cbs: Callbacks<Vol>) {
    cbs.upserts.Keys <= cbs.shareUpdates && cbs.deletes.Keys <= cbs.shareUpdates
  }

  ghost predicate Registered(volumes: map<string, Vol>, kind: Kind, cbs: Callbacks<Vol>) {
    Captured(volumes, kind, cbs) && Covered(cbs)
  }

  ghost predicate VolumesFit(plan: Plan, volumes: map<string, Vol>) {
    forall id :: id in volumes ==> id in plan && volumes[id] == plan[id]
  }

  ghost predicate DiskFits(plan: Plan, disk: map<string, Record>) {
    forall name :: Loadable(disk, name) ==> name in plan && disk[name].vol == plan[name]
  }

  ghost predicate MountsFit(plan: Plan, mounts: map<Path, string>) {
    forall id :: id in plan && plan[id].targetPath in mounts ==> mounts[plan[id].targetPath] == plan[id].anchorDir
  }

  ghost predicate Sound(plan: Plan, st: State) {
    && PlanOK(plan)
    && VolumesFit(plan, st.volumes)
    && Registered(st.volumes, Secret, st.secret)
    && Registered(st.volumes, ConfigMap, st.configMap)
    && DiskFits(plan, st.disk)
    && MountsFit(plan, st.mounts)
  }

  /** The event keeps the kubelet's guarantee: an acceptable publish request is for the planned volume. */
  ghost predicate Fits(plan: Plan, rn: ReservedNames, e: Event) {
    e.step.PublishStep? && Validate(e.w, rn, e.step.req).Passed? ==>
      var req := e.step.req;
      req.volumeId in plan && forall kind, share :: Accepts(e.w, rn, req.context, kind, share) ==>
        NewVol(req, kind, share.name) == plan[req.volumeId]
  }

  lemma SoundTargets(plan: Plan, st: State)
    requires Sound(plan, st)
    ensures DistinctTargets(st.volumes)
    ensures forall k: Kind :: DistinctTargets(st.Of(k).upserts) && DistinctTargets(st.Of(k).deletes)
  {
    forall k: Kind ensures DistinctTargets(st.Of(k).upserts) && DistinctTargets(st.Of(k).deletes) {
      assert Registered(st.volumes, k, st.Of(k));
    }
  }

  lemma FilesSound(plan: Plan, st: State, st1: State)
    requires Sound(plan, st) && st1 == st.(files := st1.files)
    ensures Sound(plan, st1)
  {
  }

  lemma PassSound(plan: Plan, w: World, kind: Kind, st: State, ids: set<string>)
    requires Sound(plan, st)
    ensures Sound(plan, Pass(w, kind, st, ids))
  {
  }

  /** The object callbacks a mapping may store for a volume. */
  ghost predicate Stored(cbs: Callbacks<Vol>, cbs': Callbacks<Vol>, vol: Vol) {
    && (cbs'.upserts == cbs.upserts || cbs'.upserts == cbs.upserts[vol.volID := vol])
    && (cbs'.deletes == cbs.deletes || cbs'.deletes == cbs.deletes[vol.volID := vol])
    && cbs'.shareUpdates == cbs.shareUpdates && cbs'.shareDeletes == cbs.shareDeletes
  }

  /** The callback tables after registerRangers has stored the share callbacks of a volume. */
  ghost function Ranged(vol: Vol, kind: Kind, st: State): State {
    var cbs := st.Of(kind);
    st.With(kind, cbs.(shareUpdates := cbs.shareUpdates + {vol.volID}, shareDeletes := cbs.shareDeletes + {vol.volID}))
  }

  /** The same with the share-update callback alone. */
  ghost function RangedUpdates(vol: Vol, kind: Kind, st: State): State {
    st.With(kind, st.Of(kind).(shareUpdates := st.Of(kind).shareUpdates + {vol.volID}))
  }

  /** Storing a volume's object callbacks, then its share callbacks, keeps the tables registered. */
  lemma StoreRegistered(volumes: map<string, Vol>, kind: Kind, cbs: Callbacks<Vol>, vol: Vol, cbs': Callbacks<Vol>)
    requires Registered(volumes, kind, cbs) && vol.kind == Known(kind)
    requires vol.volID in volumes && volumes[vol.volID] == vol
    requires Stored(cbs, cbs', vol)
    ensures Registered(volumes, kind,
      cbs'.(shareUpdates := cbs'.shareUpdates + {vol.volID}, shareDeletes := cbs'.shareDeletes + {vol.volID}))
  {
  }

  /** mapBackingResourceToPod changes nothing when it fails, and only files and the kind's object callbacks otherwise. */
  lemma MapBackingFrame(w: World, vol: Vol, st: State)
    ensures
      var (code, st1) := MapBacking(w, vol, st);
      && (code != OK ==> st1 == st)
      && st1.volumes == st.volumes && st1.disk == st.disk && st1.mounts == st.mounts
      && (vol.kind.Known? ==>
        Stored(st.Of(vol.kind.kind), st1.Of(vol.kind.kind), vol)
        && st1.Of(OtherKind(vol.kind.kind)) == st.Of(OtherKind(vol.kind.kind)))
  {
    if vol.kind.Known? {
      var kind := vol.kind.kind;
      var share := w.GetShare(kind, vol.shareID);
      if share.Some? && w.Fetch(kind, share.value).Found? {
        MappedFrame(w, kind, share.value, w.Fetch(kind, share.value).obj, vol, st);
      }
    }
  }

  lemma MappedFrame(w: World, kind: Kind, ref: Ref, obj: Object, vol: Vol, st: State)
    ensures
      var st1 := Mapped(w, kind, ref, obj, vol, st);
      && st1.volumes == st.volumes && st1.disk == st.disk && st1.mounts == st.mounts
      && Stored(st.Of(kind), st1.Of(kind), vol) && st1.Of(OtherKind(kind)) == st.Of(OtherKind(kind))
  {
  }

  lemma RangedSound(plan: Plan, vol: Vol, kind: Kind, st: State, st1: State)
    requires Sound(plan, st) && vol.volID in st.volumes && vol == st.volumes[vol.volID] && vol.kind == Known(kind)
    requires st1.volumes == st.volumes && st1.disk == st.disk && st1.mounts == st.mounts
    requires Stored(st.Of(kind), st1.Of(kind), vol) && st1.Of(OtherKind(kind)) == st.Of(OtherKind(kind))
    ensures Sound(plan, Ranged(vol, kind, st1))
  {
    StoreRegistered(st.volumes, kind, st.Of(kind), vol, st1.Of(kind));
    assert Registered(st.volumes, OtherKind(kind), st.Of(OtherKind(kind)));
  }

  lemma FewerDeletes(volumes: map<string, Vol>, kind: Kind, cbs: Callbacks<Vol>, id: string)
    requires Registered(volumes, kind, cbs.(shareDeletes := cbs.shareDeletes + {id}))
    ensures Registered(volumes, kind, cbs)
  {
  }

  lemma RangedUpdatesSound(plan: Plan, vol: Vol, kind: Kind, st: State)
    requires Sound(plan, Ranged(vol, kind, st))
    ensures Sound(plan, RangedUpdates(vol, kind, st))
  {
    hide Registered, PlanOK, VolumesFit, DiskFits, MountsFit;
    var full, part := Ranged(vol, kind, st), RangedUpdates(vol, kind, st);
    assert full.Of(kind) == part.Of(kind).(shareDeletes := part.Of(kind).shareDeletes + {vol.volID});
    FewerDeletes(st.volumes, kind, part.Of(kind), vol.volID);
  }

  lemma RegisterRangersSound(plan: Plan, w: World, vol: Vol, st: State, st1: State)
    requires Sound(plan, st) && vol.volID in st.volumes && vol == st.volumes[vol.volID]
    requires st1.volumes == st.volumes && st1.disk == st.disk && st1.mounts == st.mounts
    requires vol.kind.Known? ==>
      Stored(st.Of(vol.kind.kind), st1.Of(vol.kind.kind), vol)
      && st1.Of(OtherKind(vol.kind.kind)) == st.Of(OtherKind(vol.kind.kind))
    requires vol.kind.Unknown? ==> Sound(plan, st1)
    ensures Sound(plan, RegisterRangers(w, vol, st1))
    ensures RegisterRangers(w, vol, st1).disk == st1.disk
  {
    if vol.kind.Known? {
      var kind := vol.kind.kind;
      RangedSound(plan, vol, kind, st, st1);
      var st2 := Ranged(vol, kind, st1);
      PassSound(plan, w, kind, st2, Naming(st2.volumes, {vol.shareID}));
    }
  }

  lemma MountSound(plan: Plan, req: Request, vol: Vol, st: State)
    requires Sound(plan, st) && vol.volID in st.volumes && vol == st.volumes[vol.volID]
    requires vol.targetPath == req.targetPath && vol.anchorDir == MountID(req)
    ensures Sound(plan, MountFresh(req, st))
  {
  }

  lemma StoreSound(plan: Plan, w: World, vol: Vol, st: State)
    requires Sound(plan, st) && vol.volID in plan && vol == plan[vol.volID]
    ensures Sound(plan, StoreRecord(w, vol, st).1)
  {
  }

  lemma MapVolumeSound(plan: Plan, w: World, vol: Vol, st: State)
    requires Sound(plan, st) && vol.volID in st.volumes && vol == st.volumes[vol.volID]
    ensures Sound(plan, MapVolume(w, vol, st).1)
    ensures MapVolume(w, vol, st).0 == OK ==> vol.kind.Known?
  {
    MapBackingFrame(w, vol, st);
    var (code, st1) := MapBacking(w, vol, st);
    if code == OK {
      RegisterRangersSound(plan, w, vol, st, st1);
    }
  }

  lemma AttachSound(plan: Plan, w: World, req: Request, vol: Vol, st: State)
    requires Sound(plan, st) && vol.volID in st.volumes && vol == st.volumes[vol.volID]
    requires vol.targetPath == req.targetPath && vol.anchorDir == MountID(req)
    ensures Sound(plan, Attach(w, req, vol, st).1)
  {
    if !w.FsFails(req.targetPath) && req.targetPath !in st.mounts {
      var st1 := MountFresh(req, st);
      MountSound(plan, req, vol, st);
      MapVolumeSound(plan, w, vol, st1);
      StoreSound(plan, w, vol, MapVolume(w, vol, st1).1);
    }
  }

  /** Putting the planned volume of an id in the table, new or again. */
  lemma AddVolumeSound(plan: Plan, vol: Vol, st: State)
    requires Sound(plan, st) && vol.volID in plan && vol == plan[vol.volID]
    ensures Sound(plan, st.(volumes := st.volumes[vol.volID := vol]))
    ensures vol.volID in st.volumes ==> st.volumes[vol.volID := vol] == st.volumes
  {
    RegisteredGrow(st.volumes, Secret, st.secret, vol);
    RegisteredGrow(st.volumes, ConfigMap, st.configMap, vol);
  }

  lemma RegisteredGrow(volumes: map<string, Vol>, kind: Kind, cbs: Callbacks<Vol>, vol: Vol)
    requires Registered(volumes, kind, cbs) && (vol.volID in volumes ==> vol == volumes[vol.volID])
    ensures Registered(volumes[vol.volID := vol], kind, cbs)
  {
  }

  /** What createVolume hands on when the request is acceptable: the planned volume, now in the table. */
  lemma CreateFits(plan: Plan, w: World, rn: ReservedNames, req: Request, st: State)
    requires Sound(plan, st) && Fits(plan, rn, Event(w, PublishStep(req)))
    requires Validate(w, rn, req).Passed?
    requires CreateVolume(w, req, Validate(w, rn, req).cm, Validate(w, rn, req).sec, st.volumes).Created?
    ensures
      var Passed(cm, sec) := Validate(w, rn, req);
      var Created(vol, volumes) := CreateVolume(w, req, cm, sec, st.volumes);
      && req.volumeId in plan && vol == plan[req.volumeId] && volumes == st.volumes[req.volumeId := vol]
      && vol.volID == req.volumeId && vol.targetPath == req.targetPath && vol.anchorDir == MountID(req)
      && Allowed(w, vol)
      && Sound(plan, st.(volumes := volumes))
  {
    var kind, share := PassedRequest(w, rn, req);
    var vol := NewVol(req, kind, share.name);
    assert vol == plan[req.volumeId];
    AddVolumeSound(plan, vol, st);
  }

  lemma PublishSound(plan: Plan, w: World, rn: ReservedNames, req: Request, st: State)
    requires Sound(plan, st) && Fits(plan, rn, Event(w, PublishStep(req)))
    ensures Sound(plan, Publish(w, rn, req, st).1)
  {
    if Validate(w, rn, req).Passed? {
      var Passed(cm, sec) := Validate(w, rn, req);
      var c := CreateVolume(w, req, cm, sec, st.volumes);
      if c.Created? {
        CreateFits(plan, w, rn, req, st);
        AttachSound(plan, w, req, c.vol, st.(volumes := c.volumes));
      }
    }
  }

  lemma UnpublishSound(plan: Plan, w: World, id: string, target: Path, st: State)
    requires Sound(plan, st)
    ensures Sound(plan, Unpublish(w, id, target, st).1)
  {
    if id != "" && target != "" && id in st.volumes && st.volumes[id].anchorDir in st.mounts.Values {
      var st0 := Unmounted(st, {st.volumes[id].anchorDir});
      assert Sound(plan, st0);
      var st1 := DeleteVolume(w, id, st0);
      assert Sound(plan, st1);
    }
  }

  lemma LoadOneSound(plan: Plan, w: World, vol: Vol, st: State)
    requires Sound(plan, st) && vol.volID in plan && vol == plan[vol.volID]
    ensures
      var st1 := RegisterRangers(w, vol, st.(volumes := st.volumes[vol.volID := vol]));
      Sound(plan, st1) && st1.disk == st.disk
  {
    AddVolumeSound(plan, vol, st);
    var st1 := st.(volumes := st.volumes[vol.volID := vol]);
    RegisterRangersSound(plan, w, vol, st1, st1);
  }

  lemma {:induction false} LoadSound(plan: Plan, w: World, st: State, names: seq<string>)
    requires Sound(plan, st)
    ensures Sound(plan, Load(w, st, names)) && Load(w, st, names).disk == st.disk
  {
    if names != [] {
      var init, name := names[..|names| - 1], names[|names| - 1];
      LoadSound(plan, w, st, init);
      var st1 := Load(w, st, init);
      if Loadable(st.disk, name) {
        var vol := st.disk[name].vol;
        assert vol == plan[name];
        LoadOneSound(plan, w, vol, st1);
      }
    }
  }

  lemma RestartSound(plan: Plan, w: World, st: State, names: seq<string>)
    requires Sound(plan, st)
    ensures Sound(plan, Restart(w, st, names))
  {
    var st0 := st.(volumes := map[], secret := NO_CALLBACKS, configMap := NO_CALLBACKS);
    assert Sound(plan, st0);
    LoadSound(plan, w, st0, names);
  }

  lemma FanOutSound(plan: Plan, w: World, kind: Kind, st: State, names: set<string>)
    requires Sound(plan, st)
    ensures Sound(plan, FanOut(w, kind, st, names))
  {
    PassSound(plan, w, kind, st, Naming(st.volumes, names));
  }

  lemma UpsertObjectSound(plan: Plan, w: World, kind: Kind, ref: Ref, obj: Object, st: State)
    requires Sound(plan, st)
    ensures Sound(plan, UpsertObject(w, kind, ref, obj, st))
  {
    FanOutSound(plan, w, kind, st, Referring(w, kind, ref));
    var st1 := FanOut(w, kind, st, Referring(w, kind, ref));
    FilesSound(plan, st1, CallUpserts(w, kind, ref, obj, st1));
  }

  lemma DeletionSound(plan: Plan, w: World, kind: Kind, name: string, ref: Ref, st: State)
    requires Sound(plan, st)
    ensures Sound(plan, DeleteShare(w, kind, name, st))
    ensures Sound(plan, DeleteObject(w, kind, ref, st))
  {
    FilesSound(plan, st, DeleteShare(w, kind, name, st));
    FilesSound(plan, st, DeleteObject(w, kind, ref, st));
  }

  lemma PruneSound(plan: Plan, w: World, st: State)
    requires Sound(plan, st)
    ensures Sound(plan, Prune(w, st))
  {
  }

  predicate ShareEvent(step: Step) {
    step.ShareUpsert? || step.ShareDelete? || step.ObjectUpsert? || step.ObjectDelete?
  }

  lemma ShareEventSound(plan: Plan, rn: ReservedNames, e: Event, st: State)
    requires Sound(plan, st) && ShareEvent(e.step)
    ensures Sound(plan, Next(rn, e, st))
  {
    match e.step
    case ShareUpsert(kind, name, ref) => FanOutSound(plan, e.w, kind, st, {name});
    case ShareDelete(kind, name) => DeletionSound(plan, e.w, kind, name, Ref("", ""), st);
    case ObjectUpsert(kind, ref, obj) => UpsertObjectSound(plan, e.w, kind, ref, obj, st);
    case ObjectDelete(kind, ref) => DeletionSound(plan, e.w, kind, "", ref, st);
  }

  /** Every step of the driver keeps the registry invariant. */
  lemma NextSound(plan: Plan, rn: ReservedNames, e: Event, st: State)
    requires Sound(plan, st) && Fits(plan, rn, e)
    ensures Sound(plan, Next(rn, e, st))
  {
    if ShareEvent(e.step) {
      ShareEventSound(plan, rn, e, st);
    } else {
      match e.step
      case PublishStep(req) => PublishSound(plan, e.w, rn, req, st);
      case UnpublishStep(id, target) => UnpublishSound(plan, e.w, id, target, st);
      case RestartStep(names) => RestartSound(plan, e.w, st, names);
      case PruneStep => PruneSound(plan, e.w, st);
    }
  }

  /** So does every run, of any length and in any order of calls and events. */
  lemma {:induction false} RunSound(plan: Plan, rn: ReservedNames, trace: seq<Event>, st: State)
    requires Sound(plan, st)
    requires forall i :: 0 <= i < |trace| ==> Fits(plan, rn, trace[i])
    ensures Sound(plan, Run(rn, trace, st))
  {
    if trace != [] {
      var init := trace[..|trace| - 1];
      forall i | 0 <= i < |init| ensures Fits(plan, rn, init[i]) { assert init[i] == trace[i]; }
      RunSound(plan, rn, init, st);
      NextSound(plan, rn, trace[|trace| - 1], Run(rn, init, st));
    }
  }
}
