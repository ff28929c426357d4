/** What NodePublishVolume guarantees to the kubelet. */
module Calls {
  import opened Text
  import opened Cluster
  import opened Reservations
  import opened Sweeps
  import opened Requests
  import opened Machine
  import opened Registry
  import opened Passes
  import opened Provenance
  import opened Convergence

  /** Registered for share updates, share deletions and object deletions, and mounted. */
  ghost predicate Attached(st: State, id: string) {
    && Published(st, id)
    && id in st.Of(st.volumes[id].kind.kind).deletes && id in st.Of(st.volumes[id].kind.kind).shareDeletes
    && st.volumes[id].targetPath in st.mounts
  }

  /** The volume has its record on disk. */
  predicate OnDisk(disk: map<string, Record>, vol: Vol) {
    vol.volID in disk && disk[vol.volID] == Record(vol)
  }

  /** Fully published. */
  ghost predicate Complete(st: State, id: string) {
    Attached(st, id) && OnDisk(st.disk, st.volumes[id])
  }

  /** The volume an acceptable request is for resolves its share in the world of the request. */
  lemma RequestedShare(plan: Plan, w: World, rn: ReservedNames, req: Request)
    requires Fits(plan, rn, Event(w, PublishStep(req))) && Validate(w, rn, req).Passed?
    ensures req.volumeId in plan && plan[req.volumeId].kind.Known?
    ensures w.GetShare(plan[req.volumeId].kind.kind, plan[req.volumeId].shareID).Some?
    ensures Allowed(w, plan[req.volumeId]) && plan[req.volumeId].targetPath == req.targetPath
    ensures plan[req.volumeId].volID == req.volumeId && plan[req.volumeId].anchorDir == MountID(req)
  {
    var kind, share := PassedRequest(w, rn, req);
    assert NewVol(req, kind, share.name) == plan[req.volumeId];
  }

  lemma MapBackingOutcome(w: World, vol: Vol, st: State)
    requires vol.kind.Known? && w.GetShare(vol.kind.kind, vol.shareID).Some?
    ensures MapBacking(w, vol, st).0 != Panic
    ensures MapBacking(w, vol, st).0 == OK <==> Resolves(w, vol) && !w.FsFails(vol.targetPath)
    ensures MapBacking(w, vol, st).0 == OK ==>
      var kind := vol.kind.kind;
      MapBacking(w, vol, st).1 == Mapped(w, kind, w.GetShare(kind, vol.shareID).value, Backing(w, vol), vol, st)
  {
  }

  /**
   * The whole request: no panic, rejected requests change nothing, and the caller's-fault statuses are for
   * them alone. A rejection is the driver's fault only if the access review got no answer.
   */
  lemma PublishOutcome(plan: Plan, w: World, rn: ReservedNames, req: Request, st: State)
    requires Sound(plan, st) && Fits(plan, rn, Event(w, PublishStep(req)))
    ensures
      var (code, st1) := Publish(w, rn, req, st);
      && code != Panic
      && (Validate(w, rn, req).Rejected? ==> st1 == st && code in {InvalidArgument, PermissionDenied, Internal})
      && (code in {InvalidArgument, PermissionDenied} ==> Validate(w, rn, req).Rejected?)
      && (Validate(w, rn, req) == Rejected(Internal) ==> Reviewed(w, rn, req.context, Unanswered))
  {
    ValidateShareExactly(w, rn, req.context);
    if Validate(w, rn, req).Passed? {
      var Passed(cm, sec) := Validate(w, rn, req);
      var c := CreateVolume(w, req, cm, sec, st.volumes);
      RequestedShare(plan, w, rn, req);
      if c.Created? {
        CreateFits(plan, w, rn, req, st);
        MapBackingOutcome(w, c.vol, MountFresh(req, st.(volumes := c.volumes)));
        hide MapBacking, RegisterRangers;
      }
    }
  }

  /** StoreToDisk returns no error, be it because it could not open the directory and did nothing. */
  predicate StoreReports(w: World) {
    w.mapRootClosed || (!w.createFails && !w.writeFails)
  }

  /** mapBackingResourceToPod panics exactly for a SharedSecret that cannot be found any more. */
  lemma MapBackingPanicsExactly(w: World, vol: Vol, st: State)
    ensures MapBacking(w, vol, st).0 == Panic <==> vol.kind == Known(Secret) && w.GetShare(Secret, vol.shareID).None?
  {
  }

  /**
   * Exactly when a publish request succeeds: it passes the checks, the host paths it needs are usable, and
   * the target is mounted already or the share's object can be fetched and storing the record reports no error.
   */
  lemma PublishSucceedsExactly(plan: Plan, w: World, rn: ReservedNames, req: Request, st: State)
    requires Sound(plan, st) && Fits(plan, rn, Event(w, PublishStep(req)))
    ensures Publish(w, rn, req, st).0 == OK <==>
      && Validate(w, rn, req).Passed?
      && (req.volumeId in st.volumes || !w.FsFails(MountID(req)))
      && !w.FsFails(req.targetPath)
      && (req.targetPath in st.mounts || (Resolves(w, plan[req.volumeId]) && StoreReports(w)))
  {
    ValidateShareExactly(w, rn, req.context);
    if Validate(w, rn, req).Passed? {
      var Passed(cm, sec) := Validate(w, rn, req);
      var c := CreateVolume(w, req, cm, sec, st.volumes);
      RequestedShare(plan, w, rn, req);
      CreateVolumeOutcome(w, rn, req, st);
      if c.Created? {
        CreateFits(plan, w, rn, req, st);
        MapBackingOutcome(w, c.vol, MountFresh(req, st.(volumes := c.volumes)));
        hide MapBacking, RegisterRangers, Sound;
      }
    }
  }

  /** createVolume is only ever asked for exactly one share: of its failures only the directory error remains. */
  lemma CreateVolumeOutcome(w: World, rn: ReservedNames, req: Request, st: State)
    requires Validate(w, rn, req).Passed?
    ensures CreateVolume(w, req, Validate(w, rn, req).cm, Validate(w, rn, req).sec, st.volumes).NotCreated?
      <==> req.volumeId !in st.volumes && w.FsFails(MountID(req))
  {
    ValidateShareExactly(w, rn, req.context);
    var Passed(cm, sec) := Validate(w, rn, req);
    assert ValidateShare(w, rn, req.context) == Passed(cm, sec);
  }

  /** Mapping a freshly mounted volume: it shows its share's data and all its callbacks are registered. */
  lemma MapDelivers(plan: Plan, w: World, vol: Vol, st: State)
    requires Sound(plan, st) && vol.volID in st.volumes && st.volumes[vol.volID] == vol
    requires vol.kind.Known? && w.GetShare(vol.kind.kind, vol.shareID).Some? && Allowed(w, vol)
    requires Seen(plan, st, vol.volID) == map[] && MapVolume(w, vol, st).0 == OK
    ensures
      var st1 := MapVolume(w, vol, st).1;
      && Resolves(w, vol) && Seen(plan, st1, vol.volID) == Desired(w, vol)
      && st1.volumes == st.volumes && st1.mounts == st.mounts && st1.disk == st.disk
      && Published(st1, vol.volID)
      && vol.volID in st1.Of(vol.kind.kind).deletes && vol.volID in st1.Of(vol.kind.kind).shareDeletes
  {
    var kind := vol.kind.kind;
    MapBackingOutcome(w, vol, st);
    MapBackingFrame(w, vol, st);
    var ref := w.GetShare(kind, vol.shareID).value;
    var st1 := Mapped(w, kind, ref, Backing(w, vol), vol, st);
    MappedShows(plan, w, kind, ref, vol, st);
    RangedSound(plan, vol, kind, st, st1);
    RangersDeliver(plan, w, vol, st1);
    hide Sweep, MapBacking, Mapped, RegisterRangers, Sound, Desired;
  }

  lemma RangersDeliver(plan: Plan, w: World, vol: Vol, st: State)
    requires vol.volID in st.volumes && st.volumes[vol.volID] == vol && vol.kind.Known?
    requires Sound(plan, Ranged(vol, vol.kind.kind, st)) && Resolves(w, vol) && Allowed(w, vol) && !w.FsFails(vol.targetPath)
    requires Seen(plan, st, vol.volID) == ObjectPayload(vol.kind.kind, Backing(w, vol))
    requires vol.volID in st.Of(vol.kind.kind).deletes
    ensures
      var st1 := RegisterRangers(w, vol, st);
      && Seen(plan, st1, vol.volID) == Desired(w, vol)
      && st1.volumes == st.volumes && st1.mounts == st.mounts && st1.disk == st.disk
      && Published(st1, vol.volID)
      && vol.volID in st1.Of(vol.kind.kind).deletes && vol.volID in st1.Of(vol.kind.kind).shareDeletes
  {
    hide Sweep, RegisterRangers, Decide;
    var id, kind := vol.volID, vol.kind.kind;
    var st2 := Ranged(vol, kind, st);
    var ids := Naming(st2.volumes, {vol.shareID});
    RangersArePass(w, vol, st);
    RangedFrame(vol, kind, st);
    SoundTargets(plan, st2);
    assert id in ids;
    OwnPass(w, kind, st2, ids, id);
    PassOwn(w, kind, st2, ids, id);
    DecideOwn(w, vol);
    PayloadEmpty(kind, Backing(w, vol));
    PassFrame(w, kind, st2, ids);
    hide Pass, Ranged, Sound;
  }

  lemma DecideOwn(w: World, vol: Vol)
    requires Resolves(w, vol) && Allowed(w, vol)
    ensures Decide(w, UpdateRule(vol.kind.kind), vol) == Put(SharePayload(Backing(w, vol)))
  {
  }

  lemma RangedFrame(vol: Vol, kind: Kind, st: State)
    ensures
      var st1 := Ranged(vol, kind, st);
      && st1.volumes == st.volumes && st1.mounts == st.mounts && st1.disk == st.disk && st1.files == st.files
      && vol.volID in st1.Of(kind).shareUpdates && vol.volID in st1.Of(kind).shareDeletes
      && st1.Of(kind).deletes == st.Of(kind).deletes && st1.Of(kind).upserts == st.Of(kind).upserts
  {
  }

  lemma RangersArePass(w: World, vol: Vol, st: State)
    requires vol.kind.Known? && w.GetShare(vol.kind.kind, vol.shareID).Some?
    ensures RegisterRangers(w, vol, st) ==
      Pass(w, vol.kind.kind, Ranged(vol, vol.kind.kind, st), Naming(st.volumes, {vol.shareID}))
  {
  }

  lemma PayloadEmpty(kind: Kind, obj: Object)
    ensures SharePayload(obj) == map[] ==> ObjectPayload(kind, obj) == map[]
  {
    if SharePayload(obj) == map[] {
      assert forall k :: k in obj.bytes ==> k in SharePayload(obj);
    }
  }

  lemma MappedShows(plan: Plan, w: World, kind: Kind, ref: Ref, vol: Vol, st: State)
    requires vol.volID in plan && plan[vol.volID] == vol && vol.kind == Known(kind) && w.GetShare(kind, vol.shareID) == Some(ref)
    requires Seen(plan, st, vol.volID) == map[] && Resolves(w, vol) && !w.FsFails(vol.targetPath)
    ensures
      var st1 := Mapped(w, kind, ref, Backing(w, vol), vol, st);
      Seen(plan, st1, vol.volID) == ObjectPayload(kind, Backing(w, vol)) && vol.volID in st1.Of(kind).deletes
  {
    hide Sweep;
    var own := map[vol.volID := vol];
    assert vol.volID in own && own[vol.volID] == vol;
    assert Targeted(own, {vol.volID}, vol.targetPath);
    SweepShows(w, UpsertRule(Key(ref), ObjectPayload(kind, Backing(w, vol))), st.files, own, {vol.volID}, vol);
  }

  /** A publish that succeeds by mounting delivers: the pod sees its share's data and the volume is complete, if it could be stored. */
  lemma PublishDelivers(plan: Plan, w: World, rn: ReservedNames, req: Request, st: State)
    requires Sound(plan, st) && Fits(plan, rn, Event(w, PublishStep(req)))
    requires Publish(w, rn, req, st).0 == OK && req.targetPath !in st.mounts
    ensures
      var st1 := Publish(w, rn, req, st).1;
      var id := req.volumeId;
      && id in plan && Resolves(w, plan[id]) && Allowed(w, plan[id])
      && Seen(plan, st1, id) == SharePayload(Backing(w, plan[id]))
      && Attached(st1, id) && st1.volumes == st.volumes[id := plan[id]]
      && (Complete(st1, id) <==> !w.mapRootClosed || OnDisk(st.disk, plan[id]))
      && (w.mapRootClosed ==> st1.disk == st.disk)
  {
    var Passed(cm, sec) := Validate(w, rn, req);
    var c := CreateVolume(w, req, cm, sec, st.volumes);
    assert Publish(w, rn, req, st) == Attach(w, req, c.vol, st.(volumes := c.volumes));
    RequestedShare(plan, w, rn, req);
    CreateFits(plan, w, rn, req, st);
    hide Validate, CreateVolume, Publish;
    AttachDelivers(plan, w, req, c.vol, st.(volumes := c.volumes));
  }

  lemma MountedShowsNothing(plan: Plan, req: Request, vol: Vol, st: State)
    requires Sound(plan, st) && vol.volID in st.volumes && st.volumes[vol.volID] == vol && vol.targetPath == req.targetPath
    ensures vol.volID in plan && plan[vol.volID] == vol && Seen(plan, MountFresh(req, st), vol.volID) == map[]
  {
  }

  lemma DesiredAllowed(w: World, vol: Vol)
    requires Resolves(w, vol) && Allowed(w, vol)
    ensures Desired(w, vol) == SharePayload(Backing(w, vol))
  {
  }

  lemma AttachDelivers(plan: Plan, w: World, req: Request, vol: Vol, st: State)
    requires Sound(plan, st) && vol.volID in st.volumes && st.volumes[vol.volID] == vol
    requires vol.targetPath == req.targetPath && vol.anchorDir == MountID(req)
    requires vol.kind.Known? && w.GetShare(vol.kind.kind, vol.shareID).Some? && Allowed(w, vol)
    requires Attach(w, req, vol, st).0 == OK && req.targetPath !in st.mounts
    ensures
      var st1 := Attach(w, req, vol, st).1;
      && Resolves(w, vol) && Seen(plan, st1, vol.volID) == SharePayload(Backing(w, vol))
      && Attached(st1, vol.volID) && st1.volumes == st.volumes
      && (Complete(st1, vol.volID) <==> !w.mapRootClosed || OnDisk(st.disk, vol))
      && (w.mapRootClosed ==> st1.disk == st.disk)
  {
    hide MapVolume, Sound, Desired;
    var st1 := MountFresh(req, st);
    MountSound(plan, req, vol, st);
    assert MapVolume(w, vol, st1).0 == OK;
    MountedShowsNothing(plan, req, vol, st);
    MapDelivers(plan, w, vol, st1);
    DesiredAllowed(w, vol);
  }

  /**
   * A publish onto a mounted path succeeds without mapping or storing anything, and storing without the
   * directory succeeds without a record. So a successful publish leaves the volume complete exactly when it
   * did the mounting itself and the record is stored now or was before, or the volume was complete before.
   */
  lemma PublishCompleteExactly(plan: Plan, w: World, rn: ReservedNames, req: Request, st: State)
    requires Sound(plan, st) && Fits(plan, rn, Event(w, PublishStep(req)))
    requires Publish(w, rn, req, st).0 == OK
    ensures req.volumeId in plan
    ensures Complete(Publish(w, rn, req, st).1, req.volumeId) <==>
      if req.targetPath !in st.mounts then !w.mapRootClosed || OnDisk(st.disk, plan[req.volumeId])
      else Complete(st, req.volumeId)
  {
    if req.targetPath !in st.mounts {
      PublishDelivers(plan, w, rn, req, st);
    } else {
      var Passed(cm, sec) := Validate(w, rn, req);
      var c := CreateVolume(w, req, cm, sec, st.volumes);
      RequestedShare(plan, w, rn, req);
      CreateFits(plan, w, rn, req, st);
      AddVolumeSound(plan, c.vol, st);
      assert Publish(w, rn, req, st).1 == st.(volumes := c.volumes);
      assert Registered(st.volumes, c.vol.kind.kind, st.Of(c.vol.kind.kind));
    }
  }

  /** Idempotence: repeating a successful publish with nothing changed succeeds and changes nothing. */
  lemma PublishTwice(plan: Plan, w: World, rn: ReservedNames, req: Request, st: State)
    requires Sound(plan, st) && Fits(plan, rn, Event(w, PublishStep(req)))
    requires Publish(w, rn, req, st).0 == OK
    ensures
      var st1 := Publish(w, rn, req, st).1;
      Publish(w, rn, req, st1) == (OK, st1)
  {
    ValidateShareExactly(w, rn, req.context);
    var Passed(cm, sec) := Validate(w, rn, req);
    var c := CreateVolume(w, req, cm, sec, st.volumes);
    RequestedShare(plan, w, rn, req);
    CreateFits(plan, w, rn, req, st);
    var st1 := Publish(w, rn, req, st).1;
    if req.targetPath !in st.mounts {
      PublishDelivers(plan, w, rn, req, st);
    }
    assert req.volumeId in st1.volumes && req.targetPath in st1.mounts;
    hide MapVolume, Validate, Sound;
    assert st1.(volumes := st1.volumes) == st1;
  }

  /**
   * The refresh flag of the volume, with the driver's own setting, decides about the upsert callback; the
   * delete callback and both share callbacks are registered in any case.
   */
  lemma PublishRegisters(plan: Plan, w: World, rn: ReservedNames, req: Request, st: State)
    requires Sound(plan, st) && Fits(plan, rn, Event(w, PublishStep(req)))
    requires Publish(w, rn, req, st).0 == OK && req.targetPath !in st.mounts
    ensures req.volumeId in plan && plan[req.volumeId].kind.Known?
    ensures
      var (id, kind) := (req.volumeId, plan[req.volumeId].kind.kind);
      var cbs := Publish(w, rn, req, st).1.Of(kind);
      && (id in cbs.upserts <==> (Refresh(req.context) && w.refreshResources) || id in st.Of(kind).upserts)
      && id in cbs.deletes && id in cbs.shareUpdates && id in cbs.shareDeletes
  {
    hide Publish, Sound, Fits, Refresh;
    PublishRegistersUpsert(plan, w, rn, req, st);
    PublishDelivers(plan, w, rn, req, st);
  }

  lemma PublishRegistersUpsert(plan: Plan, w: World, rn: ReservedNames, req: Request, st: State)
    requires Sound(plan, st) && Fits(plan, rn, Event(w, PublishStep(req)))
    requires Publish(w, rn, req, st).0 == OK && req.targetPath !in st.mounts
    ensures
      var id := req.volumeId;
      id in plan && plan[id].kind.Known? &&
      var kind := plan[id].kind.kind;
      id in Publish(w, rn, req, st).1.Of(kind).upserts <==>
        (Refresh(req.context) && w.refreshResources) || id in st.Of(kind).upserts
  {
    var Passed(cm, sec) := Validate(w, rn, req);
    var c := CreateVolume(w, req, cm, sec, st.volumes);
    RequestedShare(plan, w, rn, req);
    CreateFits(plan, w, rn, req, st);
    RequestedRefresh(plan, w, rn, req);
    assert Publish(w, rn, req, st) == Attach(w, req, c.vol, st.(volumes := c.volumes));
    hide Validate, CreateVolume, Publish, Fits, Refresh;
    AttachRegistersUpsert(plan, w, req, c.vol, st.(volumes := c.volumes));
  }

  lemma RequestedRefresh(plan: Plan, w: World, rn: ReservedNames, req: Request)
    requires Fits(plan, rn, Event(w, PublishStep(req))) && Validate(w, rn, req).Passed?
    ensures req.volumeId in plan && plan[req.volumeId].refresh == Refresh(req.context)
  {
    var kind, share := PassedRequest(w, rn, req);
    assert NewVol(req, kind, share.name) == plan[req.volumeId];
  }

  lemma AttachRegistersUpsert(plan: Plan, w: World, req: Request, vol: Vol, st: State)
    requires Sound(plan, st) && vol.volID in st.volumes && st.volumes[vol.volID] == vol
    requires vol.targetPath == req.targetPath && vol.anchorDir == MountID(req)
    requires vol.kind.Known? && w.GetShare(vol.kind.kind, vol.shareID).Some? && Allowed(w, vol)
    requires Attach(w, req, vol, st).0 == OK && req.targetPath !in st.mounts
    ensures vol.volID in Attach(w, req, vol, st).1.Of(vol.kind.kind).upserts <==>
      (vol.refresh && w.refreshResources) || vol.volID in st.Of(vol.kind.kind).upserts
  {
    var kind := vol.kind.kind;
    var st0 := MountFresh(req, st);
    MountSound(plan, req, vol, st);
    MapBackingOutcome(w, vol, st0);
    MapBackingFrame(w, vol, st0);
    var st1 := MapBacking(w, vol, st0).1;
    MappedUpserts(w, kind, w.GetShare(kind, vol.shareID).value, Backing(w, vol), vol, st0);
    RangedSound(plan, vol, kind, st0, st1);
    RangersKeepUpsert(plan, w, vol, st1);
    hide MapBacking, Mapped, RegisterRangers, Sound;
  }

  lemma MappedUpserts(w: World, kind: Kind, ref: Ref, obj: Object, vol: Vol, st: State)
    ensures vol.volID in Mapped(w, kind, ref, obj, vol, st).Of(kind).upserts <==>
      (vol.refresh && w.refreshResources) || vol.volID in st.Of(kind).upserts
  {
  }

  lemma RangersKeepUpsert(plan: Plan, w: World, vol: Vol, st: State)
    requires vol.volID in st.volumes && st.volumes[vol.volID] == vol && vol.kind.Known?
    requires Sound(plan, Ranged(vol, vol.kind.kind, st)) && Resolves(w, vol) && Allowed(w, vol)
    ensures vol.volID in RegisterRangers(w, vol, st).Of(vol.kind.kind).upserts <==> vol.volID in st.Of(vol.kind.kind).upserts
  {
    hide Sweep, RegisterRangers, Decide;
    var kind := vol.kind.kind;
    var st2 := Ranged(vol, kind, st);
    var ids := Naming(st2.volumes, {vol.shareID});
    RangersArePass(w, vol, st);
    RangedFrame(vol, kind, st);
    SoundTargets(plan, st2);
    assert vol.volID in ids;
    PassOwn(w, kind, st2, ids, vol.volID);
    DecideOwn(w, vol);
    hide Pass, Sound;
  }

  /** Unpublishing one volume leaves another one mounted, with its data, exactly when their mount identifiers differ. */
  lemma UnpublishIsolationExactly(plan: Plan, w: World, id: string, target: Path, st: State, other: string)
    requires Sound(plan, st) && id in st.volumes && other in st.volumes && other != id
    requires plan[other].targetPath in st.mounts && Unpublish(w, id, target, st).0 == OK
    ensures
      var st1 := Unpublish(w, id, target, st).1;
      && (plan[other].targetPath in st1.mounts <==> plan[other].anchorDir != plan[id].anchorDir)
      && (plan[other].anchorDir != plan[id].anchorDir ==> Seen(plan, st1, other) == Seen(plan, st, other))
      && other in st1.volumes && st1.volumes[other] == st.volumes[other]
  {
    TwoVolumes(plan, st, id, other);
    hide Sound;
    UnmountOther(st, plan[id].anchorDir, plan[other].targetPath);
    DeleteOther(w, id, Unmounted(st, {plan[id].anchorDir}), other, plan[other].targetPath);
    hide Unmounted, DeleteVolume;
  }

  /** Its callbacks stay as well, whatever the identifiers. */
  lemma UnpublishKeepsCallbacks(w: World, id: string, target: Path, st: State, kind: Kind, other: string)
    requires other != id
    ensures
      var cbs := Unpublish(w, id, target, st).1.Of(kind);
      && (other in cbs.upserts <==> other in st.Of(kind).upserts) && (other in cbs.deletes <==> other in st.Of(kind).deletes)
      && (other in cbs.shareDeletes <==> other in st.Of(kind).shareDeletes)
  {
  }

  lemma TwoVolumes(plan: Plan, st: State, id: string, other: string)
    requires Sound(plan, st) && id in st.volumes && other in st.volumes && other != id
    ensures id in plan && other in plan && st.volumes[id] == plan[id] && st.volumes[other] == plan[other]
    ensures plan[id].targetPath != plan[other].targetPath
    ensures plan[other].targetPath in st.mounts ==> st.mounts[plan[other].targetPath] == plan[other].anchorDir
  {
  }

  lemma UnmountOther(st: State, anchor: string, path: Path)
    requires path in st.mounts
    ensures
      var st1 := Unmounted(st, {anchor});
      && (path in st1.mounts <==> st.mounts[path] != anchor)
      && (st.mounts[path] != anchor ==> Shown(st1.files, path) == Shown(st.files, path))
      && st1.volumes == st.volumes
  {
  }

  lemma DeleteOther(w: World, id: string, st: State, other: string, path: Path)
    requires id in st.volumes && other in st.volumes && other != id && st.volumes[id].targetPath != path
    ensures
      var st1 := DeleteVolume(w, id, st);
      && st1.mounts == st.mounts && Shown(st1.files, path) == Shown(st.files, path)
      && other in st1.volumes && st1.volumes[other] == st.volumes[other]
  {
  }

  /** Within one pod the identifiers of different volumes differ. */
  lemma MountIDsOfOnePod(a: Request, b: Request)
    requires Attr(a.context, CSI_POD_NAMESPACE) == Attr(b.context, CSI_POD_NAMESPACE)
    requires Attr(a.context, CSI_POD_NAME) == Attr(b.context, CSI_POD_NAME)
    ensures MountID(a) == MountID(b) <==> a.volumeId == b.volumeId
  {
    var prefix := Attr(a.context, CSI_POD_NAMESPACE) + "-" + Attr(a.context, CSI_POD_NAME) + "-";
    assert MountID(a)[|prefix|..] == a.volumeId && MountID(b)[|prefix|..] == b.volumeId;
  }
}
