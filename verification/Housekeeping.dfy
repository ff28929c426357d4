/**
 * What restarts, unpublishes, prunes and deletions do, in terms of the records on disk, the mounts and the tables,
 * and how long a published volume of a living pod lasts.
 */
module Housekeeping {
  import opened Cluster
  import opened Reservations
  import opened Sweeps
  import opened Requests
  import opened Machine
  import opened Registry
  import opened Provenance
  import opened Deletions
  import opened Calls
  import opened Persistence
  import opened Publishing

  /* ------------------------------------------------------------------ restart */

  /** The file is a decodable record filed under its own volume id. */
  predicate GoodRecord(disk: map<string, Record>, id: string) {
    id in disk && disk[id].Record? && disk[id].vol.volID == id
  }

  /**
   * A restart rebuilds exactly the volumes whose good records its walk meets, whatever their fields are, and
   * registers each of them for its share's events and no object's; records and mounts stay.
   */
  lemma RestartFromRecords(rn: ReservedNames, w: World, st: State, names: seq<string>)
    ensures
      var st1 := Next(rn, Event(w, RestartStep(names)), st);
      && (forall id :: id in st1.volumes <==> id in names && GoodRecord(st.disk, id))
      && (forall id :: id in st1.volumes ==> st1.volumes[id] == st.disk[id].vol)
      && (forall id :: id in st1.secret.shareUpdates <==> id in st1.volumes && st1.volumes[id].kind == Known(Secret))
      && (forall id :: id in st1.secret.shareDeletes <==> id in st1.volumes && st1.volumes[id].kind == Known(Secret))
      && (forall id :: id in st1.configMap.shareUpdates <==> id in st1.volumes && st1.volumes[id].kind == Known(ConfigMap))
      && (forall id :: id in st1.configMap.shareDeletes <==> id in st1.volumes && st1.volumes[id].kind == Known(ConfigMap))
      && st1.secret.upserts == st1.secret.deletes == st1.configMap.upserts == st1.configMap.deletes == map[]
      && st1.disk == st.disk && st1.mounts == st.mounts
  {
    var st0 := st.(volumes := map[], secret := NO_CALLBACKS, configMap := NO_CALLBACKS);
    assert Next(rn, Event(w, RestartStep(names)), st) == Load(w, st0, names);
    var st1 := Load(w, st0, names);
    assert st1.Of(Secret) == st1.secret && st1.Of(ConfigMap) == st1.configMap;
    LoadRebuilds(w, st0, names);
    LoadRegisters(w, st0, names, Secret);
    LoadRegisters(w, st0, names, ConfigMap);
    hide Load, Next;
  }

  /** A fully published volume is there again after any restart whose walk meets its record. */
  lemma CompleteSurvivesRestart(plan: Plan, rn: ReservedNames, st: State, id: string, w: World, names: seq<string>)
    requires Sound(plan, st) && Complete(st, id) && id in names
    ensures
      var st1 := Next(rn, Event(w, RestartStep(names)), st);
      id in plan && id in st1.volumes && st1.volumes[id] == plan[id]
  {
    PlannedVolume(plan, st, id);
    PlanIds(plan, st, id);
    RestartFromRecords(rn, w, st, names);
    hide Next, Sound;
  }

  lemma PlanIds(plan: Plan, st: State, id: string)
    requires Sound(plan, st) && id in plan
    ensures plan[id].volID == id
  {
  }

  /* ------------------------------------------------------------------ unpublish */

  /** Something is mounted under this identifier. */
  ghost predicate MountedAs(st: State, anchor: string) {
    exists path :: path in st.mounts && st.mounts[path] == anchor
  }

  /**
   * Exactly when an unpublish succeeds, and the status of one that does not. It is decided by the volume's mount
   * identifier, not by the target path that was sent.
   */
  lemma UnpublishSucceedsExactly(rn: ReservedNames, w: World, id: string, target: Path, st: State)
    ensures
      var (code, st1) := Unpublish(w, id, target, st);
      && Next(rn, Event(w, UnpublishStep(id, target)), st) == st1
      && (code == InvalidArgument <==> id == "" || target == "")
      && (code == OK <==>
        && id != "" && target != "" && id in st.volumes && MountedAs(st, st.volumes[id].anchorDir)
        && !w.removeFails && st.volumes[id].volID in st.disk)
      && code in {OK, InvalidArgument, Internal}
  {
    if id in st.volumes {
      var anchor := st.volumes[id].anchorDir;
      if anchor in st.mounts.Values {
        var path :| path in st.mounts && st.mounts[path] == anchor;
        assert MountedAs(st, anchor);
      }
      if MountedAs(st, anchor) {
        var path :| path in st.mounts && st.mounts[path] == anchor;
        assert anchor in st.mounts.Values;
      }
    }
    hide MountedAs;
  }

  /** What an unpublish that gets past its checks leaves of tables, mounts and records, whether its record can be removed or not. */
  lemma UnpublishExactly(w: World, id: string, target: Path, st: State)
    requires id != "" && target != "" && id in st.volumes && MountedAs(st, st.volumes[id].anchorDir)
    ensures
      var st1 := Unpublish(w, id, target, st).1;
      && (forall other :: other in st1.volumes <==> other in st.volumes && other != id)
      && (forall path :: path in st1.mounts <==> path in st.mounts && st.mounts[path] != st.volumes[id].anchorDir)
      && (forall name :: name in st1.disk <==> name in st.disk && (w.removeFails || name != st.volumes[id].volID))
  {
    assert st.volumes[id].anchorDir in st.mounts.Values by {
      var path :| path in st.mounts && st.mounts[path] == st.volumes[id].anchorDir;
    }
    hide MountedAs, Dropped;
  }

  /* ------------------------------------------------------------------ deletions */

  /** The step of a share deletion: exactly the volumes naming the share, of either kind, are emptied. */
  lemma ShareDeleteShows(plan: Plan, rn: ReservedNames, w: World, kind: Kind, name: string, st: State, id: string)
    requires Sound(plan, st) && id in st.volumes && id in plan
    ensures
      Seen(plan, Next(rn, Event(w, ShareDelete(kind, name)), st), id) ==
        if (exists any :: any in st.Of(kind).shareDeletes) && plan[id].shareID == name
          && id != "" && plan[id].targetPath != "" && plan[id].targetPath !in w.broken
        then map[] else Seen(plan, st, id)
  {
    hide DeleteShare;
    assert (exists any :: any in st.Of(kind).shareDeletes) <==> st.Of(kind).shareDeletes != {};
    if st.Of(kind).shareDeletes != {} {
      DeleteShareExactly(plan, w, kind, name, st, id);
    } else {
      NoShareDelete(w, kind, name, st);
    }
  }

  lemma NoShareDelete(w: World, kind: Kind, name: string, st: State)
    ensures st.Of(kind).shareDeletes == {} ==> DeleteShare(w, kind, name, st) == st
  {
  }

  /** The step of an object deletion: a volume is emptied exactly if its delete callback is registered and its share's reference has the object's key. */
  lemma ObjectDeleteShows(plan: Plan, rn: ReservedNames, w: World, kind: Kind, ref: Ref, st: State, id: string)
    requires Sound(plan, st) && id in st.volumes && id in plan && Seen(plan, st, id) != map[]
    requires plan[id].targetPath != "" && plan[id].targetPath !in w.broken && plan[id].kind == Known(kind)
    ensures
      Seen(plan, Next(rn, Event(w, ObjectDelete(kind, ref)), st), id) ==
        if id in st.Of(kind).deletes
          && exists own :: Refers(Tables(w, kind), plan[id].shareID, own) && own.ns + ":" + own.name == ref.ns + ":" + ref.name
        then map[] else Seen(plan, st, id)
  {
    hide DeleteObject, Sound;
    DeleteObjectExactly(plan, w, kind, ref, st, id);
    GetShareExactly(w, kind, plan[id].shareID);
    if w.GetShare(kind, plan[id].shareID).Some? {
      assert Refers(Tables(w, kind), plan[id].shareID, w.GetShare(kind, plan[id].shareID).value);
    }
  }

  /* ------------------------------------------------------------------ living pods */

  /** The step of a prune, on the whole state. */
  lemma PruneStepExactly(rn: ReservedNames, w: World, st: State)
    ensures
      var st1 := Next(rn, Event(w, PruneStep), st);
      && PruneOutcome(w, st.disk, st.mounts, st.files, st1.disk, st1.mounts, st1.files)
      && st1 == st.(disk := st1.disk, mounts := st1.mounts, files := st1.files)
  {
    hide Prune;
    PruneExactly(w, st);
  }

  /** The volume has its record and its mount. */
  predicate Live(plan: Plan, st: State, id: string) {
    id in plan && OnDisk(st.disk, plan[id]) && plan[id].targetPath in st.mounts
  }

  /** No other decodable record has the volume's mount identifier. */
  predicate OwnMount(plan: Plan, st: State, id: string) {
    id in plan && forall name :: name in st.disk && name != id && st.disk[name].Record? ==> st.disk[name].vol.anchorDir != plan[id].anchorDir
  }

  /**
   * The event is no unpublish of the volume, or of one with the same mount identifier; and if it is a prune, the
   * volume's pod is there, and no other record has the volume's mount identifier.
   */
  predicate Spares(plan: Plan, e: Event, st: State, id: string) {
    id in plan &&
    match e.step
    case UnpublishStep(vid, _) => vid != id && (vid in plan ==> plan[vid].anchorDir != plan[id].anchorDir)
    case PruneStep => (plan[id].podNs, plan[id].podName) !in e.w.missingPods && OwnMount(plan, st, id)
    case _ => true
  }

  lemma PruneSpares(plan: Plan, rn: ReservedNames, w: World, st: State, id: string)
    requires Sound(plan, st) && Live(plan, st, id) && Spares(plan, Event(w, PruneStep), st, id)
    ensures Live(plan, Next(rn, Event(w, PruneStep), st), id)
  {
    hide Next;
    PruneStepExactly(rn, w, st);
    PlanIds(plan, st, id);
    LiveMount(plan, st, id);
    hide Sound;
    assert !Orphaned(w, st.disk, id);
    assert forall name :: Orphaned(w, st.disk, name) ==> name != id && st.disk[name].vol.anchorDir != plan[id].anchorDir;
  }

  lemma LiveMount(plan: Plan, st: State, id: string)
    requires Sound(plan, st) && Live(plan, st, id)
    ensures st.mounts[plan[id].targetPath] == plan[id].anchorDir
  {
  }

  lemma UnpublishSpares(plan: Plan, w: World, vid: string, target: Path, st: State, id: string)
    requires Sound(plan, st) && Live(plan, st, id) && Spares(plan, Event(w, UnpublishStep(vid, target)), st, id)
    ensures Live(plan, Unpublish(w, vid, target, st).1, id)
  {
    LiveMount(plan, st, id);
    PlanIds(plan, st, id);
    if vid in st.volumes {
      PlannedVolume(plan, st, vid);
      PlanIds(plan, st, vid);
      hide Sound, Dropped;
    }
  }

  /** Publishing, anew or again, removes no record and no mount: a mounted volume is not stored a second time. */
  lemma PublishSpares(plan: Plan, rn: ReservedNames, w: World, req: Request, st: State, id: string)
    requires Sound(plan, st) && Live(plan, st, id) && Fits(plan, rn, Event(w, PublishStep(req)))
    ensures Live(plan, Publish(w, rn, req, st).1, id)
  {
    hide Attach, Sound, Fits;
    if Validate(w, rn, req).Passed? {
      var Passed(cm, sec) := Validate(w, rn, req);
      var c := CreateVolume(w, req, cm, sec, st.volumes);
      if c.Created? {
        CreateFits(plan, w, rn, req, st);
        PlanIds(plan, st, id);
        AttachSpares(plan, w, req, c.vol, st.(volumes := c.volumes), id);
      }
    }
  }

  lemma AttachSpares(plan: Plan, w: World, req: Request, vol: Vol, st: State, id: string)
    requires Live(plan, st, id) && plan[id].volID == id && vol.volID in plan && plan[vol.volID] == vol && vol.targetPath == req.targetPath
    ensures Live(plan, Attach(w, req, vol, st).1, id)
  {
    hide MapBacking, RegisterRangers;
    if !w.FsFails(req.targetPath) && req.targetPath !in st.mounts {
      assert vol.volID != id;
      var st1 := MountFresh(req, st);
      MapBackingFrame(w, vol, st1);
      RegisterRangersFrame(w, vol, MapBacking(w, vol, st1).1);
    }
  }

  lemma NextSpares(plan: Plan, rn: ReservedNames, e: Event, st: State, id: string)
    requires Sound(plan, st) && Fits(plan, rn, e) && Live(plan, st, id) && Spares(plan, e, st, id)
    ensures Live(plan, Next(rn, e, st), id)
  {
    hide Sound, Publish, Unpublish;
    if ShareEvent(e.step) {
      ShareEventFrame(rn, e, st);
      hide Next;
    } else {
      match e.step
      case PublishStep(req) => PublishSpares(plan, rn, e.w, req, st, id);
      case UnpublishStep(vid, target) => UnpublishSpares(plan, e.w, vid, target, st, id);
      case RestartStep(names) =>
        RestartFromRecords(rn, e.w, st, names);
        hide Next;
      case PruneStep =>
        PruneSpares(plan, rn, e.w, st, id);
        hide Next;
    }
  }

  /** Over every run of such events a volume keeps its record and its mount. */
  lemma {:induction false} LiveVolumeKept(plan: Plan, rn: ReservedNames, trace: seq<Event>, st: State, id: string)
    requires Sound(plan, st) && Live(plan, st, id)
    requires forall i :: 0 <= i < |trace| ==> Fits(plan, rn, trace[i]) && Spares(plan, trace[i], Run(rn, trace[..i], st), id)
    ensures Live(plan, Run(rn, trace, st), id)
  {
    if trace != [] {
      hide Sound, Fits, Next, Live, Spares;
      var init, e := trace[..|trace| - 1], trace[|trace| - 1];
      forall i | 0 <= i < |init| ensures Fits(plan, rn, init[i]) && Spares(plan, init[i], Run(rn, init[..i], st), id) {
        assert init[i] == trace[i] && init[..i] == trace[..i];
      }
      RunSound(plan, rn, init, st);
      LiveVolumeKept(plan, rn, init, st, id);
      NextSpares(plan, rn, e, Run(rn, init, st), id);
    }
  }

  /** The same as Spares, in terms of the request that published the volume. */
  predicate SparesRequest(plan: Plan, e: Event, st: State, req: Request) {
    req.volumeId in plan &&
    match e.step
    case UnpublishStep(vid, _) =>
      vid != req.volumeId && (vid in plan ==> plan[vid].anchorDir != plan[req.volumeId].anchorDir)
    case PruneStep =>
      && (Sent(req, "csi.storage.k8s.io/pod.namespace"), Sent(req, "csi.storage.k8s.io/pod.name")) !in e.w.missingPods
      && OwnMount(plan, st, req.volumeId)
    case _ => true
  }

  /**
   * A volume that was published and stored outlives every run without its own unpublish: as long as the pod of
   * its request is found, by the namespace and the name that were sent, no prune takes its record or, with distinct
   * mount identifiers, its mount.
   */
  lemma LivingPodKeepsVolume(plan: Plan, w: World, rn: ReservedNames, req: Request, st: State, trace: seq<Event>,
                             kind: Kind, name: string, ref: Ref)
    requires Sound(plan, st) && Fits(plan, rn, Event(w, PublishStep(req))) && Acceptable(w, rn, req, kind, name, ref)
    requires Publish(w, rn, req, st).0 == OK && req.targetPath !in st.mounts && !w.mapRootClosed
    requires
      var st1 := Next(rn, Event(w, PublishStep(req)), st);
      forall i :: 0 <= i < |trace| ==> Fits(plan, rn, trace[i]) && SparesRequest(plan, trace[i], Run(rn, trace[..i], st1), req)
    ensures
      var end := Run(rn, trace, Next(rn, Event(w, PublishStep(req)), st));
      && req.volumeId in end.disk && end.disk[req.volumeId].Record? && Recorded(req, kind, name, end.disk[req.volumeId].vol)
      && req.targetPath in end.mounts
  {
    hide Next, Publish, Run, Sound, Fits, Acceptable, OwnMount, Recorded;
    var st1 := Next(rn, Event(w, PublishStep(req)), st);
    PublishedLive(plan, w, rn, req, st, kind, name, ref);
    RecordedPod(req, kind, name, plan[req.volumeId]);
    forall i | 0 <= i < |trace| ensures Spares(plan, trace[i], Run(rn, trace[..i], st1), req.volumeId) {
      assert SparesRequest(plan, trace[i], Run(rn, trace[..i], st1), req);
    }
    LiveVolumeKept(plan, rn, trace, st1, req.volumeId);
  }

  lemma RecordedPod(req: Request, kind: Kind, name: string, vol: Vol)
    requires Recorded(req, kind, name, vol)
    ensures vol.volID == req.volumeId && vol.targetPath == req.targetPath
    ensures vol.podNs == Sent(req, "csi.storage.k8s.io/pod.namespace") && vol.podName == Sent(req, "csi.storage.k8s.io/pod.name")
  {
  }

  lemma PublishedLive(plan: Plan, w: World, rn: ReservedNames, req: Request, st: State, kind: Kind, name: string, ref: Ref)
    requires Sound(plan, st) && Fits(plan, rn, Event(w, PublishStep(req))) && Acceptable(w, rn, req, kind, name, ref)
    requires Publish(w, rn, req, st).0 == OK && req.targetPath !in st.mounts && !w.mapRootClosed
    ensures
      var st1 := Next(rn, Event(w, PublishStep(req)), st);
      Sound(plan, st1) && Live(plan, st1, req.volumeId) && Recorded(req, kind, name, plan[req.volumeId])
  {
    hide Publish, Sound, Fits, Acceptable, Recorded;
    AcceptableRequest(plan, w, rn, req, kind, name, ref);
    PublishDelivers(plan, w, rn, req, st);
    NextSound(plan, rn, Event(w, PublishStep(req)), st);
    PlannedVolume(plan, Publish(w, rn, req, st).1, req.volumeId);
  }
}
