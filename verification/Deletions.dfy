/** Removing data: share and object deletions, what undoes them, and volumes that are gone. */
module Deletions {
  import opened Text
  import opened Cluster
  import opened Reservations
  import opened Sweeps
  import opened Requests
  import opened Machine
  import opened Registry
  import opened Passes
  import opened Provenance
  import opened Upserts
  import opened Convergence

  /** Deleting a share empties exactly the volumes that name it, of either kind, and keeps every table. */
  lemma DeleteShareExactly(plan: Plan, w: World, kind: Kind, name: string, st: State, id: string)
    requires Sound(plan, st) && st.Of(kind).shareDeletes != {} && id in st.volumes
    ensures
      var st1 := DeleteShare(w, kind, name, st);
      var vol := st.volumes[id];
      && st1 == st.(files := st1.files)
      && Seen(plan, st1, id) == if vol.shareID == name && vol.volID != "" && !w.FsFails(vol.targetPath) then map[] else Seen(plan, st, id)
  {
    hide Sweep;
    SoundTargets(plan, st);
    var vol := st.volumes[id];
    var ids := Naming(st.volumes, {name});
    assert Targeted(st.volumes, ids, vol.targetPath) <==> id in ids;
    SweepShows(w, ShareDeleteRule, st.files, st.volumes, ids, vol);
  }

  /**
   * Deleting a share and adding it back, with the API unchanged, against only adding it. For a volume of
   * the share's kind the two agree exactly when the pod is denied, there is data to put back, or there
   * was none; a volume that does not name the share is untouched by both.
   */
  lemma DeleteThenAddExactly(plan: Plan, w: World, kind: Kind, name: string, ref: Ref, st: State, id: string)
    requires Sound(plan, st) && Published(st, id) && id in st.Of(kind).shareDeletes && plan[id].kind == Known(kind)
    requires plan[id].volID != "" && !w.FsFails(plan[id].targetPath)
    requires w.GetShare(kind, name) == Some(ref) && w.Fetch(kind, ref).Found?
    ensures
      var restored := Seen(plan, AddShare(w, kind, name, ref, DeleteShare(w, kind, name, st)), id);
      var added := Seen(plan, AddShare(w, kind, name, ref, st), id);
      restored == added <==>
        plan[id].shareID != name || !Allowed(w, plan[id])
        || SharePayload(w.Fetch(kind, ref).obj) != map[] || Seen(plan, st, id) == map[]
  {
    var st1 := DeleteShare(w, kind, name, st);
    DeleteShareExactly(plan, w, kind, name, st, id);
    FilesSound(plan, st, st1);
    if plan[id].shareID == name {
      ShareEventExactly(plan, w, kind, name, ref, st, id);
      ShareEventExactly(plan, w, kind, name, ref, st1, id);
    } else {
      AddOther(plan, w, kind, name, ref, st, id);
      AddOther(plan, w, kind, name, ref, st1, id);
    }
  }

  lemma AddOther(plan: Plan, w: World, kind: Kind, name: string, ref: Ref, st: State, id: string)
    requires Sound(plan, st) && id in st.volumes && plan[id].shareID != name
    ensures Seen(plan, AddShare(w, kind, name, ref, st), id) == Seen(plan, st, id)
  {
    SoundTargets(plan, st);
    PassOther(w, kind, st, Naming(st.volumes, {name}), id);
    hide Sweep, Pass;
    ShownAt(Pass(w, kind, st, Naming(st.volumes, {name})).files, plan[id].targetPath);
    ShownAt(st.files, plan[id].targetPath);
  }

  /** Deleting a backing object empties a volume exactly when its delete callback is registered and its share points at the object. */
  lemma DeleteObjectExactly(plan: Plan, w: World, kind: Kind, ref: Ref, st: State, id: string)
    requires Sound(plan, st) && id in st.volumes && !w.FsFails(plan[id].targetPath) && Seen(plan, st, id) != map[]
    ensures
      var after := Seen(plan, DeleteObject(w, kind, ref, st), id);
      && (after == map[] <==> id in st.Of(kind).deletes && Proceed(w, plan[id], Key(ref)))
      && (after != map[] ==> after == Seen(plan, st, id))
  {
    hide Sweep, Registered, DiskFits, MountsFit, Proceed, Targeted;
    SoundTargets(plan, st);
    CapturedFit(plan, st, kind);
    var cbs := st.Of(kind).deletes;
    TargetedByOwn(plan, cbs, id);
    SweepShows(w, DeleteRule(Key(ref)), st.files, cbs, cbs.Keys, plan[id]);
  }

  /** Only a planned volume itself targets its path. */
  lemma TargetedByOwn(plan: Plan, vols: map<string, Vol>, id: string)
    requires PlanOK(plan) && VolumesFit(plan, vols) && id in plan
    ensures Targeted(vols, vols.Keys, plan[id].targetPath) <==> id in vols
    ensures forall other :: other in vols && vols[other].targetPath == plan[id].targetPath ==> vols[other] == plan[id]
  {
  }

  /** When a deleted backing object is created again, its upsert restores the data of every published volume that may have it. */
  lemma RecreatedObjectRestores(plan: Plan, w0: World, w: World, kind: Kind, ref: Ref, obj: Object, st: State, id: string)
    requires Sound(plan, st) && Published(st, id) && id in plan && plan[id].kind == Known(kind)
    requires Current(w, kind, ref, obj) && w.GetShare(kind, plan[id].shareID) == Some(ref)
    requires Allowed(w, plan[id]) && !w.FsFails(plan[id].targetPath) && SharePayload(obj) != map[]
    ensures Seen(plan, UpsertObject(w, kind, ref, obj, DeleteObject(w0, kind, ref, st)), id) == SharePayload(obj)
  {
    hide UpsertObject, Sweep;
    var st1 := DeleteObject(w0, kind, ref, st);
    FilesSound(plan, st, st1);
    UpsertIsReconcile(plan, w, kind, ref, obj, st1);
    SoundTargets(plan, st1);
    assert plan[id].shareID in Referring(w, kind, ref);
    var ids := Naming(st1.volumes, Referring(w, kind, ref));
    assert id in ids;
    OwnPass(w, kind, st1, ids, id);
    hide Pass, Sound, Current;
  }

  /* ------------------------------------------------------------------ deleted volumes */

  /** Nothing of the volume is left: not in the table, not on disk, not mounted, no directory. */
  ghost predicate Gone(plan: Plan, st: State, id: string) {
    id in plan && id !in st.volumes && !Loadable(st.disk, id)
    && plan[id].targetPath !in st.mounts && plan[id].targetPath !in st.files
  }

  /** A successful unpublish leaves nothing of the volume, although its share-update entry stays behind. */
  lemma UnpublishLeavesNothing(plan: Plan, w: World, id: string, target: Path, st: State)
    requires Sound(plan, st) && id in plan && !w.FsFails(plan[id].targetPath)
    requires Unpublish(w, id, target, st).0 == OK
    ensures Gone(plan, Unpublish(w, id, target, st).1, id)
    ensures forall k: Kind :: Unpublish(w, id, target, st).1.Of(k).shareUpdates == st.Of(k).shareUpdates
  {
  }

  lemma ShareEventFrame(rn: ReservedNames, e: Event, st: State)
    requires ShareEvent(e.step)
    ensures Next(rn, e, st).disk == st.disk && Next(rn, e, st).mounts == st.mounts
  {
    hide Sweep, Decide, Naming, Denied, Dropped, Referring;
  }

  lemma GoneShareEvent(plan: Plan, rn: ReservedNames, e: Event, st: State, id: string)
    requires Sound(plan, st) && Gone(plan, st, id) && ShareEvent(e.step)
    ensures Gone(plan, Next(rn, e, st), id)
  {
    hide Next, Sound;
    EventForgotten(plan, rn, e, st, id);
    ShareEventFrame(rn, e, st);
    assert At(Next(rn, e, st).files, plan[id].targetPath) == None;
  }

  lemma GoneRegisterRangers(plan: Plan, w: World, vol: Vol, st: State, id: string)
    requires PlanOK(plan) && VolumesFit(plan, st.volumes) && Gone(plan, st, id)
    ensures Gone(plan, RegisterRangers(w, vol, st), id)
  {
    hide Sweep, Denied, Dropped;
    RangersForgotten(plan, w, vol, st, id);
    assert At(RegisterRangers(w, vol, st).files, plan[id].targetPath) == None;
  }

  lemma GoneAttach(plan: Plan, w: World, req: Request, vol: Vol, st: State, id: string)
    requires Sound(plan, st) && Gone(plan, st, id) && vol.volID != id
    requires vol.volID in st.volumes && st.volumes[vol.volID] == vol
    requires vol.targetPath == req.targetPath && vol.anchorDir == MountID(req)
    ensures Gone(plan, Attach(w, req, vol, st).1, id)
  {
    assert plan[id].targetPath != vol.targetPath;
    if !w.FsFails(req.targetPath) && req.targetPath !in st.mounts {
      var st1 := MountFresh(req, st);
      MapBackingForgotten(plan, w, vol, st1, id);
      MapBackingFrame(w, vol, st1);
      var st2 := MapBacking(w, vol, st1).1;
      assert At(st2.files, plan[id].targetPath) == None;
      GoneRegisterRangers(plan, w, vol, st2, id);
      hide MapBacking, RegisterRangers;
    }
  }

  lemma GonePublish(plan: Plan, rn: ReservedNames, w: World, req: Request, st: State, id: string)
    requires Sound(plan, st) && Gone(plan, st, id) && req.volumeId != id && Fits(plan, rn, Event(w, PublishStep(req)))
    ensures Gone(plan, Publish(w, rn, req, st).1, id)
  {
    if Validate(w, rn, req).Passed? {
      var Passed(cm, sec) := Validate(w, rn, req);
      var c := CreateVolume(w, req, cm, sec, st.volumes);
      if c.Created? {
        CreateFits(plan, w, rn, req, st);
        GoneAttach(plan, w, req, c.vol, st.(volumes := c.volumes), id);
      }
    }
  }

  lemma {:induction false} GoneLoad(plan: Plan, w: World, st: State, names: seq<string>, id: string)
    requires Sound(plan, st) && Gone(plan, st, id)
    ensures Gone(plan, Load(w, st, names), id)
  {
    if names != [] {
      var init, name := names[..|names| - 1], names[|names| - 1];
      LoadSound(plan, w, st, init);
      GoneLoad(plan, w, st, init, id);
      var st1 := Load(w, st, init);
      if Loadable(st.disk, name) {
        var vol := st.disk[name].vol;
        AddVolumeSound(plan, vol, st1);
        GoneRegisterRangers(plan, w, vol, st1.(volumes := st1.volumes[vol.volID := vol]), id);
      }
    }
  }

  lemma GoneOther(plan: Plan, w: World, vid: string, target: Path, st: State, id: string)
    requires Sound(plan, st) && Gone(plan, st, id)
    ensures Gone(plan, Unpublish(w, vid, target, st).1, id)
    ensures Gone(plan, Prune(w, st), id)
  {
  }

  /** No call or event but its own publish request brings anything back for a volume that is gone. */
  lemma NextGone(plan: Plan, rn: ReservedNames, e: Event, st: State, id: string)
    requires Sound(plan, st) && Fits(plan, rn, e) && Gone(plan, st, id)
    requires e.step.PublishStep? ==> e.step.req.volumeId != id
    ensures Gone(plan, Next(rn, e, st), id)
  {
    if ShareEvent(e.step) {
      GoneShareEvent(plan, rn, e, st, id);
    } else {
      match e.step
      case PublishStep(req) => GonePublish(plan, rn, e.w, req, st, id);
      case UnpublishStep(vid, target) => GoneOther(plan, e.w, vid, target, st, id);
      case RestartStep(names) =>
        var st0 := st.(volumes := map[], secret := NO_CALLBACKS, configMap := NO_CALLBACKS);
        assert Sound(plan, st0);
        GoneLoad(plan, e.w, st0, names, id);
      case PruneStep => GoneOther(plan, e.w, "", "", st, id);
    }
  }

  /* ------------------------------------------------------------------ deleted from memory, whatever is left elsewhere */

  /** The volume has left the table; its directory, its record and its share-update entry may all be left. */
  ghost predicate Forgotten(plan: Plan, st: State, id: string) {
    id in plan && id !in st.volumes
  }

  /** Every deleteVolume gets there, also one whose directory or record could not be removed. */
  lemma UnpublishForgets(plan: Plan, w: World, id: string, target: Path, st: State)
    requires Sound(plan, st) && id in st.volumes && id != "" && target != "" && plan[id].anchorDir in st.mounts.Values
    ensures Unmounting(plan, Unpublish(w, id, target, st).1, id)
  {
  }

  lemma SweepForgotten(plan: Plan, w: World, rule: Rule, files: Files, vols: map<string, Vol>, ids: set<string>, id: string)
    requires PlanOK(plan) && VolumesFit(plan, vols) && id in plan && id !in vols
    ensures At(Sweep(w, rule, files, vols, ids), plan[id].targetPath) == At(files, plan[id].targetPath)
  {
    assert !Targeted(vols, ids, plan[id].targetPath);
    SweepOther(w, rule, files, vols, ids, plan[id].targetPath);
  }

  lemma FanOutForgotten(plan: Plan, w: World, kind: Kind, st: State, names: set<string>, id: string)
    requires Sound(plan, st) && Forgotten(plan, st, id)
    ensures Forgotten(plan, FanOut(w, kind, st, names), id)
    ensures At(FanOut(w, kind, st, names).files, plan[id].targetPath) == At(st.files, plan[id].targetPath)
  {
    SweepForgotten(plan, w, UpdateRule(kind), st.files, st.volumes, Naming(st.volumes, names), id);
  }

  lemma UpsertForgotten(plan: Plan, w: World, kind: Kind, ref: Ref, obj: Object, st: State, id: string)
    requires Sound(plan, st) && Forgotten(plan, st, id)
    ensures Forgotten(plan, UpsertObject(w, kind, ref, obj, st), id)
    ensures At(UpsertObject(w, kind, ref, obj, st).files, plan[id].targetPath) == At(st.files, plan[id].targetPath)
  {
    var st1 := FanOut(w, kind, st, Referring(w, kind, ref));
    FanOutForgotten(plan, w, kind, st, Referring(w, kind, ref), id);
    FanOutSound(plan, w, kind, st, Referring(w, kind, ref));
    CapturedFit(plan, st1, kind);
    hide Sweep, FanOut;
    var cbs := st1.Of(kind).upserts;
    SweepForgotten(plan, w, UpsertRule(Key(ref), ObjectPayload(kind, obj)), st1.files, cbs, cbs.Keys, id);
  }

  /** A share or object event neither brings such a volume back nor touches its directory. */
  lemma EventForgotten(plan: Plan, rn: ReservedNames, e: Event, st: State, id: string)
    requires Sound(plan, st) && Forgotten(plan, st, id) && ShareEvent(e.step)
    ensures Forgotten(plan, Next(rn, e, st), id)
    ensures At(Next(rn, e, st).files, plan[id].targetPath) == At(st.files, plan[id].targetPath)
  {
    hide Sweep;
    match e.step
    case ShareUpsert(kind, name, ref) => FanOutForgotten(plan, e.w, kind, st, {name}, id);
    case ShareDelete(kind, name) =>
      SweepForgotten(plan, e.w, ShareDeleteRule, st.files, st.volumes, Naming(st.volumes, {name}), id);
    case ObjectUpsert(kind, ref, obj) => UpsertForgotten(plan, e.w, kind, ref, obj, st, id);
    case ObjectDelete(kind, ref) =>
      CapturedFit(plan, st, kind);
      var cbs := st.Of(kind).deletes;
      SweepForgotten(plan, e.w, DeleteRule(Key(ref)), st.files, cbs, cbs.Keys, id);
  }

  /** Nor does publishing another volume. */
  lemma PublishForgotten(plan: Plan, rn: ReservedNames, w: World, req: Request, st: State, id: string)
    requires Sound(plan, st) && Forgotten(plan, st, id) && req.volumeId != id && Fits(plan, rn, Event(w, PublishStep(req)))
    ensures Forgotten(plan, Publish(w, rn, req, st).1, id)
    ensures At(Publish(w, rn, req, st).1.files, plan[id].targetPath) == At(st.files, plan[id].targetPath)
  {
    if Validate(w, rn, req).Passed? {
      var Passed(cm, sec) := Validate(w, rn, req);
      var c := CreateVolume(w, req, cm, sec, st.volumes);
      if c.Created? {
        CreateFits(plan, w, rn, req, st);
        AttachForgotten(plan, w, req, c.vol, st.(volumes := c.volumes), id);
      }
    }
  }

  lemma AttachForgotten(plan: Plan, w: World, req: Request, vol: Vol, st: State, id: string)
    requires Sound(plan, st) && Forgotten(plan, st, id) && vol.volID in st.volumes && st.volumes[vol.volID] == vol
    requires vol.targetPath == req.targetPath && vol.anchorDir == MountID(req)
    ensures Forgotten(plan, Attach(w, req, vol, st).1, id)
    ensures At(Attach(w, req, vol, st).1.files, plan[id].targetPath) == At(st.files, plan[id].targetPath)
  {
    hide MapBacking, RegisterRangers, Registered, DiskFits, MountsFit;
    assert plan[id].targetPath != vol.targetPath;
    var st1 := MountFresh(req, st);
    MapBackingForgotten(plan, w, vol, st1, id);
    MapBackingFrame(w, vol, st1);
    RangersForgotten(plan, w, vol, MapBacking(w, vol, st1).1, id);
  }

  lemma MapBackingForgotten(plan: Plan, w: World, vol: Vol, st: State, id: string)
    requires PlanOK(plan) && id in plan && vol.volID != id && vol.volID in plan && plan[vol.volID] == vol
    ensures At(MapBacking(w, vol, st).1.files, plan[id].targetPath) == At(st.files, plan[id].targetPath)
  {
    if vol.kind.Known? {
      var kind := vol.kind.kind;
      var share := w.GetShare(kind, vol.shareID);
      if share.Some? && w.Fetch(kind, share.value).Found? {
        SweepForgotten(plan, w, UpsertRule(Key(share.value), ObjectPayload(kind, w.Fetch(kind, share.value).obj)),
          st.files, map[vol.volID := vol], {vol.volID}, id);
      }
    }
  }

  lemma RangersForgotten(plan: Plan, w: World, vol: Vol, st: State, id: string)
    requires PlanOK(plan) && VolumesFit(plan, st.volumes) && Forgotten(plan, st, id)
    ensures Forgotten(plan, RegisterRangers(w, vol, st), id)
    ensures At(RegisterRangers(w, vol, st).files, plan[id].targetPath) == At(st.files, plan[id].targetPath)
  {
    hide Sweep, Denied, Dropped;
    if vol.kind.Known? {
      SweepForgotten(plan, w, UpdateRule(vol.kind.kind), st.files, st.volumes, Naming(st.volumes, {vol.shareID}), id);
    }
  }

  /** Nothing is mounted at the path of a forgotten volume. */
  ghost predicate Unmounting(plan: Plan, st: State, id: string) {
    Forgotten(plan, st, id) && plan[id].targetPath !in st.mounts
  }

  lemma UnpublishOthers(plan: Plan, w: World, vid: string, target: Path, st: State, id: string)
    requires Sound(plan, st) && Unmounting(plan, st, id)
    ensures Unmounting(plan, Unpublish(w, vid, target, st).1, id)
    ensures At(Unpublish(w, vid, target, st).1.files, plan[id].targetPath) == At(st.files, plan[id].targetPath)
  {
    hide Registered, DiskFits, Dropped;
  }

  lemma PruneOthers(plan: Plan, w: World, st: State, id: string)
    requires Unmounting(plan, st, id)
    ensures Unmounting(plan, Prune(w, st), id)
    ensures At(Prune(w, st).files, plan[id].targetPath) == At(st.files, plan[id].targetPath)
  {
    hide Orphans, PrunePanics;
  }

  lemma AttachMounts(w: World, req: Request, vol: Vol, st: State)
    ensures Attach(w, req, vol, st).1.mounts.Keys <= st.mounts.Keys + {req.targetPath}
  {
    hide MapBacking, RegisterRangers;
    var st1 := MountFresh(req, st);
    MapBackingFrame(w, vol, st1);
    RangersMounts(w, vol, MapBacking(w, vol, st1).1);
  }

  /** A publish of another volume mounts nothing at the path. */
  lemma PublishMounts(plan: Plan, rn: ReservedNames, w: World, req: Request, st: State, id: string)
    requires Sound(plan, st) && Forgotten(plan, st, id) && req.volumeId != id && Fits(plan, rn, Event(w, PublishStep(req)))
    ensures plan[id].targetPath in Publish(w, rn, req, st).1.mounts ==> plan[id].targetPath in st.mounts
  {
    hide Attach, Registered, DiskFits, MountsFit;
    if Validate(w, rn, req).Passed? {
      var Passed(cm, sec) := Validate(w, rn, req);
      var c := CreateVolume(w, req, cm, sec, st.volumes);
      if c.Created? {
        CreateFits(plan, w, rn, req, st);
        AttachMounts(w, req, c.vol, st.(volumes := c.volumes));
      }
    }
  }

  lemma RangersMounts(w: World, vol: Vol, st: State)
    ensures RegisterRangers(w, vol, st).mounts == st.mounts
  {
    hide Sweep, Decide, Naming, Denied, Dropped;
  }

  /** Every event but the volume's own publish and a restart; unpublishes and prunes count if nothing is mounted at its path. */
  predicate Elsewhere(e: Event, id: string, mounted: bool) {
    match e.step
    case PublishStep(req) => req.volumeId != id
    case UnpublishStep(_, _) => !mounted
    case PruneStep => !mounted
    case RestartStep(_) => false
    case _ => true
  }

  lemma NextForgotten(plan: Plan, rn: ReservedNames, e: Event, st: State, id: string)
    requires Sound(plan, st) && Fits(plan, rn, e) && Forgotten(plan, st, id)
    requires Elsewhere(e, id, plan[id].targetPath in st.mounts)
    ensures Forgotten(plan, Next(rn, e, st), id)
    ensures At(Next(rn, e, st).files, plan[id].targetPath) == At(st.files, plan[id].targetPath)
    ensures plan[id].targetPath in Next(rn, e, st).mounts ==> plan[id].targetPath in st.mounts
  {
    if ShareEvent(e.step) {
      hide Next, Sound;
      EventForgotten(plan, rn, e, st, id);
      ShareEventFrame(rn, e, st);
    } else {
      hide Publish, Unpublish, Prune, Sound;
      match e.step
      case PublishStep(req) =>
        PublishForgotten(plan, rn, e.w, req, st, id);
        PublishMounts(plan, rn, e.w, req, st, id);
      case UnpublishStep(vid, target) => UnpublishOthers(plan, e.w, vid, target, st, id);
      case PruneStep => PruneOthers(plan, e.w, st, id);
    }
  }

  /**
   * Deleted volumes are inert, however their deletion went: until the volume is published again or a restart
   * loads its record, no sequence of share and object events, of publishes and unpublishes of other volumes and
   * of prunes changes its target path. (For the last two its path must be unmounted, which every unpublish sees to.)
   */
  lemma {:induction false} DeletedIsInert(plan: Plan, rn: ReservedNames, trace: seq<Event>, st: State, id: string)
    requires Sound(plan, st) && Forgotten(plan, st, id)
    requires forall i :: 0 <= i < |trace| ==> Fits(plan, rn, trace[i]) && Elsewhere(trace[i], id, plan[id].targetPath in st.mounts)
    ensures Forgotten(plan, Run(rn, trace, st), id)
    ensures At(Run(rn, trace, st).files, plan[id].targetPath) == At(st.files, plan[id].targetPath)
    ensures plan[id].targetPath in Run(rn, trace, st).mounts ==> plan[id].targetPath in st.mounts
  {
    if trace != [] {
      hide Sound, Fits, Next, At;
      var init, e := trace[..|trace| - 1], trace[|trace| - 1];
      var mounted := plan[id].targetPath in st.mounts;
      forall i | 0 <= i < |init| ensures Fits(plan, rn, init[i]) && Elsewhere(init[i], id, mounted) { assert init[i] == trace[i]; }
      RunSound(plan, rn, init, st);
      DeletedIsInert(plan, rn, init, st, id);
      NextForgotten(plan, rn, e, Run(rn, init, st), id);
    }
  }

  /** After a complete unpublish even more: over every later run without their own publish request their path stays empty. */
  lemma {:induction false} DeletedStaysGone(plan: Plan, rn: ReservedNames, trace: seq<Event>, st: State, id: string)
    requires Sound(plan, st) && Gone(plan, st, id)
    requires forall i :: 0 <= i < |trace| ==> Fits(plan, rn, trace[i])
    requires forall i :: 0 <= i < |trace| && trace[i].step.PublishStep? ==> trace[i].step.req.volumeId != id
    ensures Gone(plan, Run(rn, trace, st), id)
  {
    if trace != [] {
      var init, e := trace[..|trace| - 1], trace[|trace| - 1];
      forall i | 0 <= i < |init|
        ensures Fits(plan, rn, init[i]) && (init[i].step.PublishStep? ==> init[i].step.req.volumeId != id)
      {
        assert init[i] == trace[i];
      }
      RunSound(plan, rn, init, st);
      DeletedStaysGone(plan, rn, init, st, id);
      NextGone(plan, rn, e, Run(rn, init, st), id);
    }
  }
}
