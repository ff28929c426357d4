/** Where the data in a volume comes from, over whole runs, and whether the pod was allowed to have it. */
module Provenance {
  import opened Text
  import opened Cluster
  import opened Reservations
  import opened Sweeps
  import opened Requests
  import opened Machine
  import opened Registry
  import opened Passes

  /** The contents are the payload of the object that the volume's share points to in this world. */
  ghost predicate ShareSupplies(w: World, kind: Kind, vol: Vol, c: Content) {
    var share := w.GetShare(kind, vol.shareID);
    share.Some? && Proceed(w, vol, Key(share.value)) &&
    var got := w.Fetch(kind, share.value);
    got.Found? && (c == SharePayload(got.obj) || c == ObjectPayload(kind, got.obj))
  }

  /** The contents are the payload of the object that the event itself carries. */
  ghost predicate EventSupplies(e: Event, vol: Vol, c: Content) {
    e.step.ObjectUpsert? && vol.kind == Known(e.step.kind) && Proceed(e.w, vol, Key(e.step.ref))
    && c == ObjectPayload(e.step.kind, e.step.obj)
  }

  ghost predicate Supplies(e: Event, vol: Vol, c: Content) {
    (exists kind: Kind :: ShareSupplies(e.w, kind, vol, c)) || EventSupplies(e, vol, c)
  }

  /** The first phase of an upsert reviews the volume: its share is listed, refers to the object, and the object is fetched. */
  ghost predicate Reaches(w: World, kind: Kind, ref: Ref, vol: Vol) {
    vol.shareID in Referring(w, kind, ref) && w.Fetch(kind, ref).Found?
  }

  /** An upsert whose second phase serves a volume that the first phase did not review. */
  ghost predicate Leaky(e: Event, vol: Vol) {
    e.step.ObjectUpsert? && vol.kind == Known(e.step.kind) && Proceed(e.w, vol, Key(e.step.ref))
    && !Reaches(e.w, e.step.kind, e.step.ref, vol)
  }

  /** The event wrote these contents, while the pod was allowed or without asking. */
  ghost predicate Written(e: Event, vol: Vol, c: Content) {
    || (Supplies(e, vol, c) && Allowed(e.w, vol))
    || (EventSupplies(e, vol, c) && Leaky(e, vol))
  }

  /** What one event may turn the contents of a volume into: nothing new, nothing at all, or what it wrote. */
  ghost predicate Moves(e: Event, vol: Vol, before: Content, after: Content) {
    after == before || after == map[] || Written(e, vol, after)
  }

  /** What the pod of a planned volume sees. */
  ghost function Seen(plan: Plan, st: State, id: string): Content
    requires id in plan
  {
    Shown(st.files, plan[id].targetPath)
  }

  /** A sweep changes a planned volume only by that volume's own decision. */
  lemma SweepMoves(plan: Plan, w: World, rule: Rule, files: Files, vols: map<string, Vol>, ids: set<string>, id: string)
    requires PlanOK(plan) && VolumesFit(plan, vols) && id in plan
    ensures
      var path := plan[id].targetPath;
      var after := Shown(Sweep(w, rule, files, vols, ids), path);
      after == Shown(files, path) || after == map[]
      || (id in ids && id in vols && Decide(w, rule, plan[id]) == Put(after))
  {
    var path := plan[id].targetPath;
    SweepAt(w, rule, files, vols, ids, path);
    var f := Sweep(w, rule, files, vols, ids);
    assert At(f, path) == Swept(w, rule, files, vols, ids, path);
    assert Shown(f, path) == if At(f, path).Some? then At(f, path).value else map[];
    if Targeted(vols, ids, path) {
      assert Owner(vols, ids, path) == id;
    }
  }

  lemma UpdatePutSupplies(w: World, kind: Kind, vol: Vol, c: Content)
    requires Decide(w, UpdateRule(kind), vol) == Put(c)
    ensures Allowed(w, vol) && ShareSupplies(w, kind, vol, c)
  {
  }

  lemma PassMoves(plan: Plan, e: Event, kind: Kind, st: State, ids: set<string>, id: string)
    requires Sound(plan, st) && id in plan
    ensures Moves(e, plan[id], Seen(plan, st, id), Seen(plan, Pass(e.w, kind, st, ids), id))
  {
    SweepMoves(plan, e.w, UpdateRule(kind), st.files, st.volumes, ids, id);
    var after := Seen(plan, Pass(e.w, kind, st, ids), id);
    if Decide(e.w, UpdateRule(kind), plan[id]) == Put(after) {
      UpdatePutSupplies(e.w, kind, plan[id], after);
    }
  }

  lemma FanOutMoves(plan: Plan, e: Event, kind: Kind, st: State, names: set<string>, id: string)
    requires Sound(plan, st) && id in plan
    ensures Moves(e, plan[id], Seen(plan, st, id), Seen(plan, FanOut(e.w, kind, st, names), id))
  {
    PassMoves(plan, e, kind, st, Naming(st.volumes, names), id);
  }

  lemma CapturedFit(plan: Plan, st: State, kind: Kind)
    requires Sound(plan, st)
    ensures VolumesFit(plan, st.Of(kind).upserts) && VolumesFit(plan, st.Of(kind).deletes)
    ensures st.Of(kind).upserts.Keys <= st.volumes.Keys && st.Of(kind).deletes.Keys <= st.volumes.Keys
    ensures forall id :: id in st.Of(kind).upserts ==> plan[id].kind == Known(kind)
  {
    assert Registered(st.volumes, kind, st.Of(kind));
  }

  /** A volume that the first phase reviews and denies has no callback left for the second phase. */
  lemma DeniedIsDropped(plan: Plan, w: World, kind: Kind, ref: Ref, st: State, id: string)
    requires Sound(plan, st) && id in plan
    requires Reaches(w, kind, ref, plan[id]) && !Allowed(w, plan[id])
    ensures id !in FanOut(w, kind, st, Referring(w, kind, ref)).Of(kind).upserts
  {
    hide Sound, Pass, Decide, Referring;
    if id in st.Of(kind).upserts {
      RegisteredVolume(plan, kind, st, id);
      var ids := Naming(st.volumes, Referring(w, kind, ref));
      assert id in ids;
      ReviewedIsCleared(w, kind, ref, plan[id]);
      PassOwn(w, kind, st, ids, id);
    } else {
      FanOutOnlyDrops(w, kind, st, Referring(w, kind, ref));
    }
  }

  lemma RegisteredVolume(plan: Plan, kind: Kind, st: State, id: string)
    requires Sound(plan, st) && id in st.Of(kind).upserts
    ensures DistinctTargets(st.volumes) && st.Of(kind).shareUpdates != {}
    ensures id in plan && id in st.volumes && st.volumes[id] == plan[id] && plan[id].volID == id
  {
    SoundTargets(plan, st);
    assert Registered(st.volumes, kind, st.Of(kind));
  }

  lemma ReviewedIsCleared(w: World, kind: Kind, ref: Ref, vol: Vol)
    requires Reaches(w, kind, ref, vol) && !Allowed(w, vol)
    ensures Decide(w, UpdateRule(kind), vol) == Clear
  {
    ListedIsGettable(w, kind, vol.shareID);
  }

  lemma FanOutOnlyDrops(w: World, kind: Kind, st: State, names: set<string>)
    ensures FanOut(w, kind, st, names).Of(kind).upserts.Keys <= st.Of(kind).upserts.Keys
  {
    hide Sweep, Denied, Naming;
  }

  lemma CallUpsertsMoves(plan: Plan, e: Event, st: State, id: string)
    requires Sound(plan, st) && id in plan && e.step.ObjectUpsert?
    requires id in st.Of(e.step.kind).upserts && !Allowed(e.w, plan[id]) ==> !Reaches(e.w, e.step.kind, e.step.ref, plan[id])
    ensures Moves(e, plan[id], Seen(plan, st, id), Seen(plan, CallUpserts(e.w, e.step.kind, e.step.ref, e.step.obj, st), id))
  {
    hide Sweep;
    var ObjectUpsert(kind, ref, obj) := e.step;
    CapturedFit(plan, st, kind);
    var cbs := st.Of(kind).upserts;
    SweepMoves(plan, e.w, UpsertRule(Key(ref), ObjectPayload(kind, obj)), st.files, cbs, cbs.Keys, id);
  }

  lemma UpsertMoves(plan: Plan, e: Event, st: State, id: string)
    requires Sound(plan, st) && id in plan && e.step.ObjectUpsert?
    ensures Moves(e, plan[id], Seen(plan, st, id), Seen(plan, UpsertObject(e.w, e.step.kind, e.step.ref, e.step.obj, st), id))
  {
    var ObjectUpsert(kind, ref, obj) := e.step;
    var names := Referring(e.w, kind, ref);
    var st1 := FanOut(e.w, kind, st, names);
    FanOutMoves(plan, e, kind, st, names, id);
    FanOutSound(plan, e.w, kind, st, names);
    if Reaches(e.w, kind, ref, plan[id]) && !Allowed(e.w, plan[id]) {
      DeniedIsDropped(plan, e.w, kind, ref, st, id);
    }
    CallUpsertsMoves(plan, e, st1, id);
  }

  lemma DeleteShareMoves(plan: Plan, w: World, kind: Kind, name: string, st: State, id: string)
    requires Sound(plan, st) && id in plan
    ensures Seen(plan, DeleteShare(w, kind, name, st), id) in {Seen(plan, st, id), map[]}
  {
    hide Sweep;
    SweepMoves(plan, w, ShareDeleteRule, st.files, st.volumes, Naming(st.volumes, {name}), id);
  }

  lemma DeleteObjectMoves(plan: Plan, w: World, kind: Kind, ref: Ref, st: State, id: string)
    requires Sound(plan, st) && id in plan
    ensures Seen(plan, DeleteObject(w, kind, ref, st), id) in {Seen(plan, st, id), map[]}
  {
    hide Sweep;
    CapturedFit(plan, st, kind);
    var cbs := st.Of(kind).deletes;
    SweepMoves(plan, w, DeleteRule(Key(ref)), st.files, cbs, cbs.Keys, id);
  }

  lemma RegisterRangersMoves(plan: Plan, e: Event, vol: Vol, st: State, id: string)
    requires PlanOK(plan) && VolumesFit(plan, st.volumes) && id in plan
    ensures Moves(e, plan[id], Seen(plan, st, id), Seen(plan, RegisterRangers(e.w, vol, st), id))
  {
    hide Sweep;
    if vol.kind.Known? && e.w.GetShare(vol.kind.kind, vol.shareID).Some? {
      var kind := vol.kind.kind;
      SweepMoves(plan, e.w, UpdateRule(kind), st.files, st.volumes, Naming(st.volumes, {vol.shareID}), id);
      var after := Seen(plan, RegisterRangers(e.w, vol, st), id);
      if Decide(e.w, UpdateRule(kind), plan[id]) == Put(after) {
        UpdatePutSupplies(e.w, kind, plan[id], after);
      }
    }
  }

  lemma MapBackingMoves(plan: Plan, e: Event, vol: Vol, st: State, id: string)
    requires Sound(plan, st) && id in plan && vol.volID in plan && plan[vol.volID] == vol && Allowed(e.w, vol)
    ensures Moves(e, plan[id], Seen(plan, st, id), Seen(plan, MapBacking(e.w, vol, st).1, id))
  {
    hide Mapped, Moves, Sound;
    if vol.kind.Known? {
      var kind := vol.kind.kind;
      var share := e.w.GetShare(kind, vol.shareID);
      if share.Some? && e.w.Fetch(kind, share.value).Found? {
        MappedMoves(plan, e, kind, share.value, vol, st, id);
      }
    }
    StaysMoves(e, plan[id], Seen(plan, st, id));
  }

  lemma StaysMoves(e: Event, vol: Vol, c: Content)
    ensures Moves(e, vol, c, c)
  {
  }

  lemma MappedMoves(plan: Plan, e: Event, kind: Kind, ref: Ref, vol: Vol, st: State, id: string)
    requires Sound(plan, st) && id in plan && vol.volID in plan && plan[vol.volID] == vol && Allowed(e.w, vol)
    requires vol.kind == Known(kind) && e.w.GetShare(kind, vol.shareID) == Some(ref) && e.w.Fetch(kind, ref).Found?
    ensures Moves(e, plan[id], Seen(plan, st, id), Seen(plan, Mapped(e.w, kind, ref, e.w.Fetch(kind, ref).obj, vol, st), id))
  {
    hide Sweep, Registered, DiskFits, MountsFit;
    var obj := e.w.Fetch(kind, ref).obj;
    var own := map[vol.volID := vol];
    assert ShareSupplies(e.w, kind, vol, ObjectPayload(kind, obj));
    SweepMoves(plan, e.w, UpsertRule(Key(ref), ObjectPayload(kind, obj)), st.files, own, {vol.volID}, id);
  }

  /** Two consecutive moves within one event are a move. */
  lemma AttachMoves(plan: Plan, e: Event, req: Request, vol: Vol, st: State, id: string)
    requires Sound(plan, st) && id in plan && vol.volID in st.volumes && st.volumes[vol.volID] == vol && Allowed(e.w, vol)
    requires vol.targetPath == req.targetPath && vol.anchorDir == MountID(req)
    ensures Moves(e, plan[id], Seen(plan, st, id), Seen(plan, Attach(e.w, req, vol, st).1, id))
  {
    if !e.w.FsFails(req.targetPath) && req.targetPath !in st.mounts {
      var st1 := MountFresh(req, st);
      MountSound(plan, req, vol, st);
      MapBackingMoves(plan, e, vol, st1, id);
      MapBackingFrame(e.w, vol, st1);
      var (code, st2) := MapBacking(e.w, vol, st1);
      if code == OK {
        RegisterRangersMoves(plan, e, vol, st2, id);
      }
    }
  }

  lemma PublishMoves(plan: Plan, rn: ReservedNames, e: Event, st: State, id: string)
    requires Sound(plan, st) && Fits(plan, rn, e) && id in plan && e.step.PublishStep?
    ensures Moves(e, plan[id], Seen(plan, st, id), Seen(plan, Publish(e.w, rn, e.step.req, st).1, id))
  {
    var req := e.step.req;
    if Validate(e.w, rn, req).Passed? {
      var Passed(cm, sec) := Validate(e.w, rn, req);
      var c := CreateVolume(e.w, req, cm, sec, st.volumes);
      if c.Created? {
        CreateFits(plan, e.w, rn, req, st);
        AttachMoves(plan, e, req, c.vol, st.(volumes := c.volumes), id);
      }
    }
  }

  lemma {:induction false} LoadMoves(plan: Plan, e: Event, st: State, names: seq<string>, id: string)
    requires Sound(plan, st) && id in plan
    ensures Moves(e, plan[id], Seen(plan, st, id), Seen(plan, Load(e.w, st, names), id))
  {
    if names != [] {
      var init, name := names[..|names| - 1], names[|names| - 1];
      LoadSound(plan, e.w, st, init);
      LoadMoves(plan, e, st, init, id);
      var st1 := Load(e.w, st, init);
      if Loadable(st.disk, name) {
        var vol := st.disk[name].vol;
        AddVolumeSound(plan, vol, st1);
        RegisterRangersMoves(plan, e, vol, st1.(volumes := st1.volumes[vol.volID := vol]), id);
      }
    }
  }

  lemma UnpublishMoves(plan: Plan, w: World, vid: string, target: Path, st: State, id: string)
    requires Sound(plan, st) && id in plan
    ensures Seen(plan, Unpublish(w, vid, target, st).1, id) in {Seen(plan, st, id), map[]}
  {
  }

  lemma ShareEventMoves(plan: Plan, rn: ReservedNames, e: Event, st: State, id: string)
    requires Sound(plan, st) && id in plan && ShareEvent(e.step)
    ensures Moves(e, plan[id], Seen(plan, st, id), Seen(plan, Next(rn, e, st), id))
  {
    match e.step
    case ShareUpsert(kind, name, ref) => FanOutMoves(plan, e, kind, st, {name}, id);
    case ShareDelete(kind, name) => DeleteShareMoves(plan, e.w, kind, name, st, id);
    case ObjectUpsert(kind, ref, obj) => UpsertMoves(plan, e, st, id);
    case ObjectDelete(kind, ref) => DeleteObjectMoves(plan, e.w, kind, ref, st, id);
  }

  /** No step puts anything into a volume except what its share or the event supplies, after a review or in a leaky upsert. */
  lemma StepMoves(plan: Plan, rn: ReservedNames, e: Event, st: State, id: string)
    requires Sound(plan, st) && Fits(plan, rn, e) && id in plan
    ensures Moves(e, plan[id], Seen(plan, st, id), Seen(plan, Next(rn, e, st), id))
  {
    if ShareEvent(e.step) {
      ShareEventMoves(plan, rn, e, st, id);
    } else {
      match e.step
      case PublishStep(req) => PublishMoves(plan, rn, e, st, id);
      case UnpublishStep(vid, target) => UnpublishMoves(plan, e.w, vid, target, st, id);
      case RestartStep(names) =>
        var st0 := st.(volumes := map[], secret := NO_CALLBACKS, configMap := NO_CALLBACKS);
        assert Sound(plan, st0);
        LoadMoves(plan, e, st0, names, id);
      case PruneStep => PruneMoves(plan, e.w, st, id);
    }
  }

  lemma PruneMoves(plan: Plan, w: World, st: State, id: string)
    requires Sound(plan, st) && id in plan
    ensures Seen(plan, Prune(w, st), id) in {Seen(plan, st, id), map[]}
  {
  }

  /** The contents are empty, or some event of the run wrote them. */
  ghost predicate Justified(trace: seq<Event>, vol: Vol, c: Content) {
    c == map[] || exists j :: 0 <= j < |trace| && Written(trace[j], vol, c)
  }

  /**
   * Provenance: after any run from empty targets, what a volume shows is nothing, or was written by an
   * event of the run as the payload of an object the volume's own share points to, in a world whose
   * access review allowed the pod, or by an upsert whose first phase did not review the volume.
   */
  lemma {:induction false} Provenance(plan: Plan, rn: ReservedNames, trace: seq<Event>, st: State, id: string)
    requires Sound(plan, st) && id in plan
    requires forall i :: 0 <= i < |trace| ==> Fits(plan, rn, trace[i])
    requires Seen(plan, st, id) == map[]
    ensures Justified(trace, plan[id], Seen(plan, Run(rn, trace, st), id))
  {
    if trace != [] {
      var init, e := trace[..|trace| - 1], trace[|trace| - 1];
      forall i | 0 <= i < |init| ensures Fits(plan, rn, init[i]) { assert init[i] == trace[i]; }
      RunSound(plan, rn, init, st);
      Provenance(plan, rn, init, st, id);
      var mid := Run(rn, init, st);
      StepMoves(plan, rn, e, mid, id);
      var before := Seen(plan, mid, id);
      var after := Seen(plan, Next(rn, e, mid), id);
      if after == before && before != map[] {
        var j :| 0 <= j < |init| && Written(init[j], plan[id], before);
        assert Written(trace[j], plan[id], after);
      }
    }
  }

  /** Over runs whose upserts review every volume they serve, all data was supplied while the pod was allowed. */
  lemma AllowedProvenance(plan: Plan, rn: ReservedNames, trace: seq<Event>, st: State, id: string)
    requires Sound(plan, st) && id in plan
    requires forall i :: 0 <= i < |trace| ==> Fits(plan, rn, trace[i]) && !Leaky(trace[i], plan[id])
    requires Seen(plan, st, id) == map[]
    ensures
      var c := Seen(plan, Run(rn, trace, st), id);
      c != map[] ==> exists j :: 0 <= j < |trace| && Supplies(trace[j], plan[id], c) && Allowed(trace[j].w, plan[id])
  {
    Provenance(plan, rn, trace, st, id);
    var c := Seen(plan, Run(rn, trace, st), id);
    if c != map[] {
      var j :| 0 <= j < |trace| && Written(trace[j], plan[id], c);
    }
  }

  /**
   * The write rule over whole runs: a step whose access review denies the pod leaves the volume as it was
   * or empty, in every step of every run, except for upserts that serve a volume they did not review.
   */
  lemma WriteRule(plan: Plan, rn: ReservedNames, trace: seq<Event>, st: State, id: string, i: nat)
    requires Sound(plan, st) && id in plan && i < |trace|
    requires forall j :: 0 <= j < |trace| ==> Fits(plan, rn, trace[j])
    requires !Allowed(trace[i].w, plan[id]) && !Leaky(trace[i], plan[id])
    ensures Seen(plan, Run(rn, trace[..i + 1], st), id) in {Seen(plan, Run(rn, trace[..i], st), id), map[]}
  {
    var init := trace[..i];
    assert trace[..i + 1][..i] == init;
    forall j | 0 <= j < |init| ensures Fits(plan, rn, init[j]) { assert init[j] == trace[j]; }
    RunSound(plan, rn, init, st);
    StepMoves(plan, rn, trace[i], Run(rn, init, st), id);
    hide Next, Sound, Leaky;
  }
}
