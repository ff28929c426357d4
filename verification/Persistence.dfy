/** The volume records on disk against the volumes in memory, over runs with restarts and pruning. */
module Persistence {
  import opened Cluster
  import opened Reservations
  import opened Sweeps
  import opened Requests
  import opened Machine
  import opened Registry
  import opened Provenance
  import opened Convergence
  import opened Calls

  /** Every record a restart would load is a volume in memory, field for field. */
  ghost predicate DiskKnown(st: State) {
    forall name :: Loadable(st.disk, name) ==> name in st.volumes && st.volumes[name] == st.disk[name].vol
  }

  /** The directory walk of a restart meets every loadable record. */
  ghost predicate WalksAll(disk: map<string, Record>, names: seq<string>) {
    forall name :: Loadable(disk, name) ==> name in names
  }

  /** File operations on the volume-map directory succeed where the invariant depends on them. */
  ghost predicate DiskWorks(e: Event, st: State) {
    && (e.step.UnpublishStep? ==> !e.w.removeFails)
    && (e.step.RestartStep? ==> WalksAll(st.disk, e.step.names))
  }

  lemma RegisterRangersFrame(w: World, vol: Vol, st: State)
    ensures
      var st1 := RegisterRangers(w, vol, st);
      st1.volumes == st.volumes && st1.disk == st.disk && st1.mounts == st.mounts
  {
    hide Sweep, Decide, Naming, Denied, Dropped;
  }

  /** The volumes a restart rebuilds are exactly the loadable records its walk meets. */
  lemma {:induction false} LoadRebuilds(w: World, st: State, names: seq<string>)
    ensures Load(w, st, names).disk == st.disk && Load(w, st, names).mounts == st.mounts
    ensures forall id :: id in Load(w, st, names).volumes <==>
      id in st.volumes || (id in names && Loadable(st.disk, id))
    ensures forall id :: id in names && Loadable(st.disk, id) ==> Load(w, st, names).volumes[id] == st.disk[id].vol
    ensures forall id :: id in st.volumes && !Loadable(st.disk, id) ==> Load(w, st, names).volumes[id] == st.volumes[id]
  {
    if names != [] {
      var init, name := names[..|names| - 1], names[|names| - 1];
      LoadRebuilds(w, st, init);
      assert names == init + [name];
      var st1 := Load(w, st, init);
      if Loadable(st.disk, name) {
        var vol := st.disk[name].vol;
        RegisterRangersFrame(w, vol, st1.(volumes := st1.volumes[vol.volID := vol]));
      }
      hide RegisterRangers;
    }
  }

  /** A restart registers every rebuilt volume for its share's events, and no volume for its object's events. */
  lemma {:induction false} LoadRegisters(w: World, st: State, names: seq<string>, kind: Kind)
    requires st.Of(kind).upserts == map[] && st.Of(kind).deletes == map[]
    ensures Load(w, st, names).Of(kind).upserts == map[] && Load(w, st, names).Of(kind).deletes == map[]
    ensures forall id :: id in Load(w, st, names).Of(kind).shareUpdates <==>
      id in st.Of(kind).shareUpdates || (id in names && Loadable(st.disk, id) && st.disk[id].vol.kind == Known(kind))
    ensures forall id :: id in Load(w, st, names).Of(kind).shareDeletes <==>
      id in st.Of(kind).shareDeletes || (id in names && Loadable(st.disk, id) && st.disk[id].vol.kind == Known(kind))
  {
    if names != [] {
      var init, name := names[..|names| - 1], names[|names| - 1];
      LoadRegisters(w, st, init, kind);
      assert names == init + [name];
      var st1 := Load(w, st, init);
      if Loadable(st.disk, name) {
        var vol := st.disk[name].vol;
        RegistersOne(w, vol, st1.(volumes := st1.volumes[vol.volID := vol]), kind);
      }
      hide RegisterRangers;
    }
  }

  lemma RegistersOne(w: World, vol: Vol, st: State, kind: Kind)
    requires st.Of(kind).upserts == map[] && st.Of(kind).deletes == map[]
    ensures
      var cbs := RegisterRangers(w, vol, st).Of(kind);
      var own := if vol.kind == Known(kind) then {vol.volID} else {};
      && cbs.upserts == map[] && cbs.deletes == map[]
      && cbs.shareUpdates == st.Of(kind).shareUpdates + own && cbs.shareDeletes == st.Of(kind).shareDeletes + own
  {
    if vol.kind.Known? {
      var st1 := Ranged(vol, vol.kind.kind, st);
      var ids := Naming(st.volumes, {vol.shareID});
      assert st1.Of(kind).upserts == map[] && st1.Of(kind).deletes == map[];
      PassKeepsNone(w, vol.kind.kind, st1, ids, kind);
      if w.GetShare(vol.kind.kind, vol.shareID).Some? {
        RangersArePass(w, vol, st);
        hide RegisterRangers, Pass;
      } else {
        assert RegisterRangers(w, vol, st) == st1;
        hide RegisterRangers, Pass;
      }
    }
  }

  lemma PassKeepsNone(w: World, passKind: Kind, st: State, ids: set<string>, kind: Kind)
    requires st.Of(kind).upserts == map[] && st.Of(kind).deletes == map[]
    ensures Pass(w, passKind, st, ids).Of(kind) == st.Of(kind)
  {
    hide Sweep, Denied;
    var denied := Denied(w, passKind, st.volumes, ids);
    assert st.Of(kind).upserts - denied == map[] && st.Of(kind).deletes - denied == map[];
  }

  /** A rebuilt volume whose share and object can be fetched shows what it should, in whatever order the walk goes. */
  lemma {:induction false} LoadReconciles(plan: Plan, w: World, st: State, names: seq<string>, id: string)
    requires Sound(plan, st) && id in plan && id in names && Loadable(st.disk, id) && Deliverable(w, plan[id])
    ensures Seen(plan, Load(w, st, names), id) == Desired(w, plan[id])
  {
    var init, name := names[..|names| - 1], names[|names| - 1];
    var st1 := Load(w, st, init);
    assert names == init + [name];
    assert Loadable(st.disk, name) ==>
      var vol := st.disk[name].vol;
      Load(w, st, names) == RegisterRangers(w, vol, st1.(volumes := st1.volumes[vol.volID := vol]));
    assert !Loadable(st.disk, name) ==> Load(w, st, names) == st1;
    hide Load, Sound, Deliverable, RegisterRangers, Desired, Seen;
    LoadSound(plan, w, st, init);
    LoadRebuilds(w, st, init);
    if id in init {
      LoadReconciles(plan, w, st, init, id);
    }
    if Loadable(st.disk, name) {
      LoadablePlanned(plan, st, name);
      LoadOneReconciles(plan, w, st.disk[name].vol, st1, id);
    }
  }

  lemma LoadOneReconciles(plan: Plan, w: World, vol: Vol, st: State, id: string)
    requires Sound(plan, st) && vol.volID in plan && plan[vol.volID] == vol && id in plan && Deliverable(w, plan[id])
    requires vol.volID == id || (id in st.volumes && Seen(plan, st, id) == Desired(w, plan[id]))
    ensures Seen(plan, RegisterRangers(w, vol, st.(volumes := st.volumes[vol.volID := vol])), id) == Desired(w, plan[id])
  {
    var st1 := st.(volumes := st.volumes[vol.volID := vol]);
    AddVolumeSound(plan, vol, st);
    hide RegisterRangers, Desired;
    if vol.volID == id {
      ReconcilesOwn(plan, w, vol, st1);
    } else {
      ReconcilesKeep(plan, w, vol, st1, id);
    }
  }

  lemma LoadablePlanned(plan: Plan, st: State, name: string)
    requires Sound(plan, st) && Loadable(st.disk, name)
    ensures name in plan && st.disk[name].vol == plan[name] && plan[name].volID == name
  {
  }

  lemma ReconcilesOwn(plan: Plan, w: World, vol: Vol, st: State)
    requires Sound(plan, st) && vol.volID in st.volumes && st.volumes[vol.volID] == vol && Deliverable(w, vol)
    ensures Seen(plan, RegisterRangers(w, vol, st), vol.volID) == Desired(w, vol)
  {
    var kind := vol.kind.kind;
    var st1 := Ranged(vol, kind, st);
    var ids := Naming(st.volumes, {vol.shareID});
    RangersArePass(w, vol, st);
    RangedFrame(vol, kind, st);
    SoundTargets(plan, st);
    assert vol.volID in ids;
    OwnPass(w, kind, st1, ids, vol.volID);
    hide Pass, Ranged, RegisterRangers;
  }

  lemma ReconcilesKeep(plan: Plan, w: World, vol: Vol, st: State, id: string)
    requires Sound(plan, st) && id in st.volumes && Deliverable(w, plan[id])
    requires Seen(plan, st, id) == Desired(w, plan[id])
    ensures Seen(plan, RegisterRangers(w, vol, st), id) == Desired(w, plan[id])
  {
    DeliverableResolves(w, plan[id]);
    if vol.kind.Known? {
      var kind := vol.kind.kind;
      RangedFrame(vol, kind, st);
      SoundTargets(plan, st);
      PassKeeps(w, kind, Ranged(vol, kind, st), Naming(st.volumes, {vol.shareID}), id);
      if w.GetShare(kind, vol.shareID).Some? {
        RangersArePass(w, vol, st);
        hide Pass, RegisterRangers;
      }
    }
  }

  /** Restart: the tables are rebuilt from the loadable records alone, and each deliverable volume is reconciled. */
  lemma RestartRecovers(plan: Plan, w: World, st: State, names: seq<string>)
    requires Sound(plan, st) && WalksAll(st.disk, names)
    ensures
      var st1 := Restart(w, st, names);
      && (forall id :: id in st1.volumes <==> Loadable(st.disk, id))
      && (forall id :: id in st1.volumes ==> st1.volumes[id] == st.disk[id].vol)
      && (forall k: Kind, id :: id in st1.Of(k).shareUpdates <==> id in st1.volumes && st1.volumes[id].kind == Known(k))
      && (forall k: Kind :: st1.Of(k).upserts == map[] && st1.Of(k).deletes == map[])
      && (forall id :: id in st1.volumes && Deliverable(w, plan[id]) ==> Seen(plan, st1, id) == Desired(w, plan[id]))
  {
    var st0 := st.(volumes := map[], secret := NO_CALLBACKS, configMap := NO_CALLBACKS);
    assert Sound(plan, st0);
    LoadRebuilds(w, st0, names);
    LoadRegisters(w, st0, names, Secret);
    LoadRegisters(w, st0, names, ConfigMap);
    var st1 := Restart(w, st, names);
    forall k: Kind ensures
      && st1.Of(k).upserts == map[] && st1.Of(k).deletes == map[]
      && forall id :: id in st1.Of(k).shareUpdates <==> id in st1.volumes && st1.volumes[id].kind == Known(k)
    {
      assert k == Secret || k == ConfigMap;
    }
    forall id | id in st1.volumes && Deliverable(w, plan[id]) ensures Seen(plan, st1, id) == Desired(w, plan[id]) {
      LoadReconciles(plan, w, st0, names, id);
    }
  }

  /* ------------------------------------------------------------------ disk within memory */

  lemma ShareEventDisk(rn: ReservedNames, e: Event, st: State)
    requires ShareEvent(e.step)
    ensures Next(rn, e, st).volumes == st.volumes && Next(rn, e, st).disk == st.disk
  {
    hide Sweep, Decide, Naming, Denied, Dropped, Referring;
  }

  lemma PublishDisk(plan: Plan, w: World, rn: ReservedNames, req: Request, st: State)
    requires Sound(plan, st) && Fits(plan, rn, Event(w, PublishStep(req))) && DiskKnown(st)
    ensures DiskKnown(Publish(w, rn, req, st).1)
  {
    if Validate(w, rn, req).Passed? {
      var Passed(cm, sec) := Validate(w, rn, req);
      var c := CreateVolume(w, req, cm, sec, st.volumes);
      if c.Created? {
        CreateFits(plan, w, rn, req, st);
        AttachDisk(w, req, c.vol, st.(volumes := c.volumes));
      }
    }
  }

  lemma AttachDisk(w: World, req: Request, vol: Vol, st: State)
    requires DiskKnown(st) && vol.volID in st.volumes && st.volumes[vol.volID] == vol
    ensures DiskKnown(Attach(w, req, vol, st).1)
  {
    var st1 := MountFresh(req, st);
    MapBackingFrame(w, vol, st1);
    RegisterRangersFrame(w, vol, MapBacking(w, vol, st1).1);
    hide MapBacking, RegisterRangers;
  }

  lemma OtherDisk(plan: Plan, w: World, id: string, target: Path, st: State)
    requires Sound(plan, st) && DiskKnown(st)
    ensures !w.removeFails ==> DiskKnown(Unpublish(w, id, target, st).1)
    ensures DiskKnown(Prune(w, st))
  {
    var st1 := Unpublish(w, id, target, st).1;
    if !w.removeFails {
      forall name | Loadable(st1.disk, name) ensures name in st1.volumes && st1.volumes[name] == st1.disk[name].vol {
        assert Loadable(st.disk, name);
      }
    }
    var st2 := Prune(w, st);
    forall name | Loadable(st2.disk, name) ensures name in st2.volumes && st2.volumes[name] == st2.disk[name].vol {
      assert Loadable(st.disk, name);
    }
  }

  lemma NextDisk(plan: Plan, rn: ReservedNames, e: Event, st: State)
    requires Sound(plan, st) && Fits(plan, rn, e) && DiskKnown(st) && DiskWorks(e, st)
    ensures DiskKnown(Next(rn, e, st))
  {
    if ShareEvent(e.step) {
      ShareEventDisk(rn, e, st);
    } else {
      match e.step
      case PublishStep(req) => PublishDisk(plan, e.w, rn, req, st);
      case UnpublishStep(id, target) => OtherDisk(plan, e.w, id, target, st);
      case RestartStep(names) =>
        LoadRebuilds(e.w, st.(volumes := map[], secret := NO_CALLBACKS, configMap := NO_CALLBACKS), names);
      case PruneStep => OtherDisk(plan, e.w, "", "", st);
    }
  }

  /** Over every run whose disk operations succeed, what a restart would load is what memory holds. */
  lemma {:induction false} RunDisk(plan: Plan, rn: ReservedNames, trace: seq<Event>, st: State)
    requires Sound(plan, st) && DiskKnown(st)
    requires forall i :: 0 <= i < |trace| ==> Fits(plan, rn, trace[i]) && DiskWorks(trace[i], Run(rn, trace[..i], st))
    ensures DiskKnown(Run(rn, trace, st))
  {
    if trace != [] {
      var init, e := trace[..|trace| - 1], trace[|trace| - 1];
      forall i | 0 <= i < |init| ensures Fits(plan, rn, init[i]) && DiskWorks(init[i], Run(rn, init[..i], st)) {
        assert init[i] == trace[i] && init[..i] == trace[..i];
      }
      RunSound(plan, rn, init, st);
      RunDisk(plan, rn, init, st);
      NextDisk(plan, rn, e, Run(rn, init, st));
    }
  }

  /* ------------------------------------------------------------------ pruning */

  /** A single removal of a prune, whatever the walk had collected and whatever has happened since. */
  lemma RemovalKeepsDisk(st: State, file: string, anchor: string)
    requires DiskKnown(st)
    ensures DiskKnown(Unmounted(st, {anchor}).(disk := st.disk - {file}))
  {
    var st1 := Unmounted(st, {anchor}).(disk := st.disk - {file});
    forall name | Loadable(st1.disk, name) ensures name in st1.volumes && st1.volumes[name] == st1.disk[name].vol {
      assert Loadable(st.disk, name);
    }
  }

  /** The calls and events of a run with single removals of running prunes anywhere in between. */
  datatype Move = Handle(e: Event) | Remove(file: string, anchor: string)

  ghost function NextMove(rn: ReservedNames, m: Move, st: State): State {
    match m
    case Handle(e) => Next(rn, e, st)
    case Remove(file, anchor) => Unmounted(st, {anchor}).(disk := st.disk - {file})
  }

  ghost function RunMoves(rn: ReservedNames, moves: seq<Move>, st: State): State {
    if moves == [] then st else NextMove(rn, moves[|moves| - 1], RunMoves(rn, moves[..|moves| - 1], st))
  }

  lemma RemovalSound(plan: Plan, st: State, file: string, anchor: string)
    requires Sound(plan, st)
    ensures Sound(plan, Unmounted(st, {anchor}).(disk := st.disk - {file}))
  {
  }

  /** Disk stays within memory over every interleaving of prune removals with calls, events and restarts. */
  lemma {:induction false} InterleavedPruneDisk(plan: Plan, rn: ReservedNames, moves: seq<Move>, st: State)
    requires Sound(plan, st) && DiskKnown(st)
    requires forall i :: 0 <= i < |moves| && moves[i].Handle? ==>
      Fits(plan, rn, moves[i].e) && DiskWorks(moves[i].e, RunMoves(rn, moves[..i], st))
    ensures Sound(plan, RunMoves(rn, moves, st)) && DiskKnown(RunMoves(rn, moves, st))
  {
    if moves != [] {
      var init, m := moves[..|moves| - 1], moves[|moves| - 1];
      forall i | 0 <= i < |init| && init[i].Handle?
        ensures Fits(plan, rn, init[i].e) && DiskWorks(init[i].e, RunMoves(rn, init[..i], st))
      {
        assert init[i] == moves[i] && init[..i] == moves[..i];
      }
      hide Sound, DiskKnown, Next, Unmounted;
      InterleavedPruneDisk(plan, rn, init, st);
      var mid := RunMoves(rn, init, st);
      match m
      case Handle(e) =>
        NextSound(plan, rn, e, mid);
        NextDisk(plan, rn, e, mid);
      case Remove(file, anchor) =>
        RemovalSound(plan, mid, file, anchor);
        RemovalKeepsDisk(mid, file, anchor);
    }
  }
}
