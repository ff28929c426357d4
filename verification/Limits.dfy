/** Where the driver falls short of the simple specification, as facts about particular or all histories. */
module Limits {
  import opened Text
  import opened Cluster
  import opened Reservations
  import opened Sweeps
  import opened Requests
  import opened Machine
  import opened Registry
  import opened Passes
  import opened Provenance
  import opened Upserts
  import opened Convergence
  import opened Deletions
  import opened Calls
  import opened Persistence

  /* ------------------------------------------------------------------ one volume, three worlds */

  const REF := Ref("team", "password")
  const OLD_DATA: Content := map["key" := [1]]
  const NEW_DATA: Content := map["key" := [2]]
  const VOL := Vol("v", "ns-pod-v", "/pods/v", Known(Secret), "s", "ns", "pod", "uid", "sa", true)
  const PLAN: Plan := map["v" := VOL]

  /** The volume is published, with all its callbacks, and shows the old data. */
  const SERVED := State(map["v" := VOL],
    Callbacks(map["v" := VOL], map["v" := VOL], {"v"}, {"v"}), Callbacks(map[], map[], {"other"}, {}),
    map["/pods/v" := OLD_DATA], map["v" := Record(VOL)], map["/pods/v" := "ns-pod-v"])

  const NOTHING := Source(map[], map[], map[], map[], {})

  /** A cluster with the share and, if there is one, its object. */
  function Holding(objects: map<Ref, Object>, allowed: set<Review>): World {
    World(Source(map["s" := REF], map["s" := REF], objects, objects, {}), NOTHING, allowed, {}, {},
      false, false, false, false, {}, true, {})
  }

  const GRANTED: set<Review> := {Review(Known(Secret), "s", "ns", "sa")}

  lemma ServedSound()
    ensures Sound(PLAN, SERVED)
  {
    assert forall name :: Loadable(SERVED.disk, name) ==> name == "v";
  }

  /** When a Secret becomes empty, its old keys stay in the volume although the specification is an empty volume. */
  lemma EmptiedObjectStays()
    ensures
      var w := Holding(map[REF := Object(map[], map[])], GRANTED);
      && Resolves(w, VOL) && Desired(w, VOL) == map[]
      && Seen(PLAN, AddShare(w, Secret, "s", REF, SERVED), "v") == OLD_DATA
  {
    hide AddShare, Sound;
    var w := Holding(map[REF := Object(map[], map[])], GRANTED);
    ServedSound();
    assert SharePayload(Object(map[], map[])) == map[];
    ShareEventExactly(PLAN, w, Secret, "s", REF, SERVED, "v");
  }

  /** An upsert for an object that cannot be fetched any more is still written to a volume whose pod is denied. */
  lemma UnfetchableUpsertReachesDenied()
    ensures
      var w := Holding(map[], {});
      && !Allowed(w, VOL)
      && Shown(UpsertObject(w, Secret, REF, Object(NEW_DATA, map[]), SERVED).files, "/pods/v") == NEW_DATA
  {
    hide UpsertObject, Sound;
    var w := Holding(map[], {});
    var st1 := UpsertObject(w, Secret, REF, Object(NEW_DATA, map[]), SERVED);
    ServedSound();
    assert Key(REF) == Key(w.GetShare(Secret, "s").value);
    assert !Reaches(w, Secret, REF, VOL);
    assert "key" in NEW_DATA;
    UpsertDeniedExactly(PLAN, w, Secret, REF, Object(NEW_DATA, map[]), SERVED, "v");
    ShownAt(st1.files, "/pods/v");
  }

  /** An event of a SharedConfigMap with the name and the reference of the volume's SharedSecret puts the ConfigMap's data in it. */
  lemma TwinShareReplacesData()
    ensures
      var w := Holding(map[REF := Object(OLD_DATA, map[])], GRANTED)
        .(configMaps := Source(map["s" := REF], map["s" := REF], map[REF := Object(NEW_DATA, map[])], map[], {}));
      && Resolves(w, VOL) && Desired(w, VOL) == OLD_DATA == Seen(PLAN, SERVED, "v")
      && Seen(PLAN, AddShare(w, ConfigMap, "s", REF, SERVED), "v") != OLD_DATA
  {
    hide AddShare, Sound;
    var w := Holding(map[REF := Object(OLD_DATA, map[])], GRANTED)
      .(configMaps := Source(map["s" := REF], map["s" := REF], map[REF := Object(NEW_DATA, map[])], map[], {}));
    ServedSound();
    assert OLD_DATA + map[] == OLD_DATA && NEW_DATA + map[] == NEW_DATA;
    assert "key" in NEW_DATA && NEW_DATA["key"] != OLD_DATA["key"];
    OtherKindEventExactly(PLAN, w, ConfigMap, "s", REF, SERVED, "v");
  }

  /* ------------------------------------------------------------------ all histories */

  /** After a restart, no deletion of a backing object changes anything: the delete callbacks are not registered again. */
  lemma RestartMissesObjectDeletions(w0: World, st: State, names: seq<string>, w: World, kind: Kind, ref: Ref)
    ensures DeleteObject(w, kind, ref, Restart(w0, st, names)) == Restart(w0, st, names)
  {
    var st1 := Restart(w0, st, names);
    LoadRegisters(w0, st.(volumes := map[], secret := NO_CALLBACKS, configMap := NO_CALLBACKS), names, kind);
    assert st1.Of(kind).deletes == map[];
    hide Restart, Sweep;
    SweepNone(w, DeleteRule(Key(ref)), st1.files, st1.Of(kind).deletes);
  }

  /** Nor does one reach a volume whose pod lost its permission and got it back: its data is restored, its callback is not. */
  lemma RegainedPermissionMissesDeletion(plan: Plan, lost: World, regained: World, w: World, kind: Kind, ref: Ref, st: State, id: string)
    requires Sound(plan, st) && Published(st, id) && plan[id].kind == Known(kind)
    requires !Allowed(lost, plan[id]) && lost.GetShare(kind, plan[id].shareID) == Some(ref) && lost.Fetch(kind, ref).Found?
    requires Allowed(regained, plan[id]) && regained.GetShare(kind, plan[id].shareID) == Some(ref) && regained.Fetch(kind, ref).Found?
    requires !w.FsFails(plan[id].targetPath)
    ensures
      var st1 := AddShare(regained, kind, plan[id].shareID, ref, AddShare(lost, kind, plan[id].shareID, ref, st));
      Seen(plan, DeleteObject(w, kind, ref, st1), id) == Seen(plan, st1, id)
  {
    var name := plan[id].shareID;
    var st0 := AddShare(lost, kind, name, ref, st);
    var st1 := AddShare(regained, kind, name, ref, st0);
    AddShareUnregisters(plan, lost, kind, name, ref, st, id);
    AddShareKeeps(plan, regained, kind, name, ref, st0, id);
    hide AddShare, DeleteObject, Sound;
    if Seen(plan, st1, id) != map[] {
      DeleteObjectExactly(plan, w, kind, ref, st1, id);
    } else {
      DeleteObjectMoves(plan, w, kind, ref, st1, id);
    }
  }

  lemma AddShareUnregisters(plan: Plan, w: World, kind: Kind, name: string, ref: Ref, st: State, id: string)
    requires Sound(plan, st) && Published(st, id) && plan[id].kind == Known(kind) && plan[id].shareID == name
    requires !Allowed(w, plan[id]) && w.GetShare(kind, name) == Some(ref) && w.Fetch(kind, ref).Found?
    ensures
      var st1 := AddShare(w, kind, name, ref, st);
      Sound(plan, st1) && id in st1.volumes && id !in st1.Of(kind).deletes
  {
    FanOutSound(plan, w, kind, st, {name});
    SoundTargets(plan, st);
    assert id in Naming(st.volumes, {name});
    PassOwn(w, kind, st, Naming(st.volumes, {name}), id);
    PassFrame(w, kind, st, Naming(st.volumes, {name}));
    hide Pass, Sound;
  }

  lemma AddShareKeeps(plan: Plan, w: World, kind: Kind, name: string, ref: Ref, st: State, id: string)
    requires Sound(plan, st) && id in st.volumes && id !in st.Of(kind).deletes
    ensures
      var st1 := AddShare(w, kind, name, ref, st);
      Sound(plan, st1) && id in st1.volumes && id !in st1.Of(kind).deletes
  {
    FanOutSound(plan, w, kind, st, {name});
    hide Sweep, Sound;
  }

  /**
   * Deleting a share empties the volumes of the other kind that have its name, and adding it back does not
   * restore them, unless the two shares are twins.
   */
  lemma OtherKindDeleteIsNotRestored(plan: Plan, w: World, kind: Kind, name: string, ref: Ref, st: State, id: string)
    requires Sound(plan, st) && id in st.volumes && plan[id].kind == Known(OtherKind(kind)) && plan[id].shareID == name
    requires id != "" && !w.FsFails(plan[id].targetPath) && st.Of(kind).shareDeletes != {}
    requires w.GetShare(kind, name) == Some(ref) && NoTwin(w, plan[id])
    ensures Seen(plan, AddShare(w, kind, name, ref, DeleteShare(w, kind, name, st)), id) == map[]
  {
    var st1 := DeleteShare(w, kind, name, st);
    DeleteShareExactly(plan, w, kind, name, st, id);
    FilesSound(plan, st, st1);
    hide AddShare, DeleteShare, Sound, Decide;
    NamedEventShows(plan, w, kind, name, ref, st1, id);
    OtherKindDecides(w, kind, ref, plan[id]);
  }

  /** A publish that fails only to store its record is not completed by a retry, although the retry succeeds. */
  lemma RetryDoesNotStore(plan: Plan, w: World, rn: ReservedNames, req: Request, st: State)
    requires Sound(plan, st) && Fits(plan, rn, Event(w, PublishStep(req))) && !StoreReports(w)
    requires Validate(w, rn, req).Passed? && req.targetPath !in st.mounts && req.volumeId !in st.disk
    requires req.volumeId in st.volumes || !w.FsFails(MountID(req))
    requires !w.FsFails(req.targetPath)
    ensures
      var (code, st1) := Publish(w, rn, req, st);
      var (code', st2) := Publish(w.(createFails := false, writeFails := false), rn, req, st1);
      code == Internal && code' == OK && !Complete(st2, req.volumeId)
  {
    var Passed(cm, sec) := Validate(w, rn, req);
    CreateVolumeOutcome(w, rn, req, st);
    var c := CreateVolume(w, req, cm, sec, st.volumes);
    CreateFits(plan, w, rn, req, st);
    RequestedShare(plan, w, rn, req);
    AttachWithoutDisk(w, req, c.vol, st.(volumes := c.volumes));
    SameChecks(w, rn, req);
    var st1 := Publish(w, rn, req, st).1;
    assert st1 == Attach(w, req, c.vol, st.(volumes := c.volumes)).1;
    hide Validate, Sound, Fits;
    assert st1.(volumes := st1.volumes) == st1;
  }

  lemma AttachWithoutDisk(w: World, req: Request, vol: Vol, st: State)
    requires !StoreReports(w) && !w.FsFails(req.targetPath) && req.targetPath !in st.mounts
    requires vol.kind.Known? && w.GetShare(vol.kind.kind, vol.shareID).Some?
    ensures
      var (code, st1) := Attach(w, req, vol, st);
      && code == Internal && st1.volumes == st.volumes && req.targetPath in st1.mounts
      && (vol.volID in st1.disk ==> st1.disk[vol.volID] == Garbage || vol.volID in st.disk)
  {
    var st1 := MountFresh(req, st);
    MapBackingOutcome(w, vol, st1);
    MapBackingFrame(w, vol, st1);
    RegisterRangersFrame(w, vol, MapBacking(w, vol, st1).1);
    hide MapBacking, RegisterRangers;
  }

  /** The checks on a request do not look at the volume records. */
  lemma SameChecks(w: World, rn: ReservedNames, req: Request)
    ensures Validate(w.(createFails := false, writeFails := false), rn, req) == Validate(w, rn, req)
  {
    hide ValidName, Blank;
  }

  /**
   * When the volume-map directory cannot be opened, a publish succeeds without a record. The volume is not
   * fully published, and the next restart does not know it, whatever its walk meets.
   */
  lemma UnstoredPublishIsForgotten(plan: Plan, w: World, rn: ReservedNames, req: Request, st: State, w1: World, names: seq<string>)
    requires Sound(plan, st) && Fits(plan, rn, Event(w, PublishStep(req))) && w.mapRootClosed
    requires Publish(w, rn, req, st).0 == OK && req.targetPath !in st.mounts && req.volumeId !in st.disk
    ensures
      var st1 := Publish(w, rn, req, st).1;
      !Complete(st1, req.volumeId) && req.volumeId in st1.volumes && req.volumeId !in Restart(w1, st1, names).volumes
  {
    hide Publish, Restart, Fits;
    PublishCompleteExactly(plan, w, rn, req, st);
    PublishDelivers(plan, w, rn, req, st);
    UnstoredIsNotLoaded(w1, Publish(w, rn, req, st).1, names, req.volumeId);
  }

  lemma UnstoredIsNotLoaded(w: World, st: State, names: seq<string>, id: string)
    requires !(id in st.disk && st.disk[id].Record?)
    ensures id !in Restart(w, st, names).volumes
  {
    LoadRebuilds(w, st.(volumes := map[], secret := NO_CALLBACKS, configMap := NO_CALLBACKS), names);
  }

  /** A record that cannot be opened makes Prune panic with nothing removed, although other records are orphaned. */
  lemma UnreadableRecordStopsPrune()
    ensures
      var w := Holding(map[], {}).(unreadable := {"broken"}, missingPods := {("ns", "pod")});
      var st := SERVED.(disk := SERVED.disk["broken" := Garbage]);
      PrunePanics(w, st.disk) && Orphans(w, st.disk) == {"v"} && Prune(w, st) == st
  {
    var w := Holding(map[], {}).(unreadable := {"broken"}, missingPods := {("ns", "pod")});
    var st := SERVED.(disk := SERVED.disk["broken" := Garbage]);
    assert "broken" in st.disk && "broken" in w.unreadable;
    assert st.disk["v"] == Record(VOL);
  }

  /** An unpublish that could not remove the record succeeds in memory only: exactly a loadable record brings the volume back. */
  lemma LeftoverRecordRevives(plan: Plan, w: World, st: State, names: seq<string>, id: string)
    requires Sound(plan, st) && id !in st.volumes && WalksAll(st.disk, names)
    ensures id in Restart(w, st, names).volumes <==> Loadable(st.disk, id)
  {
    hide Restart, Sound;
    RestartRecovers(plan, w, st, names);
  }

  /** Two pods of a namespace whose volumes get one mount identifier: unpublishing either unmounts both. */
  lemma MountIDsCollide()
    ensures
      var a := Request(true, true, "q-v", "/pods/a", map[CSI_POD_NAMESPACE := "n", CSI_POD_NAME := "p"], true);
      var b := Request(true, true, "v", "/pods/b", map[CSI_POD_NAMESPACE := "n", CSI_POD_NAME := "p-q"], true);
      a.volumeId != b.volumeId && MountID(a) == MountID(b) == "n-p-q-v"
  {
    assert |CSI_POD_NAMESPACE| != |CSI_POD_NAME|;
    assert "n" + "-" + "p" + "-" + "q-v" == "n-p-q-v" == "n" + "-" + "p-q" + "-" + "v";
  }

  /** Volumes that share a target path are not isolated: the volume visited last decides what both show. */
  lemma SharedTargetOrderMatters(w: World, kind: Kind, name: string, st: State, a: string, b: string)
    requires {a, b} <= Naming(st.volumes, {name}) && st.volumes[a].targetPath == st.volumes[b].targetPath
    requires !w.FsFails(st.volumes[a].targetPath)
    requires Decide(w, UpdateRule(kind), st.volumes[a]) == Clear
    requires Decide(w, UpdateRule(kind), st.volumes[b]).Put? && Decide(w, UpdateRule(kind), st.volumes[b]).payload != map[]
    ensures Visits(w, kind, name, st, [a, b]) != Visits(w, kind, name, st, [b, a])
  {
    var path := st.volumes[a].targetPath;
    hide Pass, Decide, Naming, Visits;
    TwoVisits(w, kind, name, st, a, b);
    TwoVisits(w, kind, name, st, b, a);
    assert Shown(Visits(w, kind, name, st, [a, b]).files, path) != map[];
    assert Shown(Visits(w, kind, name, st, [b, a]).files, path) == map[];
  }

  /** Two visits apply the two decisions in turn. */
  lemma TwoVisits(w: World, kind: Kind, name: string, st: State, a: string, b: string)
    requires {a, b} <= Naming(st.volumes, {name})
    ensures Visits(w, kind, name, st, [a, b]).files ==
      SetDir(w, SetDir(w, st.files, st.volumes[a].targetPath, Decide(w, UpdateRule(kind), st.volumes[a])),
        st.volumes[b].targetPath, Decide(w, UpdateRule(kind), st.volumes[b]))
  {
    hide Pass, Decide, SetDir;
    var va := Pass(w, kind, st, {a});
    assert [a, b][..1] == [a] && [a][..0] == [];
    assert Visits(w, kind, name, st, []) == st;
    assert Visits(w, kind, name, st, [a]) == va;
    PassFrame(w, kind, st, {a});
    PassSingle(w, kind, st, a);
    PassSingle(w, kind, va, b);
  }
}
