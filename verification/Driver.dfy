/**
 * pkg/csidriver/driver.go and pkg/cache: the driver process itself. Its fields are the sync.Maps and the
 * host state it changes in place; each loop over a sync.Map takes the keys in an arbitrary order.
 */
module CsiDriver {
  import opened Text
  import opened Keys
  import opened Cluster
  import opened Sweeps
  import opened Requests
  import opened Machine
  import opened Registry
  import opened Passes
  import opened Persistence

  /** pkg/csidriver/dpv.go: an entry of the volume table, shared by reference with the callbacks. */
  class DriverVolume {
    var volID: string
    var anchorDir: string
    var targetPath: Path
    var kind: VolKind
    var shareID: string
    var podNs: string
    var podName: string
    var podUID: string
    var podSA: string
    var refresh: bool

    /** CreateDV: all fields but the id still have their zero values. */
    constructor (id: string)
      ensures Fields() == Vol(id, "", "", Unknown(""), "", "", "", "", "", false)
    {
      volID, anchorDir, targetPath, kind, shareID := id, "", "", Unknown(""), "";
      podNs, podName, podUID, podSA, refresh := "", "", "", "", false;
    }

    /** Decoding a record yields a volume with the stored fields. */
    constructor Decode(vol: Vol)
      ensures Fields() == vol
    {
      volID, anchorDir, targetPath, kind, shareID := vol.volID, vol.anchorDir, vol.targetPath, vol.kind, vol.shareID;
      podNs, podName, podUID, podSA, refresh := vol.podNs, vol.podName, vol.podUID, vol.podSA, vol.refresh;
    }

    function Fields(): Vol
      reads this
    {
      Vol(volID, anchorDir, targetPath, kind, shareID, podNs, podName, podUID, podSA, refresh)
    }
  }

  type Table = map<string, DriverVolume>

  /** The captured volumes are the very objects of the volume table. */
  ghost predicate VerySame(volumes: Table, cbs: Callbacks<DriverVolume>) {
    && (forall id :: id in cbs.upserts ==> id in volumes && cbs.upserts[id] == volumes[id])
    && (forall id :: id in cbs.deletes ==> id in volumes && cbs.deletes[id] == volumes[id])
  }

  /** Callback tables with the same ids. */
  ghost predicate SameIds(cbs: Callbacks<DriverVolume>, m: Callbacks<Vol>) {
    && cbs.upserts.Keys == m.upserts.Keys && cbs.deletes.Keys == m.deletes.Keys
    && cbs.shareUpdates == m.shareUpdates && cbs.shareDeletes == m.shareDeletes
  }

  ghost predicate VolumesMirror(volumes: Table, m: map<string, Vol>)
    reads volumes.Values
  {
    m.Keys == volumes.Keys && forall id :: id in volumes ==> volumes[id].Fields() == m[id]
  }

  lemma DroppedMirrors(volumes: Table, cbs: Callbacks<DriverVolume>, m: Callbacks<Vol>, ids: set<string>)
    requires SameIds(cbs, m) && VerySame(volumes, cbs)
    ensures SameIds(Dropped(cbs, ids), Dropped(m, ids)) && VerySame(volumes, Dropped(cbs, ids))
  {
  }

  /** Storing a volume of the table as the captured volume of its object callbacks. */
  lemma StoredMirrors(volumes: Table, cbs: Callbacks<DriverVolume>, m: Callbacks<Vol>, dv: DriverVolume, vol: Vol)
    requires SameIds(cbs, m) && VerySame(volumes, cbs) && dv.volID in volumes && volumes[dv.volID] == dv
    ensures
      var cbs', m' := cbs.(upserts := cbs.upserts[dv.volID := dv]), m.(upserts := m.upserts[dv.volID := vol]);
      SameIds(cbs', m') && VerySame(volumes, cbs')
    ensures
      var cbs', m' := cbs.(deletes := cbs.deletes[dv.volID := dv]), m.(deletes := m.deletes[dv.volID := vol]);
      SameIds(cbs', m') && VerySame(volumes, cbs')
  {
  }

  /** The object looked up again under its split key is the one the filter of the volume selects, or none it selects. */
  lemma RefetchSame(w: World, kind: Kind, vol: Vol, ref: Ref, ns: string, name: string)
    requires vol.kind == Known(kind) && w.GetShare(kind, vol.shareID) == Some(ref)
    requires Ref(ns, name) == match SplitKey(Key(ref)) { case Some(parts) => Ref(parts.0, parts.1) case None => Ref("", "") }
    ensures Proceed(w, vol, Key(Ref(ns, name))) <==> Ref(ns, name) == ref
  {
    if SplitKey(Key(ref)).Some? {
      SplitBuiltSame(ref.ns, ref.name);
    } else if Proceed(w, vol, Key(Ref(ns, name))) {
      assert |Key(ref)| == |ref.ns| + 1 + |ref.name| == 1;
    }
  }

  /** A mapping as its write followed by storing the callbacks one table at a time. */
  lemma MappedInSteps(w: World, kind: Kind, ref: Ref, obj: Object, vol: Vol, st: State, st1: State)
    requires st1 == st.(files :=
      Sweep(w, UpsertRule(Key(ref), ObjectPayload(kind, obj)), st.files, map[vol.volID := vol], {vol.volID}))
    ensures
      var cbs := st1.Of(kind);
      var st2 := if vol.refresh && w.refreshResources then st1.With(kind, cbs.(upserts := cbs.upserts[vol.volID := vol])) else st1;
      var cbs2 := st2.Of(kind);
      Mapped(w, kind, ref, obj, vol, st) == st2.With(kind, cbs2.(deletes := cbs2.deletes[vol.volID := vol]))
  {
  }

  lemma SameIdsShares(volumes: Table, cbs: Callbacks<DriverVolume>, m: Callbacks<Vol>, id: string)
    requires SameIds(cbs, m) && VerySame(volumes, cbs)
    ensures
      var cbs', m' := cbs.(shareUpdates := cbs.shareUpdates + {id}), m.(shareUpdates := m.shareUpdates + {id});
      SameIds(cbs', m') && VerySame(volumes, cbs')
    ensures
      var cbs', m' := cbs.(shareDeletes := cbs.shareDeletes + {id}), m.(shareDeletes := m.shareDeletes + {id});
      SameIds(cbs', m') && VerySame(volumes, cbs')
  {
  }

  lemma VerySameGrows(volumes: Table, cbs: Callbacks<DriverVolume>, id: string, dv: DriverVolume)
    requires VerySame(volumes, cbs) && id !in volumes
    ensures VerySame(volumes[id := dv], cbs)
  {
  }

  /** The tables of a kind once a volume has been deleted. */
  function Forgotten<T>(cbs: Callbacks<T>, id: string): Callbacks<T> {
    Dropped(cbs, {id}).(shareDeletes := cbs.shareDeletes - {id})
  }

  lemma ForgottenMirrors(volumes: Table, cbs: Callbacks<DriverVolume>, m: Callbacks<Vol>, id: string)
    requires SameIds(cbs, m) && VerySame(volumes, cbs)
    ensures SameIds(Forgotten(cbs, id), Forgotten(m, id)) && VerySame(volumes - {id}, Forgotten(cbs, id))
  {
  }

  /** Unmounting one identifier after others is unmounting them together, and records do not matter to it. */
  lemma UnmountedTwice(st: State, a: set<string>, b: set<string>)
    ensures Unmounted(Unmounted(st, a), b) == Unmounted(st, a + b)
  {
    var ta := set path | path in st.mounts && st.mounts[path] in a;
    var tb := set path | path in st.mounts - ta && (st.mounts - ta)[path] in b;
    var tab := set path | path in st.mounts && st.mounts[path] in a + b;
    assert ta + tb == tab;
    assert st.mounts - ta - tb == st.mounts - tab;
    assert st.files - ta - tb == st.files - tab;
  }

  lemma UnmountedNone(st: State)
    ensures Unmounted(st, {}) == st
  {
    var none := set path | path in st.mounts && st.mounts[path] in {};
    assert none == {};
    assert st.mounts - none == st.mounts && st.files - none == st.files;
  }

  /** The mount identifiers of some collected records. */
  function Anchors(records: map<string, Vol>, names: set<string>): set<string> {
    set name | name in names && name in records :: records[name].anchorDir
  }

  lemma PruneOne(st: State, records: map<string, Vol>, done: set<string>, name: string, st1: State)
    requires name in records
    requires st1 == Unmounted(st, Anchors(records, done)).(disk := st.disk - done)
    ensures
      Unmounted(st1.(disk := st1.disk - {name}), {records[name].anchorDir})
        == Unmounted(st, Anchors(records, done + {name})).(disk := st.disk - (done + {name}))
  {
    assert st.disk - done - {name} == st.disk - (done + {name});
    assert Anchors(records, done + {name}) == Anchors(records, done) + {records[name].anchorDir};
    UnmountedTwice(st, Anchors(records, done), {records[name].anchorDir});
  }

  lemma LoadNone(w: World, st: State)
    ensures Load(w, st, []) == st
  {
  }

  lemma LoadNext(w: World, st: State, names: seq<string>, i: nat)
    requires i < |names|
    ensures
      var st1 := Load(w, st, names[..i]);
      Load(w, st, names[..i + 1]) ==
        if !Loadable(st.disk, names[i]) then st1
        else
          var vol := st.disk[names[i]].vol;
          RegisterRangers(w, vol, st1.(volumes := st1.volumes[vol.volID := vol]))
  {
    assert names[..i + 1][..i] == names[..i];
    hide RegisterRangers;
  }

  lemma VolumesMirrorLess(volumes: Table, m: map<string, Vol>, id: string)
    requires VolumesMirror(volumes, m)
    ensures VolumesMirror(volumes - {id}, m - {id})
    ensures id in volumes <==> id in m
    ensures id in volumes ==> volumes[id].targetPath == m[id].targetPath
    ensures id !in volumes ==> volumes - {id} == volumes && m - {id} == m
  {
  }

  lemma VolumesMirrorMore(volumes: Table, m: map<string, Vol>, dv: DriverVolume)
    requires VolumesMirror(volumes, m)
    ensures VolumesMirror(volumes[dv.volID := dv], m[dv.volID := dv.Fields()])
  {
  }

  lemma NothingCaptured(volumes: Table, cbs: Callbacks<DriverVolume>, m: Callbacks<Vol>)
    requires SameIds(cbs, m) && m.upserts == map[] && m.deletes == map[]
    ensures VerySame(volumes, cbs)
  {
    assert cbs.upserts.Keys == {} && cbs.deletes.Keys == {};
  }

  /** deleteVolume in one piece. */
  lemma DeleteInOne(w: World, id: string, st: State)
    ensures DeleteVolume(w, id, st) == st.(
      volumes := st.volumes - {id},
      files := if id in st.volumes && !w.FsFails(st.volumes[id].targetPath) then st.files - {st.volumes[id].targetPath} else st.files,
      secret := Forgotten(st.secret, id),
      configMap := Forgotten(st.configMap, id))
  {
    assert id !in st.volumes ==> st.volumes - {id} == st.volumes;
  }

  /** Registering the share-delete callback before or after the pass makes no difference. */
  lemma LateDeletes(w: World, kind: Kind, st: State, vol: Vol, ids: set<string>)
    ensures
      var st1 := RangedUpdates(vol, kind, st);
      && st1.volumes == st.volumes
      && st1.With(kind, st1.Of(kind).(shareDeletes := st1.Of(kind).shareDeletes + {vol.volID})) == Ranged(vol, kind, st)
      && var st2 := Pass(w, kind, st1, ids);
         st2.With(kind, st2.Of(kind).(shareDeletes := st2.Of(kind).shareDeletes + {vol.volID}))
           == Pass(w, kind, Ranged(vol, kind, st), ids)
  {
    hide Sweep, Denied;
  }

  lemma UnknownFails(w: World, vol: Vol, st: State)
    ensures vol.kind.Unknown? ==> MapBacking(w, vol, st).0 != OK
  {
  }

  lemma OwnShareProceeds(w: World, vol: Vol, kind: Kind, ref: Ref)
    requires vol.kind == Known(kind) && w.GetShare(kind, vol.shareID) == Some(ref)
    ensures Proceed(w, vol, Key(ref))
  {
  }

  /** An update decision in terms of what the ranger fetches. */
  lemma DecideByItem(w: World, kind: Kind, vol: Vol)
    ensures
      var share := w.GetShare(kind, vol.shareID);
      if share.Some? && w.Fetch(kind, share.value).Found? then
        var put := Decide(w, UpsertRule(Key(share.value), SharePayload(w.Fetch(kind, share.value).obj)), vol);
        !put.Clear? && Decide(w, UpdateRule(kind), vol) == if !Allowed(w, vol) then Clear else put
      else Decide(w, UpdateRule(kind), vol) == Skip
  {
  }

  class Driver {
    var volumes: Table
    var secret: Callbacks<DriverVolume>
    var configMap: Callbacks<DriverVolume>
    var files: Files
    var disk: map<string, Record>
    var mounts: map<Path, string>

    /** The abstract state that the fields represent. */
    ghost var model: State

    /** A process on a host: no volumes yet, whatever files, records and mounts are there. */
    constructor (files: Files, disk: map<string, Record>, mounts: map<Path, string>)
      ensures Mirrors() && model == State(map[], NO_CALLBACKS, NO_CALLBACKS, files, disk, mounts)
    {
      volumes := map[];
      secret, configMap := Callbacks(map[], map[], {}, {}), Callbacks(map[], map[], {}, {});
      this.files, this.disk, this.mounts := files, disk, mounts;
      model := State(map[], NO_CALLBACKS, NO_CALLBACKS, files, disk, mounts);
    }

    /** The model has the tables' values, and every captured volume is the one in the table. */
    ghost predicate TablesMirror()
      reads this`volumes, this`secret, this`configMap, this`model, volumes.Values
    {
      && VolumesMirror(volumes, model.volumes)
      && SameIds(secret, model.secret) && SameIds(configMap, model.configMap)
      && VerySame(volumes, secret) && VerySame(volumes, configMap)
    }

    lemma MirrorKeys()
      requires TablesMirror()
      ensures model.volumes.Keys == volumes.Keys
      ensures forall id :: id in volumes ==> volumes[id].Fields() == model.volumes[id]
    {
    }

    lemma MirrorIds(kind: Kind)
      requires TablesMirror()
      ensures SameIds(Of(kind), model.Of(kind)) && VerySame(volumes, Of(kind))
    {
    }

    /** The model has the values of all fields. */
    ghost predicate Mirrors()
      reads this, volumes.Values
    {
      TablesMirror() && model.files == files && model.disk == disk && model.mounts == mounts
    }

    ghost predicate Valid(plan: Plan)
      reads this, volumes.Values
    {
      Sound(plan, model) && Mirrors()
    }

    function Of(kind: Kind): Callbacks<DriverVolume>
      reads this
    {
      if kind == Secret then secret else configMap
    }

    /* -------------------------------------------------------------- files */

    /** commonOSRemove, at the level of the keys a pod sees. */
    method CommonOSRemove(w: World, dir: Path)
      modifies this`files
      ensures files == SetDir(w, old(files), dir, Clear)
    {
      if !w.FsFails(dir) && dir in files {
        files := files[dir := map[]];
      }
    }

    /** The file map commonUpsertRanger hands to the atomic writer. */
    static method PodFile(payload: Object) returns (podFile: Content)
      ensures podFile == SharePayload(payload)
    {
      podFile := map[];
      var todo := payload.bytes.Keys;
      while todo != {}
        invariant todo <= payload.bytes.Keys
        invariant podFile == map k | k in payload.bytes && k !in todo :: payload.bytes[k]
      {
        var k :| k in todo;
        podFile := podFile[k := payload.bytes[k]];
        todo := todo - {k};
      }
      assert podFile == payload.bytes;
      todo := payload.texts.Keys;
      while todo != {}
        invariant todo <= payload.texts.Keys
        invariant podFile == payload.bytes + map k | k in payload.texts && k !in todo :: payload.texts[k]
      {
        var k :| k in todo;
        podFile := podFile[k := payload.texts[k]];
        todo := todo - {k};
      }
      assert (map k | k in payload.texts && k !in todo :: payload.texts[k]) == payload.texts;
    }

    /** commonUpsertRanger; ok is false when it returns a file-system error. */
    method CommonUpsertRanger(w: World, dv: DriverVolume, key: string, payload: Object) returns (ok: bool)
      modifies this`files
      ensures files == SetDir(w, old(files), dv.targetPath, Decide(w, UpsertRule(key, SharePayload(payload)), dv.Fields()))
      ensures ok <==> !Proceed(w, dv.Fields(), key) || !w.FsFails(dv.targetPath)
    {
      hide Proceed;
      ok := true;
      if Proceed(w, dv.Fields(), key) {
        if w.FsFails(dv.targetPath) {
          ok := false;
        } else {
          WriteFiles(dv.targetPath, payload);
        }
      }
    }

    /** Making the directory, and writing the file map unless it is empty. */
    method WriteFiles(podPath: Path, payload: Object)
      modifies this`files
      ensures files == old(files)[podPath := Settle(Put(SharePayload(payload)), At(old(files), podPath)).value]
    {
      if podPath !in files {
        files := files[podPath := map[]];
      }
      var podFile := PodFile(payload);
      if |podFile| > 0 {
        files := files[podPath := podFile];
      } else {
        assert podFile == map[];
        assert old(files)[podPath := files[podPath]] == files;
      }
    }

    /* -------------------------------------------------------------- share events */

    /** Records a change of files in the model. */
    ghost method SyncFiles()
      requires TablesMirror()
      modifies this`model
      ensures TablesMirror() && model == old(model).(files := files)
    {
      hide SameIds, VerySame, VolumesMirror;
      model := model.(files := files);
    }

    /** Unregister*Callback for the four backing-object tables. */
    method UnregisterObjectCallbacks(id: string)
      requires TablesMirror()
      modifies this`secret, this`configMap, this`model
      ensures TablesMirror()
      ensures secret == Dropped(old(secret), {id}) && configMap == Dropped(old(configMap), {id})
      ensures model == old(model).(secret := Dropped(old(model).secret, {id}), configMap := Dropped(old(model).configMap, {id}))
    {
      hide SameIds, VerySame, VolumesMirror;
      DroppedMirrors(volumes, secret, model.secret, {id});
      DroppedMirrors(volumes, configMap, model.configMap, {id});
      secret := secret.(upserts := secret.upserts - {id});
      secret := secret.(deletes := secret.deletes - {id});
      configMap := configMap.(deletes := configMap.deletes - {id});
      configMap := configMap.(upserts := configMap.upserts - {id});
      model := model.(secret := Dropped(model.secret, {id}), configMap := Dropped(model.configMap, {id}));
    }

    /** The lost-permissions branch of the ranger: the target is emptied, the object callbacks go. */
    method LosePermissions(w: World, dir: Path, id: string)
      requires Mirrors()
      modifies this`files, this`secret, this`configMap, this`model
      ensures Mirrors()
      ensures model == old(model).(files := SetDir(w, old(model).files, dir, Clear),
        secret := Dropped(old(model).secret, {id}), configMap := Dropped(old(model).configMap, {id}))
    {
      hide Dropped, TablesMirror, SetDir;
      CommonOSRemove(w, dir);
      UnregisterObjectCallbacks(id);
      SyncFiles();
    }

    /** The other branch: the write, whose error is only logged. */
    method WriteItem(w: World, dv: DriverVolume, key: string, payload: Object)
      requires Mirrors()
      modifies this`files, this`model
      ensures Mirrors()
      ensures model == old(model).(files :=
        SetDir(w, old(model).files, dv.targetPath, Decide(w, UpsertRule(key, SharePayload(payload)), dv.Fields())))
    {
      hide TablesMirror, SetDir, Decide;
      var _ := CommonUpsertRanger(w, dv, key, payload);
      SyncFiles();
    }

    /** shareUpdateRanger: one pass over all volumes, in whatever order they come. */
    method ShareUpdateRanger(w: World, kind: Kind, shareId: string, ghost plan: Plan)
      requires Valid(plan)
      modifies this
      ensures Valid(plan) && volumes == old(volumes)
      ensures model == Pass(w, kind, old(model), Naming(old(model).volumes, {shareId}))
    {
      hide Pass, Sound, TablesMirror;
      MirrorKeys();
      var ranger := new InnerShareUpdateRanger(shareId, kind);
      ghost var st := model;
      ghost var naming := Naming(st.volumes, {shareId});
      SoundTargets(plan, st);
      PassNone(w, kind, st);
      assert naming * {} == {} && naming <= volumes.Keys;
      hide Naming;
      ghost var done: set<string> := {};
      var todo := volumes.Keys;
      while todo != {}
        invariant todo + done == volumes.Keys && volumes == old(volumes)
        invariant Valid(plan) && ranger.For(shareId, kind)
        invariant model == Pass(w, kind, st, naming * done)
      {
        var key :| key in todo;
        PassFrame(w, kind, st, naming * done);
        ranger.Range(w, this, key, plan);
        PassPass(w, kind, st, naming * done, {key});
        assert naming * (done + {key}) == if key in naming then naming * done + {key} else naming * done;
        assert (todo - {key}) + (done + {key}) == todo + done;
        todo, done := todo - {key}, done + {key};
      }
      assert naming * done == naming;
    }

    /** Runs every share-update callback of a kind for one share. */
    method CallShareUpdates(w: World, kind: Kind, name: string, ghost plan: Plan)
      requires Valid(plan)
      modifies this
      ensures Valid(plan) && volumes == old(volumes)
      ensures model == FanOut(w, kind, old(model), {name})
    {
      hide Pass, Sound, TablesMirror, Naming;
      ghost var st := model;
      ghost var naming := Naming(st.volumes, {name});
      MirrorIds(kind);
      SoundTargets(plan, st);
      PassPass(w, kind, st, naming, naming);
      PassFrame(w, kind, st, naming);
      assert naming + naming == naming;
      var start := Of(kind).shareUpdates;
      var todo := start;
      while todo != {}
        invariant todo <= start && volumes == old(volumes) && Valid(plan)
        invariant model == if todo == start then st else Pass(w, kind, st, naming)
      {
        var id :| id in todo;
        ShareUpdateRanger(w, kind, name, plan);
        todo := todo - {id};
      }
    }

    /** AddSharedSecret / AddSharedConfigMap; false is the error that the callers drop. */
    method AddShared(w: World, kind: Kind, name: string, ref: Ref, ghost plan: Plan) returns (ok: bool)
      requires Valid(plan)
      modifies this
      ensures Valid(plan) && volumes == old(volumes)
      ensures model == AddShare(w, kind, name, ref, old(model)) && (ok <==> w.Fetch(kind, ref).Found?)
    {
      hide FanOut, Sound, TablesMirror;
      if !w.Fetch(kind, ref).Found? {
        return false;
      }
      CallShareUpdates(w, kind, name, plan);
      return true;
    }

    /* -------------------------------------------------------------- backing-object events */

    /** First phase of an upsert: every listed share that refers to the object, in arbitrary order. */
    method CallReferringShares(w: World, kind: Kind, ref: Ref, ghost plan: Plan)
      requires Valid(plan)
      modifies this
      ensures Valid(plan) && volumes == old(volumes)
      ensures model == FanOut(w, kind, old(model), Referring(w, kind, ref))
    {
      hide Sound, TablesMirror, FanOut;
      ghost var st := model;
      var list := w.ListShares(kind);
      var todo := list.Keys;
      ghost var done: set<string> := {};
      SoundTargets(plan, st);
      FanOutNone(w, kind, st);
      while todo != {}
        invariant todo <= list.Keys && todo !! done && volumes == old(volumes) && Valid(plan)
        invariant done == Referring(w, kind, ref) - todo
        invariant model == FanOut(w, kind, st, done)
      {
        var name :| name in todo;
        if list[name] == ref {
          CallShareUpdates(w, kind, name, plan);
          PassesCompose(w, kind, st, done, {name});
          done := done + {name};
        }
        todo := todo - {name};
      }
      assert done == Referring(w, kind, ref);
    }

    /** The payload a backing-object callback builds: without a Secret's StringData. */
    static function CallbackPayload(kind: Kind, obj: Object): (payload: Object)
      ensures SharePayload(payload) == ObjectPayload(kind, obj)
    {
      if kind == Secret then
        assert obj.bytes + map[] == obj.bytes;
        Object(obj.bytes, map[])
      else obj
    }

    lemma ValidIds(plan: Plan, kind: Kind)
      requires Valid(plan)
      ensures model.volumes.Keys == volumes.Keys && SameIds(Of(kind), model.Of(kind))
    {
    }

    /** What a callback captured is the volume the model has for its id. */
    lemma CapturedVolume(plan: Plan, kind: Kind, id: string)
      requires Valid(plan) && (id in Of(kind).upserts || id in Of(kind).deletes)
      ensures id in volumes && id in model.volumes && volumes[id].Fields() == model.volumes[id]
      ensures id in Of(kind).upserts ==> (id in model.Of(kind).upserts
        && Of(kind).upserts[id] == volumes[id] && model.Of(kind).upserts[id] == model.volumes[id])
      ensures id in Of(kind).deletes ==> (id in model.Of(kind).deletes
        && Of(kind).deletes[id] == volumes[id] && model.Of(kind).deletes[id] == model.volumes[id])
    {
      MirrorIds(kind);
      assert Registered(model.volumes, kind, model.Of(kind));
    }

    /** One backing-object callback: the closure writes to the volume it captured. */
    method CallUpsert(w: World, kind: Kind, ref: Ref, obj: Object, id: string, ghost plan: Plan)
      requires Valid(plan) && id in Of(kind).upserts
      modifies this`files, this`model
      ensures Valid(plan) && id in old(model).Of(kind).upserts
      ensures
        var vol := old(model).Of(kind).upserts[id];
        model == old(model).(files := SetDir(w, old(model).files, vol.targetPath,
          Decide(w, UpsertRule(Key(ref), ObjectPayload(kind, obj)), vol)))
    {
      hide Sound, TablesMirror, SetDir, Decide;
      CapturedVolume(plan, kind, id);
      var _ := CommonUpsertRanger(w, Of(kind).upserts[id], Key(ref), CallbackPayload(kind, obj));
      SyncFiles();
      FilesSound(plan, old(model), model);
    }

    /** Second phase of an upsert: every backing-object callback of the kind. */
    method CallUpsertCallbacks(w: World, kind: Kind, ref: Ref, obj: Object, ghost plan: Plan)
      requires Valid(plan)
      modifies this`files, this`model
      ensures Valid(plan) && model == CallUpserts(w, kind, ref, obj, old(model))
    {
      hide Sound, Mirrors, Sweep, SetDir, Decide;
      ghost var st := model;
      ghost var cbs := st.Of(kind).upserts;
      ghost var rule := UpsertRule(Key(ref), ObjectPayload(kind, obj));
      ValidIds(plan, kind);
      SoundTargets(plan, st);
      SweepNone(w, rule, st.files, cbs);
      ghost var done: set<string> := {};
      var todo := Of(kind).upserts.Keys;
      while todo != {}
        invariant todo + done == cbs.Keys && todo <= Of(kind).upserts.Keys && Valid(plan)
        invariant model == st.(files := Sweep(w, rule, st.files, cbs, done))
      {
        var id :| id in todo;
        SweepStep(w, rule, st.files, cbs, done, id);
        CallUpsert(w, kind, ref, obj, id, plan);
        todo, done := todo - {id}, done + {id};
      }
      assert done == cbs.Keys;
    }

    /** UpsertSecret / UpsertConfigMap. */
    method UpsertBacking(w: World, kind: Kind, ref: Ref, obj: Object, ghost plan: Plan)
      requires Valid(plan)
      modifies this
      ensures Valid(plan) && volumes == old(volumes)
      ensures model == UpsertObject(w, kind, ref, obj, old(model))
    {
      hide Sound, TablesMirror, FanOut, CallUpserts;
      CallReferringShares(w, kind, ref, plan);
      CallUpsertCallbacks(w, kind, ref, obj, plan);
    }

    /** commonDeleteRanger. */
    method CommonDeleteRanger(w: World, dv: DriverVolume, key: string)
      modifies this`files
      ensures files == SetDir(w, old(files), dv.targetPath, Decide(w, DeleteRule(key), dv.Fields()))
    {
      hide Proceed;
      if Proceed(w, dv.Fields(), key) {
        CommonOSRemove(w, dv.targetPath);
      } else {
        SetDirSkip(w, files, dv.targetPath);
      }
    }

    /** One delete callback. */
    method CallDelete(w: World, kind: Kind, ref: Ref, id: string, ghost plan: Plan)
      requires Valid(plan) && id in Of(kind).deletes
      modifies this`files, this`model
      ensures Valid(plan) && id in old(model).Of(kind).deletes
      ensures
        var vol := old(model).Of(kind).deletes[id];
        model == old(model).(files := SetDir(w, old(model).files, vol.targetPath, Decide(w, DeleteRule(Key(ref)), vol)))
    {
      hide Sound, TablesMirror, SetDir, Decide;
      CapturedVolume(plan, kind, id);
      CommonDeleteRanger(w, Of(kind).deletes[id], Key(ref));
      SyncFiles();
      FilesSound(plan, old(model), model);
    }

    /** DelSecret / DelConfigMap. */
    method DeleteBacking(w: World, kind: Kind, ref: Ref, ghost plan: Plan)
      requires Valid(plan)
      modifies this`files, this`model
      ensures Valid(plan) && model == DeleteObject(w, kind, ref, old(model))
    {
      hide Sound, Mirrors, Sweep, SetDir, Decide;
      ghost var st := model;
      ghost var cbs := st.Of(kind).deletes;
      ghost var rule := DeleteRule(Key(ref));
      ValidIds(plan, kind);
      SoundTargets(plan, st);
      SweepNone(w, rule, st.files, cbs);
      ghost var done: set<string> := {};
      var todo := Of(kind).deletes.Keys;
      while todo != {}
        invariant todo + done == cbs.Keys && todo <= Of(kind).deletes.Keys && Valid(plan)
        invariant model == st.(files := Sweep(w, rule, st.files, cbs, done))
      {
        var id :| id in todo;
        SweepStep(w, rule, st.files, cbs, done, id);
        CallDelete(w, kind, ref, id, plan);
        todo, done := todo - {id}, done + {id};
      }
      assert done == cbs.Keys;
    }

    /* -------------------------------------------------------------- share deletions */

    /** innerShareDeleteRanger.Range. */
    method RangeDelete(w: World, shareId: string, key: string, ghost plan: Plan)
      requires Valid(plan) && key in volumes
      modifies this`files, this`model
      ensures Valid(plan) && key in old(model).volumes
      ensures
        var st := old(model);
        model == if key !in Naming(st.volumes, {shareId}) then st else
          st.(files := SetDir(w, st.files, st.volumes[key].targetPath, Decide(w, ShareDeleteRule, st.volumes[key])))
    {
      hide Sound, TablesMirror, SetDir;
      MirrorKeys();
      var dv := volumes[key];
      if dv.volID == key && dv.shareID == shareId {
        SetDirSkip(w, model.files, dv.targetPath);
        if |dv.volID| > 0 && |dv.targetPath| > 0 {
          CommonOSRemove(w, dv.targetPath);
          SyncFiles();
          FilesSound(plan, old(model), model);
        }
      }
    }

    /** shareDeleteRanger: empties every volume naming the share. */
    method ShareDeleteRanger(w: World, shareId: string, ghost plan: Plan)
      requires Valid(plan)
      modifies this`files, this`model
      ensures Valid(plan)
      ensures model == old(model).(files :=
        Sweep(w, ShareDeleteRule, old(model).files, old(model).volumes, Naming(old(model).volumes, {shareId})))
    {
      hide Sound, Mirrors, Sweep, SetDir, Decide;
      ghost var st := model;
      ghost var naming := Naming(st.volumes, {shareId});
      ValidIds(plan, Secret);
      SoundTargets(plan, st);
      SweepNone(w, ShareDeleteRule, st.files, st.volumes);
      assert naming * {} == {};
      ghost var done: set<string> := {};
      var todo := volumes.Keys;
      while todo != {}
        invariant todo + done == volumes.Keys && Valid(plan)
        invariant model == st.(files := Sweep(w, ShareDeleteRule, st.files, st.volumes, naming * done))
      {
        var key :| key in todo;
        SweepStep(w, ShareDeleteRule, st.files, st.volumes, naming * done, key);
        assert naming * (done + {key}) == if key in naming then naming * done + {key} else naming * done;
        RangeDelete(w, shareId, key, plan);
        todo, done := todo - {key}, done + {key};
      }
      assert naming * done == naming;
    }

    /** DelSharedSecret / DelSharedConfigMap. */
    method DelShared(w: World, kind: Kind, name: string, ghost plan: Plan)
      requires Valid(plan)
      modifies this`files, this`model
      ensures Valid(plan) && model == DeleteShare(w, kind, name, old(model))
    {
      hide Sound, TablesMirror, Sweep, Naming;
      ghost var st := model;
      ghost var naming := Naming(st.volumes, {name});
      MirrorIds(kind);
      SoundTargets(plan, st);
      SweepSweep(w, ShareDeleteRule, st.files, st.volumes, naming, naming);
      assert naming + naming == naming;
      var start := Of(kind).shareDeletes;
      var todo := start;
      while todo != {}
        invariant todo <= start && Valid(plan)
        invariant model == if todo == start then st else
          st.(files := Sweep(w, ShareDeleteRule, st.files, st.volumes, naming))
      {
        var id :| id in todo;
        ShareDeleteRanger(w, name, plan);
        todo := todo - {id};
      }
    }

    /* -------------------------------------------------------------- mapping a volume */

    /** Storing a callback table of the kind, with its model. */
    method StoreTable(kind: Kind, cbs: Callbacks<DriverVolume>, ghost m: Callbacks<Vol>)
      requires TablesMirror() && SameIds(cbs, m) && VerySame(volumes, cbs)
      modifies this`secret, this`configMap, this`model
      ensures TablesMirror() && Of(kind) == cbs && model == old(model).With(kind, m)
    {
      hide SameIds, VerySame, VolumesMirror;
      if kind == Secret { secret := cbs; } else { configMap := cbs; }
      model := model.With(kind, m);
    }

    /** RegisterSecretUpsertCallback / RegisterConfigMapUpsertCallback: stores the closure and runs it once more. */
    method RegisterUpsertCallback(w: World, kind: Kind, dv: DriverVolume, ref: Ref)
      requires TablesMirror() && dv.volID in volumes && volumes[dv.volID] == dv
      requires dv.kind == Known(kind) && w.GetShare(kind, dv.shareID) == Some(ref) && w.Fetch(kind, ref).Found?
      requires SetDir(w, files, dv.targetPath, Put(ObjectPayload(kind, w.Fetch(kind, ref).obj))) == files
      modifies this`files, this`secret, this`configMap, this`model
      ensures TablesMirror() && files == old(files)
      ensures
        var cbs := old(model).Of(kind);
        model == if w.refreshResources
          then old(model).With(kind, cbs.(upserts := cbs.upserts[dv.volID := dv.Fields()])) else old(model)
    {
      hide SetDir, TablesMirror, SameIds, VerySame;
      if w.refreshResources {
        MirrorIds(kind);
        StoredMirrors(volumes, Of(kind), model.Of(kind), dv, dv.Fields());
        StoreTable(kind, Of(kind).(upserts := Of(kind).upserts[dv.volID := dv]),
          model.Of(kind).(upserts := model.Of(kind).upserts[dv.volID := dv.Fields()]));
        var parts := SplitKey(Key(ref));
        var ns, name := if parts.Some? then parts.value.0 else "", if parts.Some? then parts.value.1 else "";
        RunAgain(w, kind, dv, ref, ns, name);
      }
    }

    /** The second look-up and write, which leave the files as they are. */
    method RunAgain(w: World, kind: Kind, dv: DriverVolume, ref: Ref, ns: string, name: string)
      requires dv.kind == Known(kind) && w.GetShare(kind, dv.shareID) == Some(ref) && w.Fetch(kind, ref).Found?
      requires SetDir(w, files, dv.targetPath, Put(ObjectPayload(kind, w.Fetch(kind, ref).obj))) == files
      requires Ref(ns, name) == match SplitKey(Key(ref)) { case Some(parts) => Ref(parts.0, parts.1) case None => Ref("", "") }
      modifies this`files
      ensures files == old(files)
    {
      hide SetDir, Proceed;
      var got := w.Fetch(kind, Ref(ns, name));
      if got.Found? {
        RefetchSame(w, kind, dv.Fields(), ref, ns, name);
        SetDirSkip(w, files, dv.targetPath);
        var _ := CommonUpsertRanger(w, dv, Key(Ref(ns, name)), CallbackPayload(kind, got.obj));
      }
    }

    /** mapBackingResourceToPod. */
    method MapBackingResourceToPod(w: World, dv: DriverVolume) returns (code: Code)
      requires Mirrors() && dv.volID in volumes && volumes[dv.volID] == dv
      modifies this
      ensures Mirrors() && volumes == old(volumes)
      ensures (code, model) == MapBacking(w, dv.Fields(), old(model))
    {
      hide TablesMirror, Mapped;
      if dv.kind.Unknown? {
        return Internal;
      }
      var kind := dv.kind.kind;
      var share := w.GetShare(kind, dv.shareID);
      if share.None? {
        return if kind == ConfigMap then OK else Panic;
      }
      var got := w.Fetch(kind, share.value);
      if !got.Found? {
        return if got.Forbidden? then PermissionDenied else Internal;
      }
      if w.FsFails(dv.targetPath) {
        var ok := CommonUpsertRanger(w, dv, Key(share.value), CallbackPayload(kind, got.obj));
        return Internal;
      }
      WriteAndRegister(w, kind, share.value, got.obj, dv);
      return OK;
    }

    /** The successful branch: write, then store the callbacks that the volume asks for. */
    method WriteAndRegister(w: World, kind: Kind, ref: Ref, obj: Object, dv: DriverVolume)
      requires Mirrors() && dv.volID in volumes && volumes[dv.volID] == dv
      requires dv.kind == Known(kind) && w.GetShare(kind, dv.shareID) == Some(ref) && w.Fetch(kind, ref) == Found(obj)
      requires !w.FsFails(dv.targetPath)
      modifies this
      ensures Mirrors() && volumes == old(volumes)
      ensures model == Mapped(w, kind, ref, obj, dv.Fields(), old(model))
    {
      hide SetDir, Sweep, TablesMirror, SameIds, VerySame, Mapped;
      ghost var st := model;
      WriteOwn(w, kind, ref, obj, dv);
      MappedInSteps(w, kind, ref, obj, dv.Fields(), st, model);
      if dv.refresh {
        RegisterUpsertCallback(w, kind, dv, ref);
      }
      RegisterDeleteCallback(kind, dv);
    }

    /** RegisterSecretDeleteCallback / RegisterConfigMapDeleteCallback. */
    method RegisterDeleteCallback(kind: Kind, dv: DriverVolume)
      requires TablesMirror() && dv.volID in volumes && volumes[dv.volID] == dv
      modifies this`secret, this`configMap, this`model
      ensures TablesMirror()
      ensures
        var cbs := old(model).Of(kind);
        model == old(model).With(kind, cbs.(deletes := cbs.deletes[dv.volID := dv.Fields()]))
    {
      hide TablesMirror, SameIds, VerySame;
      MirrorIds(kind);
      StoredMirrors(volumes, Of(kind), model.Of(kind), dv, dv.Fields());
      StoreTable(kind, Of(kind).(deletes := Of(kind).deletes[dv.volID := dv]),
        model.Of(kind).(deletes := model.Of(kind).deletes[dv.volID := dv.Fields()]));
    }

    /** The inline write, after which writing again would change nothing. */
    method WriteOwn(w: World, kind: Kind, ref: Ref, obj: Object, dv: DriverVolume)
      requires TablesMirror() && model.files == files
      requires dv.kind == Known(kind) && w.GetShare(kind, dv.shareID) == Some(ref)
      modifies this`files, this`model
      ensures TablesMirror() && model.files == files
      ensures SetDir(w, files, dv.targetPath, Put(ObjectPayload(kind, obj))) == files
      ensures model == old(model).(files :=
        Sweep(w, UpsertRule(Key(ref), ObjectPayload(kind, obj)), old(model).files, map[dv.volID := dv.Fields()], {dv.volID}))
    {
      hide SetDir, Sweep, TablesMirror, Proceed;
      SweepSingle(w, UpsertRule(Key(ref), ObjectPayload(kind, obj)), files, map[dv.volID := dv.Fields()], dv.volID);
      SetDirTwice(w, files, dv.targetPath, Put(ObjectPayload(kind, obj)));
      OwnShareProceeds(w, dv.Fields(), kind, ref);
      var _ := CommonUpsertRanger(w, dv, Key(ref), CallbackPayload(kind, obj));
      SyncFiles();
    }

    /** registerRangers: the share-update callback runs once between the two registrations. */
    method RegisterShareRangers(w: World, dv: DriverVolume, ghost plan: Plan)
      requires Mirrors() && dv.volID in volumes && volumes[dv.volID] == dv
      requires if dv.kind.Known? then Sound(plan, Ranged(dv.Fields(), dv.kind.kind, model)) else Sound(plan, model)
      modifies this
      ensures Valid(plan) && volumes == old(volumes)
      ensures model == RegisterRangers(w, dv.Fields(), old(model))
    {
      hide Sound, TablesMirror, Pass, Naming, SameIds, VerySame;
      if dv.kind.Known? {
        var kind := dv.kind.kind;
        ghost var st, vol := model, dv.Fields();
        ghost var ids := Naming(st.volumes, {dv.shareID});
        RangedUpdatesSound(plan, vol, kind, st);
        StoreShareUpdate(kind, dv);
        var share := w.GetShare(kind, dv.shareID);
        if share.Some? {
          ShareUpdateRanger(w, kind, dv.shareID, plan);
        }
        LateDeletes(w, kind, st, vol, ids);
        PassSound(plan, w, kind, Ranged(vol, kind, st), ids);
        StoreShareDelete(kind, dv);
      }
    }

    method StoreShareUpdate(kind: Kind, dv: DriverVolume)
      requires TablesMirror()
      modifies this`secret, this`configMap, this`model
      ensures TablesMirror() && model == RangedUpdates(dv.Fields(), kind, old(model))
    {
      hide TablesMirror, SameIds, VerySame;
      MirrorIds(kind);
      SameIdsShares(volumes, Of(kind), model.Of(kind), dv.volID);
      StoreTable(kind, Of(kind).(shareUpdates := Of(kind).shareUpdates + {dv.volID}),
        model.Of(kind).(shareUpdates := model.Of(kind).shareUpdates + {dv.volID}));
    }

    method StoreShareDelete(kind: Kind, dv: DriverVolume)
      requires TablesMirror()
      modifies this`secret, this`configMap, this`model
      ensures TablesMirror()
      ensures model == old(model).With(kind,
        old(model).Of(kind).(shareDeletes := old(model).Of(kind).shareDeletes + {dv.volID}))
    {
      hide TablesMirror, SameIds, VerySame;
      MirrorIds(kind);
      SameIdsShares(volumes, Of(kind), model.Of(kind), dv.volID);
      StoreTable(kind, Of(kind).(shareDeletes := Of(kind).shareDeletes + {dv.volID}),
        model.Of(kind).(shareDeletes := model.Of(kind).shareDeletes + {dv.volID}));
    }

    /** mapVolumeToPod. */
    method MapVolumeToPod(w: World, dv: DriverVolume, ghost plan: Plan) returns (code: Code)
      requires Valid(plan) && dv.volID in volumes && volumes[dv.volID] == dv
      modifies this
      ensures Valid(plan) && volumes == old(volumes)
      ensures (code, model) == MapVolume(w, dv.Fields(), old(model))
    {
      hide Sound, TablesMirror, MapBacking, RegisterRangers, Stored, Ranged;
      ghost var st, vol := model, dv.Fields();
      MirrorKeys();
      MapBackingFrame(w, vol, st);
      code := MapBackingResourceToPod(w, dv);
      if code == OK {
        if dv.kind.Known? {
          RangedSound(plan, vol, dv.kind.kind, st, model);
        } else {
          UnknownFails(w, vol, st);
        }
        RegisterShareRangers(w, dv, plan);
      }
    }

    /* -------------------------------------------------------------- creating and deleting volumes */

    /** createVolume: None is an error return. */
    method CreateVolumeFor(w: World, req: Request, cm: Option<Share>, sec: Option<Share>) returns (dv: Option<DriverVolume>)
      requires TablesMirror()
      modifies this`volumes, this`model
      ensures TablesMirror()
      ensures
        var c := CreateVolume(w, req, cm, sec, old(model).volumes);
        && dv.Some? == c.Created?
        && model == (if c.Created? then old(model).(volumes := c.volumes) else old(model))
        && (dv.Some? ==> req.volumeId in volumes && volumes[req.volumeId] == dv.value && dv.value.Fields() == c.vol)
    {
      hide TablesMirror;
      MirrorKeys();
      if cm.Some? && sec.Some? {
        return None;
      }
      if cm.None? && sec.None? {
        return None;
      }
      if req.volumeId in volumes {
        return Some(volumes[req.volumeId]);
      }
      if w.FsFails(MountID(req)) {
        return None;
      }
      var kind, share := if cm.Some? then ConfigMap else Secret, if cm.Some? then cm.value else sec.value;
      var vol := NewDriverVolume(req, kind, share);
      Insert(req.volumeId, vol);
      return Some(vol);
    }

    /** CreateDV and the setters after it; nothing else runs in between here (module Publication is about that). */
    static method NewDriverVolume(req: Request, kind: Kind, share: Share) returns (vol: DriverVolume)
      ensures fresh(vol) && vol.Fields() == NewVol(req, kind, share.name)
    {
      vol := new DriverVolume(req.volumeId);
      vol.anchorDir := MountID(req);
      vol.targetPath := req.targetPath;
      vol.podNs := Attr(req.context, CSI_POD_NAMESPACE);
      vol.podName := Attr(req.context, CSI_POD_NAME);
      vol.podUID := Attr(req.context, CSI_POD_UID);
      vol.podSA := Attr(req.context, CSI_POD_SA);
      vol.refresh := Refresh(req.context);
      vol.kind := Known(kind);
      vol.shareID := share.name;
    }

    /** setDPV, for an id that is not in the table. */
    method Insert(id: string, vol: DriverVolume)
      requires TablesMirror() && id !in volumes
      modifies this`volumes, this`model
      ensures TablesMirror() && volumes == old(volumes)[id := vol]
      ensures model == old(model).(volumes := old(model).volumes[id := vol.Fields()])
    {
      hide VerySame, SameIds;
      VerySameGrows(volumes, secret, id, vol);
      VerySameGrows(volumes, configMap, id, vol);
      volumes := volumes[id := vol];
      model := model.(volumes := model.volumes[id := vol.Fields()]);
    }

    /** deleteVolume. Unregistering the share-update callbacks deletes from the upsert tables once more. */
    method ForgetVolume(w: World, id: string)
      requires Mirrors()
      modifies this`volumes, this`secret, this`configMap, this`files, this`model
      ensures Mirrors() && model == DeleteVolume(w, id, old(model))
    {
      hide SameIds, VerySame, VolumesMirror, DeleteVolume, Forgotten;
      ForgottenMirrors(volumes, secret, model.secret, id);
      ForgottenMirrors(volumes, configMap, model.configMap, id);
      VolumesMirrorLess(volumes, model.volumes, id);
      DeleteInOne(w, id, model);
      if id in volumes {
        var path := volumes[id].targetPath;
        if !w.FsFails(path) {
          files := files - {path};
        }
        volumes := volumes - {id};
      }
      ForgetCallbacks(id);
      model := DeleteVolume(w, id, model);
    }

    method ForgetCallbacks(id: string)
      modifies this`secret, this`configMap
      ensures secret == Forgotten(old(secret), id) && configMap == Forgotten(old(configMap), id)
    {
      secret := secret.(upserts := secret.upserts - {id});
      secret := secret.(deletes := secret.deletes - {id});
      configMap := configMap.(upserts := configMap.upserts - {id});
      configMap := configMap.(deletes := configMap.deletes - {id});
      configMap := configMap.(shareDeletes := configMap.shareDeletes - {id});
      configMap := configMap.(upserts := configMap.upserts - {id});
      secret := secret.(shareDeletes := secret.shareDeletes - {id});
      secret := secret.(upserts := secret.upserts - {id});
    }

    /* -------------------------------------------------------------- mounts and records */

    /** makeFSMounts. */
    method MakeMount(req: Request)
      requires Mirrors()
      modifies this`mounts, this`files, this`model
      ensures Mirrors() && model == MountFresh(req, old(model))
    {
      hide TablesMirror;
      mounts := mounts[req.targetPath := MountID(req)];
      files := files[req.targetPath := map[]];
      SetHost(MountFresh(req, model));
    }

    /** removeFSMounts: by identifier, whatever target the caller names. */
    method Unmount(id: string)
      requires Mirrors()
      modifies this`mounts, this`files, this`model
      ensures Mirrors() && model == Unmounted(old(model), {id})
    {
      hide TablesMirror;
      var targets := set path | path in mounts && mounts[path] == id;
      mounts, files := mounts - targets, files - targets;
      assert targets == set path | path in model.mounts && model.mounts[path] in {id};
      SetHost(Unmounted(model, {id}));
    }

    /** StoreToDisk: os.Open on the directory, os.Create on the record, Encode into it. */
    method StoreToDisk(w: World, dv: DriverVolume) returns (code: Code)
      requires Mirrors()
      modifies this`disk, this`model
      ensures Mirrors() && (code, model) == StoreRecord(w, dv.Fields(), old(model))
    {
      hide TablesMirror;
      if w.mapRootClosed {
        return OK;
      }
      if w.createFails {
        return Internal;
      }
      disk := disk[dv.volID := Garbage];
      if w.writeFails {
        code := Internal;
      } else {
        disk := disk[dv.volID := Record(dv.Fields())];
        code := OK;
      }
      SetHost(StoreRecord(w, dv.Fields(), model).1);
    }

    method RemoveRecord(name: string)
      requires Mirrors()
      modifies this`disk, this`model
      ensures Mirrors() && model == old(model).(disk := old(model).disk - {name})
    {
      hide TablesMirror;
      disk := disk - {name};
      SetHost(model.(disk := disk));
    }

    /** Records a change of what is outside the process. */
    ghost method SetHost(st: State)
      requires TablesMirror()
      requires st.volumes == model.volumes && st.secret == model.secret && st.configMap == model.configMap
      modifies this`model
      ensures TablesMirror() && model == st
    {
      hide SameIds, VerySame, VolumesMirror;
      model := st;
    }

    /* -------------------------------------------------------------- restart and pruning */

    /** loadVolsFromDisk of a new process, over the files in walk order. */
    method LoadVolsFromDisk(w: World, names: seq<string>, ghost plan: Plan)
      requires Valid(plan) && Unlinked()
      modifies this
      ensures Valid(plan) && model == Load(w, old(model), names)
    {
      hide Sound, Mirrors, RegisterRangers, Loadable, Load;
      ghost var st := model;
      LoadNone(w, st);
      var i := 0;
      while i < |names|
        invariant 0 <= i <= |names|
        invariant Valid(plan) && Unlinked() && model.disk == st.disk
        invariant model == Load(w, st, names[..i])
      {
        LoadNext(w, st, names, i);
        LoadRecord(w, names[i], plan);
        i := i + 1;
      }
      assert names[..i] == names;
    }

    /** No callback has captured a volume yet. */
    ghost predicate Unlinked()
      reads this`model
    {
      forall k: Kind :: model.Of(k).upserts == map[] && model.Of(k).deletes == map[]
    }

    /** One file of the walk: decoded, compared with its name, put in the table and registered. */
    method LoadRecord(w: World, name: string, ghost plan: Plan)
      requires Valid(plan) && Unlinked()
      modifies this
      ensures Valid(plan) && Unlinked() && model.disk == old(model).disk
      ensures model ==
        if !Loadable(old(model).disk, name) then old(model)
        else
          var vol := old(model).disk[name].vol;
          RegisterRangers(w, vol, old(model).(volumes := old(model).volumes[vol.volID := vol]))
    {
      hide Sound, TablesMirror, RegisterRangers;
      if name in disk && disk[name].Record? {
        var dv := new DriverVolume.Decode(disk[name].vol);
        if dv.volID == name {
          ghost var vol, st := dv.Fields(), model;
          LoadablePlanned(plan, st, name);
          AddVolumeSound(plan, vol, st);
          Replace(dv);
          ghost var st1 := model;
          if vol.kind.Known? {
            RangedSound(plan, vol, vol.kind.kind, st1, st1);
          }
          RegistersOne(w, vol, st1, Secret);
          RegistersOne(w, vol, st1, ConfigMap);
          RegisterRangersFrame(w, vol, st1);
          RegisterShareRangers(w, dv, plan);
          UnlinkedBoth();
        }
      }
    }

    lemma UnlinkedBoth()
      requires model.secret.upserts == map[] && model.secret.deletes == map[]
      requires model.configMap.upserts == map[] && model.configMap.deletes == map[]
      ensures Unlinked()
    {
    }

    /** setDPV, while no callback has captured the volume it may replace. */
    method Replace(dv: DriverVolume)
      requires Mirrors() && Unlinked()
      modifies this`volumes, this`model
      ensures Mirrors() && Unlinked() && volumes == old(volumes)[dv.volID := dv]
      ensures model == old(model).(volumes := old(model).volumes[dv.volID := dv.Fields()])
    {
      hide SameIds, VerySame, VolumesMirror;
      assert model.secret == model.Of(Secret) && model.configMap == model.Of(ConfigMap);
      VolumesMirrorMore(volumes, model.volumes, dv);
      NothingCaptured(volumes[dv.volID := dv], secret, model.secret);
      NothingCaptured(volumes[dv.volID := dv], configMap, model.configMap);
      volumes := volumes[dv.volID := dv];
      model := model.(volumes := model.volumes[dv.volID := dv.Fields()]);
    }

    /** Prune: collects the orphaned records first, then removes them, unmounting the volume of each removed one. */
    method PruneDisk(w: World) returns (code: Code)
      requires Mirrors()
      modifies this`disk, this`mounts, this`files, this`model
      ensures Mirrors() && model == Prune(w, old(model))
      ensures code == if PrunePanics(w, old(disk)) then Panic else OK
      ensures PruneOutcome(w, old(disk), old(mounts), old(files), disk, mounts, files)
    {
      hide PruneOutcome;
      PruneExactly(w, model);
      hide TablesMirror, Unmounted;
      ghost var st := model;
      if w.mapRootClosed {
        return OK;
      }
      var panicked, filesToPrune := CollectOrphans(w);
      if panicked {
        return Panic;
      }
      code := OK;
      UnmountedNone(st);
      ghost var done: set<string> := {};
      assert st.disk - {} == st.disk && Anchors(filesToPrune, {}) == {};
      var todo := filesToPrune.Keys;
      while todo != {}
        invariant Mirrors() && todo + done == filesToPrune.Keys
        invariant model == if w.removeFails then st else Unmounted(st, Anchors(filesToPrune, done)).(disk := st.disk - done)
      {
        var file :| file in todo;
        if !w.removeFails {
          PruneOne(st, filesToPrune, done, file, model);
          RemoveRecord(file);
          Unmount(filesToPrune[file].anchorDir);
        }
        todo, done := todo - {file}, done + {file};
      }
      assert done == Orphans(w, st.disk);
      assert Anchors(filesToPrune, done) ==
        set name | name in done && name in st.disk && st.disk[name].Record? :: st.disk[name].vol.anchorDir;
    }

    /** The walk of Prune, through a directory that can be opened; it ends in a panic at a record that cannot. */
    method CollectOrphans(w: World) returns (panicked: bool, filesToPrune: map<string, Vol>)
      ensures panicked <==> exists name :: name in disk && name in w.unreadable
      ensures !panicked ==>
        filesToPrune == map name | name in Orphans(w, disk) && name in disk && disk[name].Record? :: disk[name].vol
    {
      panicked, filesToPrune := false, map[];
      var todo := disk.Keys;
      while todo != {}
        invariant todo <= disk.Keys
        invariant forall name :: name in disk && name !in todo ==> name !in w.unreadable
        invariant filesToPrune ==
          map name | name in Orphans(w, disk) && name !in todo && name in disk && disk[name].Record? :: disk[name].vol
      {
        var name :| name in todo;
        if name in w.unreadable {
          return true, filesToPrune;
        }
        if disk[name].Record? {
          var vol := disk[name].vol;
          if (vol.podNs, vol.podName) in w.missingPods {
            filesToPrune := filesToPrune[name := vol];
          }
        }
        todo := todo - {name};
      }
    }
  }

  /** innerShareUpdateRanger, whose scratch fields live on from one volume to the next. */
  class InnerShareUpdateRanger {
    var shareId: string
    var secret: bool
    var configmap: bool
    var oldTargetPath: Path
    var sharedItemKey: string
    var volID: string
    var sharedItem: Object

    constructor (shareId: string, kind: Kind)
      ensures For(shareId, kind)
    {
      this.shareId, secret, configmap := shareId, kind == Secret, kind == ConfigMap;
      oldTargetPath, sharedItemKey, volID, sharedItem := "", "", "", Object(map[], map[]);
    }

    predicate For(shareId: string, kind: Kind)
      reads this
    {
      this.shareId == shareId && secret == (kind == Secret) && configmap == (kind == ConfigMap)
    }

    /** One call for one volume: whatever the scratch fields held, only that volume's own decision counts. */
    method Range(w: World, d: Driver, key: string, ghost plan: Plan)
      requires d.Valid(plan) && key in d.volumes && secret != configmap
      modifies this, d
      ensures d.Valid(plan) && d.volumes == old(d.volumes)
      ensures For(old(shareId), if old(secret) then Secret else ConfigMap)
      ensures d.model == Visit(w, if old(secret) then Secret else ConfigMap, old(shareId), old(d.model), key)
    {
      var kind := if secret then Secret else ConfigMap;
      ghost var st := d.model;
      var dv := d.volumes[key];
      if dv.volID == key && dv.shareID == shareId {
        PassSingle(w, kind, st, key);
        PassSound(plan, w, kind, st, {key});
        hide Pass, Sound, Decide, Dropped, SetDir;
        Reconcile(w, d, dv);
      }
    }

    /** The part of Range behind its match: review, fetch, then remove or write. */
    method Reconcile(w: World, d: Driver, dv: DriverVolume)
      requires d.Mirrors() && dv.shareID == shareId && secret != configmap
      modifies this, d
      ensures d.Mirrors() && d.volumes == old(d.volumes)
      ensures For(old(shareId), if old(secret) then Secret else ConfigMap)
      ensures
        var kind := if old(secret) then Secret else ConfigMap;
        var st := old(d.model);
        var o := Decide(w, UpdateRule(kind), dv.Fields());
        var denied := if o.Clear? then {dv.volID} else {};
        d.model == st.(files := SetDir(w, st.files, dv.targetPath, o),
          secret := Dropped(st.secret, denied), configMap := Dropped(st.configMap, denied))
    {
      hide Dropped, Driver.Mirrors, Proceed, SetDir, Decide, SharePayload, Key, World.GetShare, World.Fetch;
      ghost var st := d.model;
      var found := FetchItem(w);
      DecideByItem(w, if secret then Secret else ConfigMap, dv.Fields());
      DropNone(st.secret);
      DropNone(st.configMap);
      SetDirSkip(w, st.files, dv.targetPath);
      if found {
        oldTargetPath, volID := dv.targetPath, dv.volID;
        if Review(dv.kind, shareId, dv.podNs, dv.podSA) in w.allowed {
          d.WriteItem(w, dv, sharedItemKey, sharedItem);
        } else {
          d.LosePermissions(w, oldTargetPath, volID);
        }
      }
    }

    /** Looks up the share and its object, in the scratch fields; false when either is missing. */
    method FetchItem(w: World) returns (found: bool)
      requires secret != configmap
      modifies this
      ensures For(old(shareId), if old(secret) then Secret else ConfigMap)
      ensures
        var kind := if old(secret) then Secret else ConfigMap;
        var share := w.GetShare(kind, shareId);
        && (found <==> share.Some? && w.Fetch(kind, share.value).Found?)
        && (found ==> sharedItemKey == Key(share.value) && w.Fetch(kind, share.value) == Found(sharedItem))
    {
      var kind := if secret then Secret else ConfigMap;
      var share := w.GetShare(kind, shareId);
      if share.None? {
        return false;
      }
      sharedItemKey := Key(share.value);
      var got := w.Fetch(kind, share.value);
      if !got.Found? {
        return false;
      }
      sharedItem := got.obj;
      return true;
    }
  }
}
