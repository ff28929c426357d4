/**
 * What NodePublishVolume and share events do, in terms of what was sent, of the tables of the listers and the
 * API, and of the host: no definition of the state machine but its step is needed to read these results.
 */
module Publishing {
  import opened Text
  import opened Cluster
  import opened Reservations
  import opened Sweeps
  import opened Requests
  import opened Machine
  import opened Registry
  import opened Provenance
  import opened Convergence
  import opened Calls
  import opened Persistence
  import opened Passes
  import opened Upserts

  /** Some object is held for the reference. */
  ghost predicate Fetchable(src: Source, ref: Ref) {
    exists obj :: Holds(src, ref, obj)
  }

  /** The host paths that a publish needs: the volume's own directory, unless the volume is known, and the target. */
  predicate HostReady(w: World, req: Request, st: State) {
    && (req.volumeId in st.volumes
      || Sent(req, "csi.storage.k8s.io/pod.namespace") + "-" + Sent(req, "csi.storage.k8s.io/pod.name") + "-" + req.volumeId !in w.broken)
    && req.targetPath !in w.broken
  }

  lemma HostReadyExactly(w: World, req: Request, st: State)
    requires req.targetPath != ""
    ensures HostReady(w, req, st) <==> (req.volumeId in st.volumes || !w.FsFails(MountID(req))) && !w.FsFails(req.targetPath)
  {
    assert |MountID(req)| >= 2;
  }

  /** What an acceptable request is about, in the terms of the state machine. */
  lemma AcceptableRequest(plan: Plan, w: World, rn: ReservedNames, req: Request, kind: Kind, name: string, ref: Ref)
    requires Acceptable(w, rn, req, kind, name, ref)
    ensures Validate(w, rn, req) == PassFor(kind, name, ref) && w.GetShare(kind, name) == Some(ref)
    ensures req.targetPath != ""
    ensures Fits(plan, rn, Event(w, PublishStep(req))) ==>
      req.volumeId in plan && plan[req.volumeId] == NewVol(req, kind, name) && Recorded(req, kind, name, plan[req.volumeId])
      && Allowed(w, plan[req.volumeId])
  {
    hide Validate, Recorded;
    ValidateExactly(w, rn, req);
    AsksForExactly(w, rn, req, kind, name, ref);
    assert Accepts(w, rn, req.context, kind, Share(name, ref));
    assert NewVol(req, kind, Share(name, ref).name) == NewVol(req, kind, name);
    RecordedExactly(req, kind, name, NewVol(req, kind, name));
    GetShareExactly(w, kind, name);
  }

  lemma AttachFrame(w: World, req: Request, vol: Vol, st: State)
    ensures Attach(w, req, vol, st).1.volumes == st.volumes
  {
    hide MapBacking, RegisterRangers;
    var st1 := MountFresh(req, st);
    MapBackingFrame(w, vol, st1);
    RegisterRangersFrame(w, vol, MapBacking(w, vol, st1).1);
  }

  /** A publish of a new volume id records the attributes that were sent, whether or not it succeeds from there on. */
  lemma PublishRecords(w: World, rn: ReservedNames, req: Request, st: State, kind: Kind, name: string, ref: Ref)
    requires Acceptable(w, rn, req, kind, name, ref) && req.volumeId !in st.volumes
    requires Sent(req, "csi.storage.k8s.io/pod.namespace") + "-" + Sent(req, "csi.storage.k8s.io/pod.name") + "-" + req.volumeId !in w.broken
    ensures
      var volumes := Next(rn, Event(w, PublishStep(req)), st).volumes;
      && req.volumeId in volumes && Recorded(req, kind, name, volumes[req.volumeId])
      && volumes == st.volumes[req.volumeId := volumes[req.volumeId]]
  {
    hide Validate, Recorded, Attach;
    ValidateExactly(w, rn, req);
    assert |MountID(req)| >= 2;
    var vol := NewVol(req, kind, name);
    RecordedExactly(req, kind, name, vol);
    AttachFrame(w, req, vol, st.(volumes := st.volumes[req.volumeId := vol]));
  }

  /** For an acceptable request on a ready host, the call is the attachment of its planned volume. */
  lemma PublishIsAttach(plan: Plan, w: World, rn: ReservedNames, req: Request, st: State, kind: Kind, name: string, ref: Ref)
    requires Sound(plan, st) && Fits(plan, rn, Event(w, PublishStep(req)))
    requires Acceptable(w, rn, req, kind, name, ref) && HostReady(w, req, st)
    ensures req.volumeId in plan && Recorded(req, kind, name, plan[req.volumeId]) && Allowed(w, plan[req.volumeId])
    ensures
      var st1 := st.(volumes := st.volumes[req.volumeId := plan[req.volumeId]]);
      && Sound(plan, st1)
      && Publish(w, rn, req, st) == Attach(w, req, plan[req.volumeId], st1)
      && Next(rn, Event(w, PublishStep(req)), st) == Attach(w, req, plan[req.volumeId], st1).1
  {
    hide Validate, Recorded, Attach, Sound, Fits;
    AcceptableRequest(plan, w, rn, req, kind, name, ref);
    HostReadyExactly(w, req, st);
    CreateFits(plan, w, rn, req, st);
  }

  /** Mapping the planned volume: it depends on the tables only. */
  lemma ResolvesExactly(w: World, kind: Kind, name: string, ref: Ref, vol: Vol)
    requires vol.kind == Known(kind) && vol.shareID == name && w.GetShare(kind, name) == Some(ref)
    ensures Resolves(w, vol) <==> Fetchable(Tables(w, kind), ref)
    ensures forall obj :: Holds(Tables(w, kind), ref, obj) ==> Resolves(w, vol) && Backing(w, vol) == obj
  {
    FetchExactly(w, kind, ref);
  }

  /**
   * A publish that mounts, on a ready host. If the tables hold the object, the pod sees its data, and the call
   * succeeds exactly when storing reports no error. If they do not, the call fails with Internal; the mount stays
   * behind, empty, and so does the volume, without callbacks that it did not have and without a record.
   */
  lemma PublishSupplies(plan: Plan, w: World, rn: ReservedNames, req: Request, st: State, kind: Kind, name: string, ref: Ref)
    requires Sound(plan, st) && Fits(plan, rn, Event(w, PublishStep(req)))
    requires Acceptable(w, rn, req, kind, name, ref) && HostReady(w, req, st) && req.targetPath !in st.mounts
    ensures req.volumeId in plan
    ensures
      var (code, st1) := Publish(w, rn, req, st);
      && Next(rn, Event(w, PublishStep(req)), st) == st1
      && req.targetPath in st1.mounts
      && (forall obj :: Holds(Tables(w, kind), ref, obj) ==>
        && IsPayload(obj, Shown(st1.files, req.targetPath))
        && (code == OK <==> w.mapRootClosed || (!w.createFails && !w.writeFails))
        && st1.disk == if w.mapRootClosed || w.createFails then st.disk
          else st.disk[req.volumeId := if w.writeFails then Garbage else Record(plan[req.volumeId])])
      && (!Fetchable(Tables(w, kind), ref) ==>
        && code == Internal && Shown(st1.files, req.targetPath) == map[] && req.volumeId in st1.volumes
        && st1.disk == st.disk && st1.secret == st.secret && st1.configMap == st.configMap)
  {
    hide Publish, Next, Attach, Recorded, Sound, Fits, Acceptable, Resolves, Backing, MapBacking, MapVolume;
    PublishIsAttach(plan, w, rn, req, st, kind, name, ref);
    AcceptableRequest(plan, w, rn, req, kind, name, ref);
    HostReadyExactly(w, req, st);
    var vol := plan[req.volumeId];
    var st0 := st.(volumes := st.volumes[req.volumeId := vol]);
    RecordedTarget(req, kind, name, vol);
    ResolvesExactly(w, kind, name, ref, vol);
    AttachSupplies(plan, w, req, vol, st0);
    forall obj | Holds(Tables(w, kind), ref, obj)
      ensures IsPayload(obj, Shown(Attach(w, req, vol, st0).1.files, req.targetPath))
    {
      PayloadExactly(obj, SharePayload(obj));
    }
  }

  lemma RecordedTarget(req: Request, kind: Kind, name: string, vol: Vol)
    requires Recorded(req, kind, name, vol)
    ensures vol.volID == req.volumeId && vol.targetPath == req.targetPath && vol.anchorDir == MountID(req)
    ensures vol.kind == Known(kind) && vol.shareID == name
  {
    RecordedExactly(req, kind, name, vol);
  }

  lemma AttachSupplies(plan: Plan, w: World, req: Request, vol: Vol, st: State)
    requires Sound(plan, st) && vol.volID in st.volumes && st.volumes[vol.volID] == vol && Allowed(w, vol)
    requires vol.targetPath == req.targetPath && vol.anchorDir == MountID(req)
    requires vol.kind.Known? && w.GetShare(vol.kind.kind, vol.shareID).Some?
    requires !w.FsFails(req.targetPath) && req.targetPath !in st.mounts
    ensures
      var (code, st1) := Attach(w, req, vol, st);
      && req.targetPath in st1.mounts && st1.volumes == st.volumes
      && (Resolves(w, vol) ==>
        && Shown(st1.files, req.targetPath) == SharePayload(Backing(w, vol))
        && (code == OK <==> StoreReports(w))
        && st1.disk == if w.mapRootClosed || w.createFails then st.disk
          else st.disk[vol.volID := if w.writeFails then Garbage else Record(vol)])
      && (!Resolves(w, vol) ==>
        && code == Internal && Shown(st1.files, req.targetPath) == map[]
        && st1.disk == st.disk && st1.secret == st.secret && st1.configMap == st.configMap)
  {
    hide MapBacking, RegisterRangers, Resolves, Backing, Sound, Desired;
    var st1 := MountFresh(req, st);
    MountSound(plan, req, vol, st);
    MountedShowsNothing(plan, req, vol, st);
    MapBackingOutcome(w, vol, st1);
    MapBackingFrame(w, vol, st1);
    if Resolves(w, vol) {
      MapDelivers(plan, w, vol, st1);
      DesiredAllowed(w, vol);
    }
  }

  /** A publish onto a mounted target, on a ready host, records the volume if it is new and does nothing else. */
  lemma PublishMounted(plan: Plan, w: World, rn: ReservedNames, req: Request, st: State, kind: Kind, name: string, ref: Ref)
    requires Sound(plan, st) && Fits(plan, rn, Event(w, PublishStep(req)))
    requires Acceptable(w, rn, req, kind, name, ref) && HostReady(w, req, st) && req.targetPath in st.mounts
    ensures req.volumeId in plan
    ensures Publish(w, rn, req, st) == (OK, st.(volumes := st.volumes[req.volumeId := plan[req.volumeId]]))
  {
    hide Publish, Recorded, Sound, Fits, Acceptable;
    PublishIsAttach(plan, w, rn, req, st, kind, name, ref);
    AcceptableRequest(plan, w, rn, req, kind, name, ref);
    HostReadyExactly(w, req, st);
  }

  /** An acceptable publish on a host that is not ready is Internal, and at most records the volume. */
  lemma PublishUnready(w: World, rn: ReservedNames, req: Request, st: State, kind: Kind, name: string, ref: Ref)
    requires Acceptable(w, rn, req, kind, name, ref) && !HostReady(w, req, st)
    ensures
      var (code, st1) := Publish(w, rn, req, st);
      code == Internal && st1 == st.(volumes := st1.volumes)
  {
    hide Validate, Acceptable, HostReady;
    assert req.targetPath != "" by { AcceptableTarget(w, rn, req, kind, name, ref); }
    ValidateExactly(w, rn, req);
    HostReadyExactly(w, req, st);
    assert st.(volumes := st.volumes) == st;
  }

  lemma AcceptableTarget(w: World, rn: ReservedNames, req: Request, kind: Kind, name: string, ref: Ref)
    requires Acceptable(w, rn, req, kind, name, ref)
    ensures req.targetPath != ""
  {
  }

  /** Every other request is rejected, and changes nothing. */
  lemma PublishRejects(w: World, rn: ReservedNames, req: Request, st: State)
    requires forall kind, name, ref :: !Acceptable(w, rn, req, kind, name, ref)
    ensures Publish(w, rn, req, st) ==
      (if Basic(req) && SomeRefusal(w, rn, req) then PermissionDenied
       else if Basic(req) && SomeUnreviewed(w, rn, req) then Internal
       else InvalidArgument, st)
  {
    hide Validate, Acceptable, Basic, SomeRefusal, SomeUnreviewed;
    ValidateExactly(w, rn, req);
  }

  /** The request is for this share, its host paths are ready, and nothing on the way to success fails. */
  ghost predicate Succeeds(w: World, rn: ReservedNames, req: Request, st: State, kind: Kind, name: string, ref: Ref) {
    && Acceptable(w, rn, req, kind, name, ref) && HostReady(w, req, st)
    && (req.targetPath in st.mounts
      || (Fetchable(Tables(w, kind), ref) && (w.mapRootClosed || (!w.createFails && !w.writeFails))))
  }

  /** Exactly when a publish request succeeds. */
  lemma PublishSucceedsExactly(plan: Plan, w: World, rn: ReservedNames, req: Request, st: State)
    requires Sound(plan, st) && Fits(plan, rn, Event(w, PublishStep(req)))
    ensures Publish(w, rn, req, st).0 == OK <==> exists kind, name, ref :: Succeeds(w, rn, req, st, kind, name, ref)
  {
    hide Publish, Validate, Acceptable, Sound, Fits, HostReady, Resolves, Recorded;
    ValidateExactly(w, rn, req);
    Calls.PublishSucceedsExactly(plan, w, rn, req, st);
    forall kind, name, ref | Acceptable(w, rn, req, kind, name, ref)
      ensures Publish(w, rn, req, st).0 == OK <==> Succeeds(w, rn, req, st, kind, name, ref)
    {
      AcceptableRequest(plan, w, rn, req, kind, name, ref);
      HostReadyExactly(w, req, st);
      RecordedTarget(req, kind, name, plan[req.volumeId]);
      ResolvesExactly(w, kind, name, ref, plan[req.volumeId]);
    }
  }

  /* ------------------------------------------------------------------ share events */

  lemma PlannedVolume(plan: Plan, st: State, id: string)
    requires Sound(plan, st) && id in st.volumes
    ensures id in plan && st.volumes[id] == plan[id]
  {
  }

  /** The volume's access review. */
  function ReviewFor(vol: Vol): Review {
    Review(vol.kind, vol.shareID, vol.podNs, vol.podSA)
  }

  /**
   * What a share's event makes of a volume of its kind and name. The event's own reference has to be fetchable;
   * then, if the share still resolves, a denied volume is emptied and an allowed one shows the object's data, but
   * an object without any entries leaves it as it was. In every other case it stays as it was.
   */
  lemma ShareEventSupplies(plan: Plan, rn: ReservedNames, w: World, kind: Kind, name: string, ref: Ref, st: State, id: string)
    requires Sound(plan, st) && id in st.volumes && id in plan && plan[id].kind == Known(kind) && plan[id].shareID == name
    requires id in st.Of(kind).shareUpdates
    ensures
      var src := Tables(w, kind);
      var before, after := Seen(plan, st, id), Seen(plan, Next(rn, Event(w, ShareUpsert(kind, name, ref)), st), id);
      var reached := Fetchable(src, ref) && plan[id].targetPath != "" && plan[id].targetPath !in w.broken;
      && (forall own, obj :: reached && Refers(src, name, own) && Holds(src, own, obj) ==>
        if ReviewFor(plan[id]) !in w.allowed then after == map[]
        else if obj.bytes == map[] && obj.texts == map[] then after == before
        else IsPayload(obj, after))
      && (!(reached && exists own :: Refers(src, name, own) && Fetchable(src, own)) ==> after == before)
  {
    hide AddShare, Sound;
    PlannedVolume(plan, st, id);
    ShareEventExactly(plan, w, kind, name, ref, st, id);
    FetchExactly(w, kind, ref);
    GetShareExactly(w, kind, name);
    var src := Tables(w, kind);
    forall own, obj | Refers(src, name, own) && Holds(src, own, obj)
      ensures Resolves(w, plan[id]) && Backing(w, plan[id]) == obj && IsPayload(obj, SharePayload(obj))
      ensures SharePayload(obj) == map[] <==> obj.bytes == map[] && obj.texts == map[]
    {
      ResolvesExactly(w, kind, name, own, plan[id]);
      PayloadExactly(obj, SharePayload(obj));
    }
    if Resolves(w, plan[id]) {
      var own := w.GetShare(kind, name).value;
      ResolvesExactly(w, kind, name, own, plan[id]);
      assert Refers(src, name, own) && Fetchable(src, own);
    }
  }

  /* ------------------------------------------------------------------ object events */

  /** A listing shows the share with this reference: the lister's listing, or the API's if the lister has no share at all. */
  ghost predicate Listed(src: Source, name: string, ref: Ref) {
    if exists other :: other in src.listedShares then name in src.listedShares && src.listedShares[name] == ref
    else name in src.apiShares && src.apiShares[name] == ref
  }

  /** What an object event has for a volume: the object's entries, for a Secret without its StringData. */
  predicate IsEventPayload(kind: Kind, obj: Object, c: Content) {
    match kind
    case Secret => c == obj.bytes
    case ConfigMap => IsPayload(obj, c)
  }

  lemma EventPayloadExactly(kind: Kind, obj: Object, c: Content)
    ensures IsEventPayload(kind, obj, c) <==> c == ObjectPayload(kind, obj)
  {
    PayloadExactly(obj, c);
  }

  /** The volume's share has a reference with the object's key. */
  ghost predicate Keyed(src: Source, name: string, ref: Ref) {
    exists own :: Refers(src, name, own) && own.ns + ":" + own.name == ref.ns + ":" + ref.name
  }

  lemma KeyedExactly(w: World, kind: Kind, vol: Vol, ref: Ref)
    requires vol.kind == Known(kind)
    ensures Proceed(w, vol, Key(ref)) <==> Keyed(Tables(w, kind), vol.shareID, ref)
    ensures vol.shareID in Referring(w, kind, ref) <==> Listed(Tables(w, kind), vol.shareID, ref)
    ensures Listed(Tables(w, kind), vol.shareID, ref) ==> w.GetShare(kind, vol.shareID) == Some(ref)
  {
    GetShareExactly(w, kind, vol.shareID);
    ListSharesExactly(w, kind, vol.shareID, ref);
    if vol.shareID in Referring(w, kind, ref) {
      ListedIsGettable(w, kind, vol.shareID);
    }
    if w.GetShare(kind, vol.shareID).Some? {
      assert Refers(Tables(w, kind), vol.shareID, w.GetShare(kind, vol.shareID).value);
    }
  }

  /** What phase one leaves of a registered volume: its files, and whether its upsert callback is still there. */
  lemma PhaseOneShows(plan: Plan, w: World, kind: Kind, ref: Ref, st: State, id: string)
    requires Sound(plan, st) && id in st.volumes && id in st.Of(kind).shareUpdates
    ensures
      var st1 := FanOut(w, kind, st, Referring(w, kind, ref));
      var vol := st.volumes[id];
      var o := if vol.shareID in Referring(w, kind, ref) then Decide(w, UpdateRule(kind), vol) else Skip;
      && st1.volumes == st.volumes && Sound(plan, st1)
      && (!w.FsFails(vol.targetPath) ==> Shown(st1.files, vol.targetPath) == ShownAfter(o, Shown(st.files, vol.targetPath)))
      && (id in st1.Of(kind).upserts <==> id in st.Of(kind).upserts && !o.Clear?)
  {
    hide Pass, Decide, Sound, Referring;
    SoundTargets(plan, st);
    var names := Referring(w, kind, ref);
    var ids := Naming(st.volumes, names);
    FanOutSound(plan, w, kind, st, names);
    VolumeId(plan, st, id);
    assert st.Of(kind).shareUpdates != {};
    PassFrame(w, kind, st, ids);
    var path := st.volumes[id].targetPath;
    if st.volumes[id].shareID in names {
      assert id in ids;
      PassOwn(w, kind, st, ids, id);
      SettledShows(st.files, Pass(w, kind, st, ids).files, path, Decide(w, UpdateRule(kind), st.volumes[id]));
    } else {
      PassOther(w, kind, st, ids, id);
      SettledShows(st.files, Pass(w, kind, st, ids).files, path, Skip);
    }
  }

  lemma SettledShows(files: Files, files': Files, path: Path, o: Outcome)
    ensures At(files', path) == Settle(o, At(files, path)) ==> Shown(files', path) == ShownAfter(o, Shown(files, path))
  {
    ShownAt(files, path);
    ShownAt(files', path);
  }

  lemma VolumeId(plan: Plan, st: State, id: string)
    requires Sound(plan, st) && id in st.volumes
    ensures st.volumes[id].volID == id
  {
  }

  lemma PhaseTwoShows(plan: Plan, w: World, kind: Kind, ref: Ref, obj: Object, st: State, id: string)
    requires Sound(plan, st) && id in st.volumes && !w.FsFails(st.volumes[id].targetPath)
    ensures
      var vol := st.volumes[id];
      Shown(CallUpserts(w, kind, ref, obj, st).files, vol.targetPath) ==
        if id in st.Of(kind).upserts && Proceed(w, vol, Key(ref)) && ObjectPayload(kind, obj) != map[] then ObjectPayload(kind, obj)
        else Shown(st.files, vol.targetPath)
  {
    hide CallUpserts, Proceed, Sound, ObjectPayload;
    CallUpsertsOwn(plan, w, kind, ref, obj, st, id);
    var vol := st.volumes[id];
    var o := if id in st.Of(kind).upserts then Decide(w, UpsertRule(Key(ref), ObjectPayload(kind, obj)), vol) else Skip;
    SettledShows(st.files, CallUpserts(w, kind, ref, obj, st).files, vol.targetPath, o);
  }

  /**
   * What an object upsert makes of a volume of its kind that is registered for share updates. Phase one reviews it
   * if its share is listed with this reference and the object is held: a denied volume ends empty; an allowed one
   * shows what is held, unless that is empty. Phase two then overwrites it with what the event carries, unless that is
   * empty, if the volume has a callback left and its share's reference has the object's key.
   */
  lemma ObjectUpsertShows(plan: Plan, rn: ReservedNames, w: World, kind: Kind, ref: Ref, obj: Object, st: State, id: string,
                          carried: Content)
    requires Sound(plan, st) && id in st.volumes && id in plan && id in st.Of(kind).shareUpdates && plan[id].kind == Known(kind)
    requires plan[id].targetPath != "" && plan[id].targetPath !in w.broken && IsEventPayload(kind, obj, carried)
    ensures
      var src := Tables(w, kind);
      var before, after := Seen(plan, st, id), Seen(plan, Next(rn, Event(w, ObjectUpsert(kind, ref, obj)), st), id);
      var called := id in st.Of(kind).upserts && Keyed(src, plan[id].shareID, ref) && carried != map[];
      && (Listed(src, plan[id].shareID, ref) && Fetchable(src, ref) && ReviewFor(plan[id]) !in w.allowed ==> after == map[])
      && (Listed(src, plan[id].shareID, ref) && ReviewFor(plan[id]) in w.allowed ==>
        forall held :: Holds(src, ref, held) ==>
          if called then after == carried
          else if held.bytes == map[] && held.texts == map[] then after == before
          else IsPayload(held, after))
      && (!(Listed(src, plan[id].shareID, ref) && Fetchable(src, ref)) ==> after == if called then carried else before)
  {
    hide FanOut, CallUpserts, Sound, Sweep, Proceed, Referring;
    PlannedVolume(plan, st, id);
    var vol := plan[id];
    var src := Tables(w, kind);
    EventPayloadExactly(kind, obj, carried);
    KeyedExactly(w, kind, vol, ref);
    FetchExactly(w, kind, ref);
    var st1 := FanOut(w, kind, st, Referring(w, kind, ref));
    PhaseOneShows(plan, w, kind, ref, st, id);
    PhaseTwoShows(plan, w, kind, ref, obj, st1, id);
    forall held | Holds(src, ref, held) ensures IsPayload(held, SharePayload(held)) && (SharePayload(held) == map[] <==> held.bytes == map[] && held.texts == map[]) {
      PayloadExactly(held, SharePayload(held));
    }
    if Listed(src, vol.shareID, ref) {
      OwnKeyed(src, vol.shareID, ref, w, kind);
    }
  }

  lemma OwnKeyed(src: Source, name: string, ref: Ref, w: World, kind: Kind)
    requires src == Tables(w, kind) && w.GetShare(kind, name) == Some(ref)
    ensures Keyed(src, name, ref)
  {
    GetShareExactly(w, kind, name);
    assert Refers(src, name, ref);
  }
}
