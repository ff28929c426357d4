/** UpsertSecret / UpsertConfigMap: what their unreviewed second phase adds to the reviewed first one. */
module Upserts {
  import opened Text
  import opened Keys
  import opened Cluster
  import opened Reservations
  import opened Sweeps
  import opened Machine
  import opened Registry
  import opened Passes
  import opened Provenance

  /** No namespace that a share of the kind refers to contains a colon, nor does this one. */
  ghost predicate PlainNamespaces(w: World, kind: Kind, ref: Ref) {
    ':' !in ref.ns && forall name :: w.GetShare(kind, name).Some? ==> ':' !in w.GetShare(kind, name).value.ns
  }

  /** The event carries the API's current object, every share can be listed, and both payloads are one. */
  ghost predicate Current(w: World, kind: Kind, ref: Ref, obj: Object) {
    && w.Fetch(kind, ref) == Found(obj)
    && ListersAgree(w, kind) && PlainNamespaces(w, kind, ref)
    && SharePayload(obj) == ObjectPayload(kind, obj)
  }

  /** When the event is current, the key filter of the second phase selects exactly the volumes of the first. */
  lemma ProceedIsReferring(w: World, kind: Kind, ref: Ref, vol: Vol)
    requires ListersAgree(w, kind) && PlainNamespaces(w, kind, ref) && vol.kind == Known(kind)
    ensures Proceed(w, vol, Key(ref)) <==> vol.shareID in Referring(w, kind, ref)
  {
    var share := w.GetShare(kind, vol.shareID);
    if share.Some? {
      KeyInjective(share.value.ns, share.value.name, ref.ns, ref.name);
    }
    if vol.shareID in Referring(w, kind, ref) {
      ListedIsGettable(w, kind, vol.shareID);
    }
  }

  /** What the first phase decides for a volume whose share refers to the object. */
  lemma DecideReferring(w: World, kind: Kind, ref: Ref, vol: Vol)
    requires vol.shareID in Referring(w, kind, ref)
    ensures Decide(w, UpdateRule(kind), vol) ==
      var got := w.Fetch(kind, ref);
      if !got.Found? then Skip
      else if !Allowed(w, vol) then Clear
      else if Proceed(w, vol, Key(ref)) then Put(SharePayload(got.obj))
      else Skip
  {
    ListedIsGettable(w, kind, vol.shareID);
  }

  /** What the first phase does to a volume with an upsert callback: its own decision if its share refers to the object. */
  lemma PhaseOneOwn(plan: Plan, w: World, kind: Kind, ref: Ref, st: State, id: string)
    requires Sound(plan, st) && id in st.Of(kind).upserts
    ensures id in st.volumes && st.volumes[id].kind == Known(kind) && st.Of(kind).upserts[id] == st.volumes[id]
    ensures
      var st1 := FanOut(w, kind, st, Referring(w, kind, ref));
      var vol := st.volumes[id];
      var o := if vol.shareID in Referring(w, kind, ref) then Decide(w, UpdateRule(kind), vol) else Skip;
      && At(st1.files, vol.targetPath) ==
        (if w.FsFails(vol.targetPath) then At(st.files, vol.targetPath) else Settle(o, At(st.files, vol.targetPath)))
      && (id in st1.Of(kind).upserts <==> !o.Clear?)
  {
    assert Registered(st.volumes, kind, st.Of(kind));
    hide Sweep, Decide;
    SoundTargets(plan, st);
    var names := Referring(w, kind, ref);
    var ids := Naming(st.volumes, names);
    assert st.Of(kind).shareUpdates != {};
    if st.volumes[id].shareID in names {
      assert id in ids;
      PassOwn(w, kind, st, ids, id);
    } else {
      PassOther(w, kind, st, ids, id);
    }
  }

  /** The key filter of the second phase selects the volumes of this share. */
  ghost predicate Selected(w: World, kind: Kind, ref: Ref, name: string) {
    w.GetShare(kind, name).Some? && Key(w.GetShare(kind, name).value) == Key(ref)
  }

  /** The first phase reviews the volumes of this share, and serves the allowed ones, if there can be any, with the same data. */
  ghost predicate Settled(w: World, kind: Kind, ref: Ref, obj: Object, name: string) {
    && name in Referring(w, kind, ref) && w.Fetch(kind, ref).Found?
    && (ObjectPayload(kind, obj) in {map[], SharePayload(w.Fetch(kind, ref).obj)}
      || forall ns, sa :: Review(Known(kind), name, ns, sa) !in w.allowed)
  }

  /** The second phase has nothing left to do: every share it selects is settled. */
  ghost predicate PhaseTwoIdle(w: World, kind: Kind, ref: Ref, obj: Object) {
    forall name :: Selected(w, kind, ref, name) ==> Settled(w, kind, ref, obj, name)
  }

  /** After the first phase, a volume that still has its callback already shows what the callback would write. */
  lemma ServedAlready(plan: Plan, w: World, kind: Kind, ref: Ref, obj: Object, st: State, id: string)
    requires Sound(plan, st) && PhaseTwoIdle(w, kind, ref, obj) && id in st.Of(kind).upserts
    requires id in FanOut(w, kind, st, Referring(w, kind, ref)).Of(kind).upserts
    ensures
      var st1 := FanOut(w, kind, st, Referring(w, kind, ref));
      var vol := st.Of(kind).upserts[id];
      w.FsFails(vol.targetPath) ||
      Settle(Decide(w, UpsertRule(Key(ref), ObjectPayload(kind, obj)), vol), At(st1.files, vol.targetPath))
        == At(st1.files, vol.targetPath)
  {
    hide Sweep, FanOut, Sound, Referring;
    PhaseOneOwn(plan, w, kind, ref, st, id);
    var vol := st.volumes[id];
    if Proceed(w, vol, Key(ref)) {
      assert Selected(w, kind, ref, vol.shareID);
      DecideReferring(w, kind, ref, vol);
      assert Allowed(w, vol) ==> Review(Known(kind), vol.shareID, vol.podNs, vol.podSA) in w.allowed;
      SettleTwice(Put(SharePayload(w.Fetch(kind, ref).obj)), At(st.files, vol.targetPath));
    }
  }

  /**
   * Refinement: when the second phase is idle, the two-phase upsert is its first phase, whatever callbacks
   * are registered. That some share-update callback is registered follows if there is an upsert callback.
   */
  lemma PhaseTwoAddsNothing(plan: Plan, w: World, kind: Kind, ref: Ref, obj: Object, st: State)
    requires Sound(plan, st) && PhaseTwoIdle(w, kind, ref, obj)
    ensures UpsertObject(w, kind, ref, obj, st) == FanOut(w, kind, st, Referring(w, kind, ref))
  {
    var st1 := FanOut(w, kind, st, Referring(w, kind, ref));
    var cbs := st1.Of(kind).upserts;
    var rule := UpsertRule(Key(ref), ObjectPayload(kind, obj));
    var files := Sweep(w, rule, st1.files, cbs, cbs.Keys);
    assert UpsertObject(w, kind, ref, obj, st) == st1.(files := files);
    hide Sweep, PhaseTwoIdle;
    forall path ensures At(files, path) == At(st1.files, path) {
      SweepAt(w, rule, st1.files, cbs, cbs.Keys, path);
      if Targeted(cbs, cbs.Keys, path) {
        ServedAlready(plan, w, kind, ref, obj, st, Owner(cbs, cbs.Keys, path));
      }
    }
    SameFiles(files, st1.files);
  }

  /** An event that carries the API's current object, with listers and payloads that agree, is such an event. */
  lemma CurrentIsIdle(w: World, kind: Kind, ref: Ref, obj: Object)
    requires Current(w, kind, ref, obj)
    ensures PhaseTwoIdle(w, kind, ref, obj)
  {
    forall name | Selected(w, kind, ref, name) ensures Settled(w, kind, ref, obj, name) {
      var own := w.GetShare(kind, name).value;
      KeyInjective(own.ns, own.name, ref.ns, ref.name);
      assert own == ref;
    }
  }

  /** So for a current event the two-phase upsert is one reconcile pass for the shares that refer to the object. */
  lemma UpsertIsReconcile(plan: Plan, w: World, kind: Kind, ref: Ref, obj: Object, st: State)
    requires Sound(plan, st) && Current(w, kind, ref, obj)
    ensures UpsertObject(w, kind, ref, obj, st) == FanOut(w, kind, st, Referring(w, kind, ref))
  {
    CurrentIsIdle(w, kind, ref, obj);
    hide *;
    PhaseTwoAddsNothing(plan, w, kind, ref, obj, st);
  }

  /** A registry with one volume, all of whose files are missing. */
  function SingleVolume(kind: Kind, vol: Vol): State {
    var none: Callbacks<Vol> := Callbacks(map[], map[], {}, {});
    State(map[vol.volID := vol], none, none, map[], map[], map[])
      .With(kind, Callbacks(map[vol.volID := vol], map[], {vol.volID}, {}))
  }

  lemma SingleSound(kind: Kind, vol: Vol)
    requires vol.kind == Known(kind)
    ensures Sound(map[vol.volID := vol], SingleVolume(kind, vol))
    ensures vol.volID in SingleVolume(kind, vol).Of(kind).upserts
  {
    var st := SingleVolume(kind, vol);
    assert vol.volID in st.Of(kind).shareUpdates;
    assert Registered(st.volumes, kind, st.Of(kind));
  }

  /** Some path is usable, as only finitely many are broken. */
  lemma {:induction false} UsablePath(broken: set<Path>) returns (path: Path)
    ensures path != "" && forall p :: p in broken ==> |p| < |path|
  {
    path := "/";
    if broken != {} {
      var p :| p in broken;
      var rest := UsablePath(broken - {p});
      path := rest + p;
    }
  }

  /** A share that is selected and not settled: a state in which the second phase does change something. */
  lemma UnsettledDiffers(w: World, kind: Kind, ref: Ref, obj: Object, name: string) returns (plan: Plan, st: State)
    requires Selected(w, kind, ref, name) && !Settled(w, kind, ref, obj, name)
    ensures Sound(plan, st)
    ensures UpsertObject(w, kind, ref, obj, st) != FanOut(w, kind, st, Referring(w, kind, ref))
  {
    var path := UsablePath(w.broken);
    var ns, sa := "", "";
    if exists ns, sa :: Review(Known(kind), name, ns, sa) in w.allowed {
      ns, sa :| Review(Known(kind), name, ns, sa) in w.allowed;
    }
    var vol := Vol("v", "", path, Known(kind), name, ns, "", "", sa, true);
    plan, st := map["v" := vol], SingleVolume(kind, vol);
    SingleSound(kind, vol);
    assert Proceed(w, vol, Key(ref)) && !w.FsFails(path);
    UnsettledWrites(plan, w, kind, ref, obj, st, "v");
  }

  lemma UnsettledWrites(plan: Plan, w: World, kind: Kind, ref: Ref, obj: Object, st: State, id: string)
    requires Sound(plan, st) && id in st.Of(kind).upserts && id in st.volumes
    requires Proceed(w, st.volumes[id], Key(ref)) && !w.FsFails(st.volumes[id].targetPath)
    requires At(st.files, st.volumes[id].targetPath) == None
    requires
      var vol := st.volumes[id];
      vol.shareID in Referring(w, kind, ref) && w.Fetch(kind, ref).Found? ==>
        Allowed(w, vol) && ObjectPayload(kind, obj) !in {map[], SharePayload(w.Fetch(kind, ref).obj)}
    ensures UpsertObject(w, kind, ref, obj, st) != FanOut(w, kind, st, Referring(w, kind, ref))
  {
    hide Sweep, Sound, CallUpserts;
    var vol := st.volumes[id];
    var st1 := FanOut(w, kind, st, Referring(w, kind, ref));
    FanOutSound(plan, w, kind, st, Referring(w, kind, ref));
    assert st1.volumes == st.volumes;
    hide FanOut, Referring;
    PhaseOneOwn(plan, w, kind, ref, st, id);
    if vol.shareID in Referring(w, kind, ref) {
      DecideReferring(w, kind, ref, vol);
    }
    CallUpsertsOwn(plan, w, kind, ref, obj, st1, id);
  }

  /**
   * For a given world and event, the two-phase upsert is its first phase in every state of the driver, exactly
   * when every share that the key filter selects is listed with this reference, the object can be fetched, and
   * the event's payload is empty or the fetched one, or no pod may use the share.
   */
  lemma UpsertIsReconcileExactly(w: World, kind: Kind, ref: Ref, obj: Object)
    ensures PhaseTwoIdle(w, kind, ref, obj) <==>
      forall plan, st :: Sound(plan, st) ==>
        UpsertObject(w, kind, ref, obj, st) == FanOut(w, kind, st, Referring(w, kind, ref))
  {
    hide Sound, UpsertObject, FanOut, Referring, Selected, Settled;
    if PhaseTwoIdle(w, kind, ref, obj) {
      forall plan, st | Sound(plan, st)
        ensures UpsertObject(w, kind, ref, obj, st) == FanOut(w, kind, st, Referring(w, kind, ref))
      {
        PhaseTwoAddsNothing(plan, w, kind, ref, obj, st);
      }
    } else {
      var name :| Selected(w, kind, ref, name) && !Settled(w, kind, ref, obj, name);
      var plan, st := UnsettledDiffers(w, kind, ref, obj, name);
    }
  }

  /** Two states that differ only in which backing-object upsert callbacks are registered. */
  ghost predicate SameButUpserts(kind: Kind, a: State, b: State) {
    b == a.With(kind, a.Of(kind).(upserts := b.Of(kind).upserts))
  }

  /** Hence the choice of registered upsert callbacks does not matter to the files. */
  lemma UpsertsIrrelevant(plan: Plan, w: World, kind: Kind, ref: Ref, obj: Object, a: State, b: State)
    requires Sound(plan, a) && Sound(plan, b) && SameButUpserts(kind, a, b) && PhaseTwoIdle(w, kind, ref, obj)
    ensures UpsertObject(w, kind, ref, obj, a).files == UpsertObject(w, kind, ref, obj, b).files
  {
    hide UpsertObject, Sound, PhaseTwoIdle;
    PhaseTwoAddsNothing(plan, w, kind, ref, obj, a);
    PhaseTwoAddsNothing(plan, w, kind, ref, obj, b);
  }

  /**
   * Exactly what an upsert leaves in a volume whose pod is denied but whose callback is registered:
   * emptied when the first phase reviews it, and otherwise served by the second phase all the same.
   */
  lemma UpsertDeniedExactly(plan: Plan, w: World, kind: Kind, ref: Ref, obj: Object, st: State, id: string)
    requires Sound(plan, st) && id in st.Of(kind).upserts && id in st.volumes
    requires !Allowed(w, st.volumes[id]) && Proceed(w, st.volumes[id], Key(ref))
    requires !w.FsFails(st.volumes[id].targetPath)
    ensures
      var vol := st.volumes[id];
      At(UpsertObject(w, kind, ref, obj, st).files, vol.targetPath) ==
        Settle(if Reaches(w, kind, ref, vol) then Clear else Put(ObjectPayload(kind, obj)), At(st.files, vol.targetPath))
  {
    hide Sweep;
    var vol := st.volumes[id];
    var st1 := FanOut(w, kind, st, Referring(w, kind, ref));
    assert st1.volumes == st.volumes;
    hide FanOut, CallUpserts;
    FanOutSound(plan, w, kind, st, Referring(w, kind, ref));
    PhaseOneOwn(plan, w, kind, ref, st, id);
    if vol.shareID in Referring(w, kind, ref) {
      DecideReferring(w, kind, ref, vol);
    }
    CallUpsertsOwn(plan, w, kind, ref, obj, st1, id);
  }

  /** The second phase serves a volume that has a callback, and leaves one that has none alone. */
  lemma CallUpsertsOwn(plan: Plan, w: World, kind: Kind, ref: Ref, obj: Object, st: State, id: string)
    requires Sound(plan, st) && id in st.volumes && !w.FsFails(st.volumes[id].targetPath)
    ensures
      var path := st.volumes[id].targetPath;
      At(CallUpserts(w, kind, ref, obj, st).files, path) ==
        if id in st.Of(kind).upserts
        then Settle(Decide(w, UpsertRule(Key(ref), ObjectPayload(kind, obj)), st.volumes[id]), At(st.files, path))
        else At(st.files, path)
  {
    hide Sweep, Decide;
    SoundTargets(plan, st);
    assert Registered(st.volumes, kind, st.Of(kind));
    var cbs := st.Of(kind).upserts;
    var path := st.volumes[id].targetPath;
    var rule := UpsertRule(Key(ref), ObjectPayload(kind, obj));
    if id in cbs {
      SweepOwn(w, rule, st.files, cbs, cbs.Keys, id);
    } else {
      assert !Targeted(cbs, cbs.Keys, path);
      SweepOther(w, rule, st.files, cbs, cbs.Keys, path);
    }
  }

  /** So an upsert writes data that remains in a denied volume exactly when its first phase misses the volume. */
  lemma UpsertRuleExactly(plan: Plan, w: World, kind: Kind, ref: Ref, obj: Object, st: State, id: string)
    requires Sound(plan, st) && id in st.Of(kind).upserts && id in st.volumes
    requires !Allowed(w, st.volumes[id]) && Proceed(w, st.volumes[id], Key(ref))
    requires !w.FsFails(st.volumes[id].targetPath)
    requires ObjectPayload(kind, obj) !in {map[], Shown(st.files, st.volumes[id].targetPath)}
    ensures
      var path := st.volumes[id].targetPath;
      Reaches(w, kind, ref, st.volumes[id]) <==>
        Shown(UpsertObject(w, kind, ref, obj, st).files, path) in {map[], Shown(st.files, path)}
  {
    UpsertDeniedExactly(plan, w, kind, ref, obj, st, id);
    hide Sweep, UpsertObject, Reaches, Sound;
    var path := st.volumes[id].targetPath;
    ShownAt(UpsertObject(w, kind, ref, obj, st).files, path);
    ShownAt(st.files, path);
  }

  lemma BrokenKept(w: World, kind: Kind, ref: Ref, obj: Object, st: State, path: Path)
    requires w.FsFails(path)
    ensures Shown(UpsertObject(w, kind, ref, obj, st).files, path) == Shown(st.files, path)
  {
    hide Sweep;
    var st1 := FanOut(w, kind, st, Referring(w, kind, ref));
    BrokenSweep(w, UpdateRule(kind), st.files, st.volumes, Naming(st.volumes, Referring(w, kind, ref)), path);
    var cbs := st1.Of(kind).upserts;
    BrokenSweep(w, UpsertRule(Key(ref), ObjectPayload(kind, obj)), st1.files, cbs, cbs.Keys, path);
  }

  lemma BrokenSweep(w: World, rule: Rule, files: Files, vols: map<string, Vol>, ids: set<string>, path: Path)
    requires w.FsFails(path)
    ensures Shown(Sweep(w, rule, files, vols, ids), path) == Shown(files, path)
  {
    SweepAt(w, rule, files, vols, ids, path);
    hide Sweep;
    ShownAt(files, path);
    ShownAt(Sweep(w, rule, files, vols, ids), path);
  }

  /** A denied volume without an upsert callback gets no data from either phase. */
  lemma NotServed(plan: Plan, w: World, kind: Kind, ref: Ref, obj: Object, st: State, id: string)
    requires Sound(plan, st) && id in plan && id !in st.Of(kind).upserts && !Allowed(w, plan[id])
    ensures Seen(plan, UpsertObject(w, kind, ref, obj, st), id) in {Seen(plan, st, id), map[]}
  {
    hide Sweep;
    var names := Referring(w, kind, ref);
    var st1 := FanOut(w, kind, st, names);
    SweepMoves(plan, w, UpdateRule(kind), st.files, st.volumes, Naming(st.volumes, names), id);
    FanOutSound(plan, w, kind, st, names);
    assert id !in st1.Of(kind).upserts;
    assert !Decide(w, UpdateRule(kind), plan[id]).Put?;
    hide FanOut, Referring, Decide;
    CapturedFit(plan, st1, kind);
    var cbs := st1.Of(kind).upserts;
    SweepMoves(plan, w, UpsertRule(Key(ref), ObjectPayload(kind, obj)), st1.files, cbs, cbs.Keys, id);
  }

  /** The steps that put data into a denied volume: upserts that serve it unreviewed, with data it does not show yet. */
  ghost predicate ServesUnreviewed(e: Event, st: State, id: string, vol: Vol) {
    && Leaky(e, vol) && id in st.Of(e.step.kind).upserts && !e.w.FsFails(vol.targetPath)
    && ObjectPayload(e.step.kind, e.step.obj) !in {map[], Shown(st.files, vol.targetPath)}
  }

  /**
   * The write rule of a single step, exactly: of all calls, events and restarts, in any state, a step leaves new
   * data in a volume whose pod it denies exactly if it is an upsert that serves the volume unreviewed.
   */
  lemma WriteRuleExactly(plan: Plan, rn: ReservedNames, e: Event, st: State, id: string)
    requires Sound(plan, st) && Fits(plan, rn, e) && id in plan && !Allowed(e.w, plan[id])
    ensures Seen(plan, Next(rn, e, st), id) !in {Seen(plan, st, id), map[]} <==> ServesUnreviewed(e, st, id, plan[id])
  {
    hide UpsertObject, Sound, Moves, Fits;
    StepMoves(plan, rn, e, st, id);
    if e.step.ObjectUpsert? {
      UpsertWritesExactly(plan, e, st, id);
    } else {
      DeniedMoves(e, plan[id], Seen(plan, st, id), Seen(plan, Next(rn, e, st), id));
    }
  }

  lemma DeniedMoves(e: Event, vol: Vol, before: Content, after: Content)
    requires Moves(e, vol, before, after) && !Allowed(e.w, vol) && !e.step.ObjectUpsert?
    ensures after in {before, map[]}
  {
  }

  lemma UpsertWritesExactly(plan: Plan, e: Event, st: State, id: string)
    requires Sound(plan, st) && id in plan && !Allowed(e.w, plan[id]) && e.step.ObjectUpsert?
    requires Moves(e, plan[id], Seen(plan, st, id), Seen(plan, UpsertObject(e.w, e.step.kind, e.step.ref, e.step.obj, st), id))
    ensures
      var after := Seen(plan, UpsertObject(e.w, e.step.kind, e.step.ref, e.step.obj, st), id);
      after !in {Seen(plan, st, id), map[]} <==> ServesUnreviewed(e, st, id, plan[id])
  {
    hide UpsertObject, Reaches, Proceed, Sound;
    var ObjectUpsert(kind, ref, obj) := e.step;
    if id !in st.Of(kind).upserts {
      NotServed(plan, e.w, kind, ref, obj, st, id);
    } else if e.w.FsFails(plan[id].targetPath) {
      BrokenKept(e.w, kind, ref, obj, st, plan[id].targetPath);
    } else {
      UpsertedVolume(plan, kind, st, id);
      if Proceed(e.w, plan[id], Key(ref)) && ObjectPayload(kind, obj) !in {map[], Seen(plan, st, id)} {
        UpsertRuleExactly(plan, e.w, kind, ref, obj, st, id);
      }
    }
  }

  lemma UpsertedVolume(plan: Plan, kind: Kind, st: State, id: string)
    requires Sound(plan, st) && id in st.Of(kind).upserts
    ensures id in st.volumes && id in plan && st.volumes[id] == plan[id] && plan[id].kind == Known(kind)
  {
    assert Registered(st.volumes, kind, st.Of(kind));
  }

  /** And so in every step of every run. */
  lemma RunWriteRuleExactly(plan: Plan, rn: ReservedNames, trace: seq<Event>, st: State, id: string, i: nat)
    requires Sound(plan, st) && id in plan && i < |trace| && !Allowed(trace[i].w, plan[id])
    requires forall j :: 0 <= j < |trace| ==> Fits(plan, rn, trace[j])
    ensures
      var mid := Run(rn, trace[..i], st);
      var after := Seen(plan, Run(rn, trace[..i + 1], st), id);
      after !in {Seen(plan, mid, id), map[]} <==> ServesUnreviewed(trace[i], mid, id, plan[id])
  {
    hide Sound, Fits, Next, ServesUnreviewed;
    var init := trace[..i];
    assert trace[..i + 1][..i] == init;
    forall j | 0 <= j < |init| ensures Fits(plan, rn, init[j]) { assert init[j] == trace[j]; }
    RunSound(plan, rn, init, st);
    WriteRuleExactly(plan, rn, trace[i], Run(rn, init, st), id);
  }
}
