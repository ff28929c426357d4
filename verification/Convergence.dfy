/** What share events make of a volume, and convergence to the contents the API calls for. */
module Convergence {
  import opened Text
  import opened Cluster
  import opened Reservations
  import opened Sweeps
  import opened Requests
  import opened Machine
  import opened Registry
  import opened Passes
  import opened Provenance
  import opened Upserts

  /** The volume's own share and the object behind it can both be fetched. */
  ghost predicate Resolves(w: World, vol: Vol) {
    vol.kind.Known? && w.GetShare(vol.kind.kind, vol.shareID).Some?
    && w.Fetch(vol.kind.kind, w.GetShare(vol.kind.kind, vol.shareID).value).Found?
  }

  ghost function Backing(w: World, vol: Vol): Object
    requires Resolves(w, vol)
  {
    w.Fetch(vol.kind.kind, w.GetShare(vol.kind.kind, vol.shareID).value).obj
  }

  /** The simple specification: the data the share points to if the pod is allowed, and otherwise nothing. */
  ghost function Desired(w: World, vol: Vol): Content
    requires Resolves(w, vol)
  {
    if Allowed(w, vol) then SharePayload(Backing(w, vol)) else map[]
  }

  /** No share of the other kind has both the name and the reference of the volume's own share. */
  ghost predicate NoTwin(w: World, vol: Vol) {
    vol.kind.Known? ==>
      var own, other := w.GetShare(vol.kind.kind, vol.shareID), w.GetShare(OtherKind(vol.kind.kind), vol.shareID);
      own.Some? && other.Some? ==> Key(own.value) != Key(other.value)
  }

  /** mapVolumeToPod has registered the volume for its kind's share updates. */
  ghost predicate Published(st: State, id: string) {
    id in st.volumes && st.volumes[id].kind.Known? && id in st.Of(st.volumes[id].kind.kind).shareUpdates
  }

  /** What a matched volume shows after a pass of its own kind, in every case. */
  ghost function AfterOwnPass(w: World, vol: Vol, before: Content): Content {
    if w.FsFails(vol.targetPath) || !Resolves(w, vol) then before
    else if !Allowed(w, vol) then map[]
    else if SharePayload(Backing(w, vol)) == map[] then before
    else SharePayload(Backing(w, vol))
  }

  lemma OwnPass(w: World, kind: Kind, st: State, ids: set<string>, id: string)
    requires DistinctTargets(st.volumes) && id in ids && id in st.volumes && st.volumes[id].kind == Known(kind)
    ensures
      var path := st.volumes[id].targetPath;
      Shown(Pass(w, kind, st, ids).files, path) == AfterOwnPass(w, st.volumes[id], Shown(st.files, path))
  {
    PassOwn(w, kind, st, ids, id);
    hide Sweep, Pass;
    ShownAt(Pass(w, kind, st, ids).files, st.volumes[id].targetPath);
    ShownAt(st.files, st.volumes[id].targetPath);
  }

  /** A pass keeps a volume that already shows what it should, whichever kind the pass is for. */
  lemma PassKeeps(w: World, kind: Kind, st: State, ids: set<string>, id: string)
    requires DistinctTargets(st.volumes) && id in st.volumes
    requires Resolves(w, st.volumes[id]) && NoTwin(w, st.volumes[id])
    requires Shown(st.files, st.volumes[id].targetPath) == Desired(w, st.volumes[id])
    ensures Shown(Pass(w, kind, st, ids).files, st.volumes[id].targetPath) == Desired(w, st.volumes[id])
  {
    var vol := st.volumes[id];
    if id !in ids {
      PassOther(w, kind, st, ids, id);
    } else if vol.kind == Known(kind) {
      OwnPass(w, kind, st, ids, id);
    } else {
      PassOwn(w, kind, st, ids, id);
      assert kind == OtherKind(vol.kind.kind);
      assert Decide(w, UpdateRule(kind), vol).Clear? ==> !Allowed(w, vol);
      assert !Decide(w, UpdateRule(kind), vol).Put?;
    }
    hide Sweep, Pass, Decide;
    ShownAt(Pass(w, kind, st, ids).files, vol.targetPath);
    ShownAt(st.files, vol.targetPath);
  }

  /** What the volume of a share event's own kind and name shows after the event, in every case. */
  lemma ShareEventExactly(plan: Plan, w: World, kind: Kind, name: string, ref: Ref, st: State, id: string)
    requires Sound(plan, st) && Published(st, id)
    requires st.volumes[id].kind == Known(kind) && st.volumes[id].shareID == name
    ensures Seen(plan, AddShare(w, kind, name, ref, st), id) ==
      if w.Fetch(kind, ref).Found? then AfterOwnPass(w, plan[id], Seen(plan, st, id)) else Seen(plan, st, id)
  {
    SoundTargets(plan, st);
    assert id in Naming(st.volumes, {name});
    OwnPass(w, kind, st, Naming(st.volumes, {name}), id);
  }

  lemma AddShareFrame(plan: Plan, w: World, kind: Kind, name: string, ref: Ref, st: State)
    requires Sound(plan, st)
    ensures
      var st1 := AddShare(w, kind, name, ref, st);
      Sound(plan, st1) && st1.volumes == st.volumes && st1.Of(kind).shareUpdates == st.Of(kind).shareUpdates
  {
    FanOutSound(plan, w, kind, st, {name});
    PassFrame(w, kind, st, Naming(st.volumes, {name}));
    hide Pass, Sound;
  }

  /** Data goes when the pod's permission goes and comes back when it comes back, each with the share's next event. */
  lemma PermissionCycle(plan: Plan, lost: World, regained: World, kind: Kind, name: string, ref: Ref, st: State, id: string)
    requires Sound(plan, st) && Published(st, id) && id in plan && plan[id].kind == Known(kind) && plan[id].shareID == name
    requires !Allowed(lost, plan[id]) && lost.GetShare(kind, name) == Some(ref) && lost.Fetch(kind, ref).Found?
    requires Allowed(regained, plan[id]) && regained.GetShare(kind, name) == Some(ref) && regained.Fetch(kind, ref).Found?
    requires !lost.FsFails(plan[id].targetPath) && !regained.FsFails(plan[id].targetPath)
    requires SharePayload(regained.Fetch(kind, ref).obj) != map[]
    ensures
      var gone := AddShare(lost, kind, name, ref, st);
      && Seen(plan, gone, id) == map[]
      && Seen(plan, AddShare(regained, kind, name, ref, gone), id) == SharePayload(regained.Fetch(kind, ref).obj)
  {
    hide AddShare, Sound;
    PublishedVolume(plan, st, id);
    AddShareFrame(plan, lost, kind, name, ref, st);
    ShareEventExactly(plan, lost, kind, name, ref, st, id);
    ShareEventExactly(plan, regained, kind, name, ref, AddShare(lost, kind, name, ref, st), id);
  }

  lemma PublishedVolume(plan: Plan, st: State, id: string)
    requires Sound(plan, st) && Published(st, id)
    ensures id in plan && st.volumes[id] == plan[id]
  {
  }

  /** An event that only reports the API's present state: a share as it is found, or an object whose second phase is idle. */
  ghost predicate Faithful(e: Event) {
    match e.step
    case ShareUpsert(kind, name, ref) => e.w.GetShare(kind, name) == Some(ref)
    case ObjectUpsert(kind, ref, obj) => PhaseTwoIdle(e.w, kind, ref, obj)
    case _ => false
  }

  lemma FaithfulFrame(plan: Plan, rn: ReservedNames, e: Event, st: State)
    requires Sound(plan, st) && Faithful(e)
    ensures Next(rn, e, st).volumes == st.volumes
    ensures forall k: Kind :: Next(rn, e, st).Of(k).shareUpdates == st.Of(k).shareUpdates
  {
    hide Sweep, Decide, Referring, Sound, PhaseTwoIdle, Denied, Naming;
  }

  lemma FaithfulKeeps(plan: Plan, rn: ReservedNames, e: Event, st: State, id: string)
    requires Sound(plan, st) && Faithful(e) && id in st.volumes
    requires Resolves(e.w, plan[id]) && NoTwin(e.w, plan[id])
    requires Seen(plan, st, id) == Desired(e.w, plan[id])
    ensures Seen(plan, Next(rn, e, st), id) == Desired(e.w, plan[id])
  {
    SoundTargets(plan, st);
    match e.step
    case ShareUpsert(kind, name, ref) =>
      PassKeeps(e.w, kind, st, Naming(st.volumes, {name}), id);
      hide Sweep, Pass;
    case ObjectUpsert(kind, ref, obj) =>
      IdleUpsertKeeps(plan, e.w, kind, ref, obj, st, id);
  }

  lemma IdleUpsertKeeps(plan: Plan, w: World, kind: Kind, ref: Ref, obj: Object, st: State, id: string)
    requires Sound(plan, st) && PhaseTwoIdle(w, kind, ref, obj) && id in st.volumes
    requires Resolves(w, plan[id]) && NoTwin(w, plan[id])
    requires Seen(plan, st, id) == Desired(w, plan[id])
    ensures Seen(plan, UpsertObject(w, kind, ref, obj, st), id) == Desired(w, plan[id])
  {
    SoundTargets(plan, st);
    var names := Referring(w, kind, ref);
    PassKeeps(w, kind, st, Naming(st.volumes, names), id);
    hide Sweep, Pass, Referring, Desired, PhaseTwoIdle;
    PhaseTwoAddsNothing(plan, w, kind, ref, obj, st);
  }

  /** Events of a relist against one fixed API state. */
  ghost predicate Relist(w: World, trace: seq<Event>) {
    forall i :: 0 <= i < |trace| ==> trace[i].w == w && Faithful(trace[i])
  }

  /** The event of the volume's own share. */
  predicate OwnEvent(e: Event, vol: Vol) {
    e.step.ShareUpsert? && vol.kind == Known(e.step.kind) && vol.shareID == e.step.name
  }

  /** The relist contains the event of the volume's own share. */
  ghost predicate Announces(trace: seq<Event>, vol: Vol) {
    exists i :: 0 <= i < |trace| && OwnEvent(trace[i], vol)
  }

  /** The data a volume should show leaves the driver something to write, or nothing to leave behind. */
  ghost predicate Deliverable(w: World, vol: Vol) {
    Resolves(w, vol) && NoTwin(w, vol) && !w.FsFails(vol.targetPath)
    && (Allowed(w, vol) ==> SharePayload(Backing(w, vol)) != map[])
  }

  lemma {:induction false} RelistFrame(plan: Plan, rn: ReservedNames, w: World, trace: seq<Event>, st: State)
    requires Sound(plan, st) && Relist(w, trace)
    ensures Sound(plan, Run(rn, trace, st))
    ensures Run(rn, trace, st).volumes == st.volumes
    ensures forall k: Kind :: Run(rn, trace, st).Of(k).shareUpdates == st.Of(k).shareUpdates
  {
    if trace != [] {
      var init, e := trace[..|trace| - 1], trace[|trace| - 1];
      RelistFrame(plan, rn, w, init, st);
      FaithfulFrame(plan, rn, e, Run(rn, init, st));
      ShareEventSound(plan, rn, e, Run(rn, init, st));
    }
  }

  lemma RelistStill(plan: Plan, rn: ReservedNames, w: World, trace: seq<Event>, st: State, id: string)
    requires Sound(plan, st) && Published(st, id) && Relist(w, trace)
    ensures id in plan && id in st.volumes
    ensures var mid := Run(rn, trace, st); Sound(plan, mid) && Published(mid, id) && id in mid.volumes
  {
    RelistFrame(plan, rn, w, trace, st);
  }

  lemma AnnouncedBefore(trace: seq<Event>, vol: Vol)
    requires Announces(trace, vol) && !OwnEvent(trace[|trace| - 1], vol)
    ensures Announces(trace[..|trace| - 1], vol)
  {
    var i :| 0 <= i < |trace| && OwnEvent(trace[i], vol);
    assert trace[..|trace| - 1][i] == trace[i];
  }

  lemma {:induction false} RelistConverges(plan: Plan, rn: ReservedNames, w: World, trace: seq<Event>, st: State, id: string)
    requires Sound(plan, st) && Published(st, id) && id in plan
    requires Relist(w, trace) && Announces(trace, plan[id]) && Deliverable(w, plan[id])
    ensures Seen(plan, Run(rn, trace, st), id) == Desired(w, plan[id])
  {
    var init, e := trace[..|trace| - 1], trace[|trace| - 1];
    var mid := Run(rn, init, st);
    assert Relist(w, init) && e.w == w && Faithful(e);
    assert Run(rn, trace, st) == Next(rn, e, mid);
    hide *;
    RelistStill(plan, rn, w, init, st, id);
    if OwnEvent(e, plan[id]) {
      OwnEventDelivers(plan, rn, e, mid, id);
    } else {
      AnnouncedBefore(trace, plan[id]);
      RelistConverges(plan, rn, w, init, st, id);
      DeliverableResolves(w, plan[id]);
      FaithfulKeeps(plan, rn, e, mid, id);
    }
  }

  lemma DeliverableResolves(w: World, vol: Vol)
    requires Deliverable(w, vol)
    ensures Resolves(w, vol) && NoTwin(w, vol)
  {
  }

  lemma OwnEventDelivers(plan: Plan, rn: ReservedNames, e: Event, st: State, id: string)
    requires Sound(plan, st) && Published(st, id) && OwnEvent(e, plan[id]) && Faithful(e)
    requires Deliverable(e.w, plan[id])
    ensures Seen(plan, Next(rn, e, st), id) == Desired(e.w, plan[id])
  {
    ShareEventExactly(plan, e.w, e.step.kind, e.step.name, e.step.ref, st, id);
  }

  lemma {:induction false} RunConcat(rn: ReservedNames, a: seq<Event>, b: seq<Event>, st: State)
    ensures Run(rn, a + b, st) == Run(rn, b, Run(rn, a, st))
  {
    if b == [] {
      assert a + b == a;
    } else {
      var init := b[..|b| - 1];
      assert (a + b)[..|a + b| - 1] == a + init;
      RunConcat(rn, a, init, st);
    }
  }

  /**
   * Convergence: after any history at all, a relist against a fixed API state leaves every published
   * volume with the data its share points to if its pod is allowed, and with nothing if it is not.
   */
  lemma Convergence(plan: Plan, rn: ReservedNames, history: seq<Event>, w: World, relist: seq<Event>, st: State, id: string)
    requires Sound(plan, st) && forall i :: 0 <= i < |history| ==> Fits(plan, rn, history[i])
    requires Published(Run(rn, history, st), id)
    requires id in plan && Relist(w, relist) && Announces(relist, plan[id]) && Deliverable(w, plan[id])
    ensures Seen(plan, Run(rn, history + relist, st), id) == Desired(w, plan[id])
  {
    RunSound(plan, rn, history, st);
    RunConcat(rn, history, relist, st);
    RelistConverges(plan, rn, w, relist, Run(rn, history, st), id);
  }

  /** Two different histories, and two different relists, of the same API state end equal. */
  lemma HistoriesConverge(plan: Plan, rn: ReservedNames, w: World, st0: State, history0: seq<Event>, relist0: seq<Event>,
                          st1: State, history1: seq<Event>, relist1: seq<Event>, id: string)
    requires Sound(plan, st0) && forall i :: 0 <= i < |history0| ==> Fits(plan, rn, history0[i])
    requires Sound(plan, st1) && forall i :: 0 <= i < |history1| ==> Fits(plan, rn, history1[i])
    requires Published(Run(rn, history0, st0), id) && Published(Run(rn, history1, st1), id)
    requires id in plan && Deliverable(w, plan[id])
    requires Relist(w, relist0) && Announces(relist0, plan[id]) && Relist(w, relist1) && Announces(relist1, plan[id])
    ensures Seen(plan, Run(rn, history0 + relist0, st0), id) == Seen(plan, Run(rn, history1 + relist1, st1), id)
  {
    Convergence(plan, rn, history0, w, relist0, st0, id);
    Convergence(plan, rn, history1, w, relist1, st1, id);
  }

  /**
   * Exactly when the own share event brings a published volume to the simple specification: its share
   * resolves to an object, and the payload is not empty, unless the pod is denied or nothing was there.
   */
  lemma SpecificationMetExactly(plan: Plan, w: World, kind: Kind, name: string, ref: Ref, st: State, id: string)
    requires Sound(plan, st) && Published(st, id) && Resolves(w, plan[id]) && !w.FsFails(plan[id].targetPath)
    requires st.volumes[id].kind == Known(kind) && st.volumes[id].shareID == name && w.GetShare(kind, name) == Some(ref)
    ensures Seen(plan, AddShare(w, kind, name, ref, st), id) == Desired(w, plan[id]) <==>
      !Allowed(w, plan[id]) || SharePayload(Backing(w, plan[id])) != map[] || Seen(plan, st, id) == map[]
  {
    ShareEventExactly(plan, w, kind, name, ref, st, id);
  }

  /**
   * Volumes are matched to share events by name alone. An event of the other kind's share of that name
   * leaves a served volume as it is exactly when the two shares are not twins, or the twin's data makes no difference.
   */
  lemma OtherKindEventExactly(plan: Plan, w: World, kind: Kind, name: string, ref: Ref, st: State, id: string)
    requires Sound(plan, st) && id in plan && id in st.volumes && plan[id].kind == Known(OtherKind(kind)) && plan[id].shareID == name
    requires st.Of(kind).shareUpdates != {} && w.GetShare(kind, name) == Some(ref) && w.Fetch(kind, ref).Found?
    requires Resolves(w, plan[id]) && Allowed(w, plan[id]) && !w.FsFails(plan[id].targetPath)
    requires Seen(plan, st, id) == Desired(w, plan[id])
    ensures Seen(plan, AddShare(w, kind, name, ref, st), id) == Desired(w, plan[id]) <==>
      NoTwin(w, plan[id]) || SharePayload(w.Fetch(kind, ref).obj) in {map[], Desired(w, plan[id])}
  {
    hide AddShare, Sound, Decide;
    NamedEventShows(plan, w, kind, name, ref, st, id);
    OtherKindDecides(w, kind, ref, plan[id]);
  }

  /** What an event of either kind's share makes of a volume that has the share's name. */
  lemma NamedEventShows(plan: Plan, w: World, kind: Kind, name: string, ref: Ref, st: State, id: string)
    requires Sound(plan, st) && id in st.volumes && plan[id].shareID == name && !w.FsFails(plan[id].targetPath)
    ensures Seen(plan, AddShare(w, kind, name, ref, st), id) ==
      if !w.Fetch(kind, ref).Found? || st.Of(kind).shareUpdates == {} then Seen(plan, st, id)
      else ShownAfter(Decide(w, UpdateRule(kind), plan[id]), Seen(plan, st, id))
  {
    hide Pass, Sweep, Decide;
    SoundTargets(plan, st);
    var ids := Naming(st.volumes, {name});
    assert id in ids;
    PassOwn(w, kind, st, ids, id);
    ShownAt(Pass(w, kind, st, ids).files, plan[id].targetPath);
    ShownAt(st.files, plan[id].targetPath);
  }

  lemma OtherKindDecides(w: World, kind: Kind, ref: Ref, vol: Vol)
    requires vol.kind == Known(OtherKind(kind)) && w.GetShare(kind, vol.shareID) == Some(ref)
    ensures Decide(w, UpdateRule(kind), vol) ==
      if !w.Fetch(kind, ref).Found? then Skip
      else if !Allowed(w, vol) then Clear
      else if NoTwin(w, vol) then Skip
      else Put(SharePayload(w.Fetch(kind, ref).obj))
  {
  }
}
