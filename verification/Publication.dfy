/**
 * pkg/csidriver/dpv.go and createVolume: CreateDV puts a volume in the table before its fields are set.
 * Each setter and each getter takes the volume's lock on its own, so a share ranger that runs meanwhile
 * reads the fields one by one, with any number of setters in between.
 */
module Publication {
  import opened Cluster
  import opened Sweeps

  /** createVolume's setter calls, in its order: the share id comes last. */
  datatype Setter = Size | Anchor | BindMount | Access | Target | PodNs | PodName | PodUID | PodSA | DoRefresh | DataKind | DataId

  const SETTERS: seq<Setter> :=
    [Size, Anchor, BindMount, Access, Target, PodNs, PodName, PodUID, PodSA, DoRefresh, DataKind, DataId]

  /** One setter call for the volume createVolume is filling in. */
  function Set(vol: Vol, setter: Setter, dv: Vol): Vol {
    match setter
    case Anchor => dv.(anchorDir := vol.anchorDir)
    case Target => dv.(targetPath := vol.targetPath)
    case PodNs => dv.(podNs := vol.podNs)
    case PodName => dv.(podName := vol.podName)
    case PodUID => dv.(podUID := vol.podUID)
    case PodSA => dv.(podSA := vol.podSA)
    case DoRefresh => dv.(refresh := vol.refresh)
    case DataKind => dv.(kind := vol.kind)
    case DataId => dv.(shareID := vol.shareID)
    case _ => dv
  }

  /** CreateDV. */
  function Unset(id: string): Vol {
    Vol(id, "", "", Unknown(""), "", "", "", "", "", false)
  }

  /** The getters innerShareUpdateRanger.Range calls on a volume it matches, and those of commonUpsertRanger behind it. */
  datatype Getter = VolID | SharedDataId | Namespace | Name | ServiceAccount | SharedDataKind | TargetPath
                  | VolIDAgain | KindAgain | DataIdAgain | TargetAgain

  const GETTERS: seq<Getter> :=
    [VolID, SharedDataId, Namespace, Name, ServiceAccount, SharedDataKind, TargetPath, VolIDAgain, KindAgain, DataIdAgain, TargetAgain]

  /** The volume as it was at each getter call so far, and how many setters have run. */
  datatype System = System(dv: Vol, done: nat, seen: seq<Vol>)

  /** The ranger has compared the share id it read, and went on. */
  predicate Matched(s: System, shareId: string) {
    |s.seen| >= 2 && s.seen[1].shareID == shareId
  }

  datatype Move = SetNext | GetNext

  /** One locked access by either side; neither goes beyond its end, and a ranger without a match stops. */
  function Next(vol: Vol, shareId: string, s: System, m: Move): System {
    match m
    case SetNext => if s.done < |SETTERS| then s.(dv := Set(vol, SETTERS[s.done], s.dv), done := s.done + 1) else s
    case GetNext =>
      if |s.seen| < |GETTERS| && (|s.seen| < 2 || Matched(s, shareId)) then s.(seen := s.seen + [s.dv]) else s
  }

  /** Any interleaving, from the moment the volume is in the table. */
  function Run(vol: Vol, shareId: string, schedule: seq<Move>): System {
    if schedule == [] then System(Unset(vol.volID), 0, [])
    else Next(vol, shareId, Run(vol, shareId, schedule[..|schedule| - 1]), schedule[|schedule| - 1])
  }

  /** Until the last setter the share id is empty; after it every field is set. */
  ghost predicate Progress(vol: Vol, dv: Vol, done: nat) {
    && dv.volID == vol.volID && done <= |SETTERS|
    && (done >= 2 ==> dv.anchorDir == vol.anchorDir)
    && (done >= 5 ==> dv.targetPath == vol.targetPath)
    && (done >= 6 ==> dv.podNs == vol.podNs)
    && (done >= 7 ==> dv.podName == vol.podName)
    && (done >= 8 ==> dv.podUID == vol.podUID)
    && (done >= 9 ==> dv.podSA == vol.podSA)
    && (done >= 10 ==> dv.refresh == vol.refresh)
    && (done >= 11 ==> dv.kind == vol.kind)
    && dv.shareID == if done >= 12 then vol.shareID else ""
  }

  /** What a ranger for a non-empty share id has seen since it matched is the finished volume. */
  ghost predicate Safe(vol: Vol, shareId: string, s: System) {
    && Progress(vol, s.dv, s.done)
    && (forall i :: 0 <= i < |s.seen| ==> s.seen[i].volID == vol.volID)
    && (shareId != "" && Matched(s, shareId) ==>
      s.done == |SETTERS| && forall i :: 1 <= i < |s.seen| ==> s.seen[i] == vol)
  }

  lemma SetProgress(vol: Vol, dv: Vol, done: nat)
    requires Progress(vol, dv, done) && done < |SETTERS|
    ensures Progress(vol, Set(vol, SETTERS[done], dv), done + 1)
  {
  }

  lemma NextSafe(vol: Vol, shareId: string, s: System, m: Move)
    requires Safe(vol, shareId, s)
    ensures Safe(vol, shareId, Next(vol, shareId, s, m))
  {
    if m == SetNext && s.done < |SETTERS| {
      SetProgress(vol, s.dv, s.done);
    }
    if m == GetNext && s.done == |SETTERS| {
      assert s.dv == vol;
    }
  }

  /** Safe publication: over every interleaving of the setters and a ranger's getters. */
  lemma {:induction false} RunSafe(vol: Vol, shareId: string, schedule: seq<Move>)
    ensures Safe(vol, shareId, Run(vol, shareId, schedule))
  {
    if schedule != [] {
      var init := schedule[..|schedule| - 1];
      RunSafe(vol, shareId, init);
      NextSafe(vol, shareId, Run(vol, shareId, init), schedule[|schedule| - 1]);
    }
  }

  /** The ranger has made all its reads. */
  predicate Finished(s: System, shareId: string) {
    |s.seen| == |GETTERS| && Matched(s, shareId)
  }

  /** The path the ranger acts on and what it does there, each field taken from the read that supplied it. */
  function Acts(w: World, kind: Kind, shareId: string, seen: seq<Vol>): (Path, Outcome)
    requires |seen| == |GETTERS|
  {
    match w.GetShare(kind, shareId)
    case None => (seen[6].targetPath, Skip)
    case Some(ref) =>
      match w.Fetch(kind, ref)
      case Found(obj) =>
        if Review(seen[5].kind, shareId, seen[2].podNs, seen[4].podSA) !in w.allowed then (seen[6].targetPath, Clear)
        else if
          seen[8].kind.Known? &&
          var share := w.GetShare(seen[8].kind.kind, seen[9].shareID);
          share.Some? && Key(share.value) == Key(ref)
        then (seen[10].targetPath, Put(SharePayload(obj)))
        else (seen[10].targetPath, Skip)
      case _ => (seen[6].targetPath, Skip)
  }

  /** Hence its separate reads act as one look at the finished volume. */
  lemma ReadsAreOneSnapshot(vol: Vol, w: World, kind: Kind, shareId: string, schedule: seq<Move>)
    requires shareId != "" && Finished(Run(vol, shareId, schedule), shareId)
    ensures Acts(w, kind, shareId, Run(vol, shareId, schedule).seen) == (vol.targetPath, Decide(w, UpdateRule(kind), vol))
  {
    RunSafe(vol, shareId, schedule);
    var seen := Run(vol, shareId, schedule).seen;
    assert seen[1] == vol;
  }

  lemma {:induction false} EarlyReads(vol: Vol, n: nat)
    requires n <= |GETTERS|
    ensures
      var s := Run(vol, "", seq(n, _ => GetNext));
      s.dv == Unset(vol.volID) && s.done == 0 && |s.seen| == n && forall i :: 0 <= i < n ==> s.seen[i] == Unset(vol.volID)
  {
    if n > 0 {
      var schedule := seq(n, _ => GetNext);
      assert schedule[..n - 1] == seq(n - 1, _ => GetNext);
      EarlyReads(vol, n - 1);
    }
  }

  /** Every finished ranger sees the finished target path, over all interleavings, exactly when its share id is not empty. */
  lemma PublicationExactly(vol: Vol, shareId: string)
    requires vol.targetPath != ""
    ensures shareId != "" <==>
      forall schedule :: Finished(Run(vol, shareId, schedule), shareId) ==>
        Run(vol, shareId, schedule).seen[6].targetPath == vol.targetPath
  {
    if shareId != "" {
      forall schedule | Finished(Run(vol, shareId, schedule), shareId)
        ensures Run(vol, shareId, schedule).seen[6].targetPath == vol.targetPath
      {
        RunSafe(vol, shareId, schedule);
      }
    } else {
      EarlyReads(vol, |GETTERS|);
      assert Finished(Run(vol, "", seq(|GETTERS|, _ => GetNext)), "");
    }
  }
}
