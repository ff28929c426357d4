/** pkg/csidriver/nodeserver.go: the checks a NodePublishVolume request passes before anything is changed. */
module Requests {
  import opened Text
  import opened Cluster
  import opened Reservations
  import opened Sweeps

  /** gRPC status of a call; Panic stands for a nil dereference in the handler. */
  datatype Code = OK | InvalidArgument | PermissionDenied | Internal | Panic

  type Context = map<string, string>

  const CSI_POD_NAME := "csi.storage.k8s.io/pod.name"
  const CSI_POD_NAMESPACE := "csi.storage.k8s.io/pod.namespace"
  const CSI_POD_UID := "csi.storage.k8s.io/pod.uid"
  const CSI_POD_SA := "csi.storage.k8s.io/serviceAccount.name"
  const CSI_EPHEMERAL := "csi.storage.k8s.io/ephemeral"
  const SHARED_CONFIG_MAP_SHARE_KEY := "sharedConfigMap"
  const SHARED_SECRET_SHARE_KEY := "sharedSecret"
  const REFRESH_RESOURCE := "refreshResource"

  datatype Request = Request(
    hasCapability: bool,
    hasMount: bool,
    volumeId: string,
    targetPath: Path,
    context: Context,
    readonly: bool)

  /** Reading a missing key of a Go map gives the empty string. */
  function Attr(ctx: Context, key: string): string {
    if key in ctx then ctx[key] else ""
  }

  function ShareKey(kind: Kind): string {
    if kind == Secret then SHARED_SECRET_SHARE_KEY else SHARED_CONFIG_MAP_SHARE_KEY
  }

  function OtherKind(kind: Kind): Kind {
    if kind == Secret then ConfigMap else Secret
  }

  datatype Share = Share(name: string, ref: Ref)

  /** The two share pointers validateShare returns, or the status it fails with. */
  datatype ShareCheck = Passed(cm: Option<Share>, sec: Option<Share>) | Rejected(code: Code)

  /** validateShare. The shares are read from the listers alone, without the API fallback. */
  function ValidateShare(w: World, rn: ReservedNames, ctx: Context): ShareCheck {
    var cmok := SHARED_CONFIG_MAP_SHARE_KEY in ctx;
    var sok := SHARED_SECRET_SHARE_KEY in ctx;
    var cmName := Attr(ctx, SHARED_CONFIG_MAP_SHARE_KEY);
    var sName := Attr(ctx, SHARED_SECRET_SHARE_KEY);
    if (!cmok && !sok) || (Blank(cmName) && Blank(sName)) then Rejected(InvalidArgument)
    else if (cmok && sok) || (!Blank(cmName) && !Blank(sName)) then Rejected(InvalidArgument)
    else if cmName != "" && cmName !in w.configMaps.listedShares then Rejected(InvalidArgument)
    else if sName != "" && sName !in w.secrets.listedShares then Rejected(InvalidArgument)
    else
      var cm := if cmName != "" then Some(Share(cmName, w.configMaps.listedShares[cmName])) else None;
      var sec := if sName != "" then Some(Share(sName, w.secrets.listedShares[sName])) else None;
      if cm.None? && sec.None? then Rejected(InvalidArgument)
      else if cmok && cm.None? then Rejected(Panic)
      else if cmok && !ValidName(rn, ConfigMap, cmName, cm.value.ref) then Rejected(InvalidArgument)
      else if sok && sec.None? then Rejected(Panic)
      else if sok && !ValidName(rn, Secret, sName, sec.value.ref) then Rejected(InvalidArgument)
      else if cm.Some? && (Blank(cm.value.ref.ns) || Blank(cm.value.ref.name)) then Rejected(InvalidArgument)
      else if sec.Some? && (Blank(sec.value.ref.ns) || Blank(sec.value.ref.name)) then Rejected(InvalidArgument)
      else
        var kind := if sec.Some? then Secret else ConfigMap;
        var name := if sec.Some? then sName else cmName;
        match w.Ask(PodReview(ctx, kind, name))
        case Granted => Passed(cm, sec)
        case Refused => Rejected(PermissionDenied)
        case Unanswered => Rejected(Internal)
  }

  /** The review validateShare asks for. */
  function PodReview(ctx: Context, kind: Kind, name: string): Review {
    Review(Known(kind), name, Attr(ctx, CSI_POD_NAMESPACE), Attr(ctx, CSI_POD_SA))
  }

  /** The request names exactly one share, of this kind, which is listed, well referenced and not reserved for another. */
  predicate Names(w: World, rn: ReservedNames, ctx: Context, kind: Kind, share: Share) {
    && ShareKey(kind) in ctx && ctx[ShareKey(kind)] == share.name && !Blank(share.name)
    && ShareKey(OtherKind(kind)) !in ctx
    && share.name in w.Of(kind).listedShares && w.Of(kind).listedShares[share.name] == share.ref
    && !Blank(share.ref.ns) && !Blank(share.ref.name)
    && ValidName(rn, kind, share.name, share.ref)
  }

  /** And the pod may use it. */
  predicate Accepts(w: World, rn: ReservedNames, ctx: Context, kind: Kind, share: Share) {
    Names(w, rn, ctx, kind, share) && w.Ask(PodReview(ctx, kind, share.name)) == Granted
  }

  /** The request gets as far as the access review, with this answer. */
  ghost predicate Reviewed(w: World, rn: ReservedNames, ctx: Context, answer: Answer) {
    exists kind, share :: Names(w, rn, ctx, kind, share) && w.Ask(PodReview(ctx, kind, share.name)) == answer
  }

  /**
   * validateShare passes exactly the acceptable requests, with exactly one of its two pointers set; a
   * request whose review is refused or fails gets the status for that, and every other one is invalid.
   */
  lemma ValidateShareExactly(w: World, rn: ReservedNames, ctx: Context)
    ensures forall cm, sec :: ValidateShare(w, rn, ctx) == Passed(cm, sec) <==>
      || (sec.None? && cm.Some? && Accepts(w, rn, ctx, ConfigMap, cm.value))
      || (cm.None? && sec.Some? && Accepts(w, rn, ctx, Secret, sec.value))
    ensures ValidateShare(w, rn, ctx).Rejected? ==> (ValidateShare(w, rn, ctx).code ==
      if Reviewed(w, rn, ctx, Refused) then PermissionDenied
      else if Reviewed(w, rn, ctx, Unanswered) then Internal
      else InvalidArgument)
    ensures ValidateShare(w, rn, ctx).Passed? ==>
      !Reviewed(w, rn, ctx, Refused) && !Reviewed(w, rn, ctx, Unanswered)
  {
    assert Blank("");
    var cmName := Attr(ctx, SHARED_CONFIG_MAP_SHARE_KEY);
    var sName := Attr(ctx, SHARED_SECRET_SHARE_KEY);
    assert |SHARED_CONFIG_MAP_SHARE_KEY| != |SHARED_SECRET_SHARE_KEY|;
  }

  /**
   * The webhook's admission of a share and the publish-time check agree: while its reference is unchanged, a
   * request that meets every other condition passes exactly when the share would be admitted.
   */
  lemma AdmittedPassesPublish(w: World, rn: ReservedNames, ctx: Context, kind: Kind, share: Share)
    requires ShareKey(kind) in ctx && ctx[ShareKey(kind)] == share.name && !Blank(share.name) && ShareKey(OtherKind(kind)) !in ctx
    requires share.name in w.Of(kind).listedShares && w.Of(kind).listedShares[share.name] == share.ref
    requires !Blank(share.ref.ns) && !Blank(share.ref.name)
    requires w.Ask(PodReview(ctx, kind, share.name)) == Granted
    ensures AuthorizeShare(rn, kind, share.name, share.ref) == Admitted <==> ValidateShare(w, rn, ctx).Passed?
    ensures AuthorizeShare(rn, kind, share.name, share.ref) != Admitted ==> ValidateShare(w, rn, ctx) == Rejected(InvalidArgument)
  {
    assert |SHARED_CONFIG_MAP_SHARE_KEY| != |SHARED_SECRET_SHARE_KEY|;
    assert share.name != "";
  }

  /** validateVolumeContext. */
  function ValidateVolumeContext(req: Request): Code {
    var ctx := req.context;
    if Attr(ctx, CSI_POD_NAME) == "" || Attr(ctx, CSI_POD_NAMESPACE) == ""
       || Attr(ctx, CSI_POD_UID) == "" || Attr(ctx, CSI_POD_SA) == "" then InvalidArgument
    else if Attr(ctx, CSI_EPHEMERAL) != "true" && Attr(ctx, CSI_EPHEMERAL) != "" then InvalidArgument
    else if !req.hasMount then InvalidArgument
    else OK
  }

  /** strconv.ParseBool on the refresh attribute; refresh stays on when it does not parse. */
  function Refresh(ctx: Context): bool {
    Attr(ctx, REFRESH_RESOURCE) !in {"0", "f", "F", "false", "FALSE", "False"}
  }

  /** Every check NodePublishVolume makes before createVolume, in its order. */
  function Validate(w: World, rn: ReservedNames, req: Request): ShareCheck {
    if !req.hasCapability then Rejected(InvalidArgument)
    else if req.volumeId == "" then Rejected(InvalidArgument)
    else if req.targetPath == "" then Rejected(InvalidArgument)
    else if req.context == map[] then Rejected(InvalidArgument)
    else if ValidateVolumeContext(req) != OK then Rejected(ValidateVolumeContext(req))
    else
      match ValidateShare(w, rn, req.context)
      case Rejected(code) => Rejected(code)
      case Passed(cm, sec) => if !req.readonly then Rejected(InvalidArgument) else Passed(cm, sec)
  }

  /** getVolumePath: the identifier a volume is mounted under. */
  function MountID(req: Request): string {
    Attr(req.context, CSI_POD_NAMESPACE) + "-" + Attr(req.context, CSI_POD_NAME) + "-" + req.volumeId
  }

  /** The volume createVolume fills in for a request that names this share. */
  function NewVol(req: Request, kind: Kind, shareID: string): Vol {
    Vol(req.volumeId, MountID(req), req.targetPath, Known(kind), shareID,
        Attr(req.context, CSI_POD_NAMESPACE), Attr(req.context, CSI_POD_NAME),
        Attr(req.context, CSI_POD_UID), Attr(req.context, CSI_POD_SA), Refresh(req.context))
  }

  /** What a passing request is about: one share of one kind, which the volume's pod may use. */
  lemma PassedRequest(w: World, rn: ReservedNames, req: Request) returns (kind: Kind, share: Share)
    requires Validate(w, rn, req).Passed?
    ensures Validate(w, rn, req) ==
      if kind == Secret then Passed(None, Some(share)) else Passed(Some(share), None)
    ensures Accepts(w, rn, req.context, kind, share)
    ensures Allowed(w, NewVol(req, kind, share.name))
    ensures w.GetShare(kind, share.name) == Some(share.ref)
  {
    ValidateShareExactly(w, rn, req.context);
    var Passed(cm, sec) := Validate(w, rn, req);
    assert ValidateShare(w, rn, req.context) == Passed(cm, sec);
    if sec.Some? {
      kind, share := Secret, sec.value;
    } else {
      kind, share := ConfigMap, cm.value;
    }
  }

  /* ------------------------------------------------------------------ the checks in terms of what was sent */

  /** An attribute of the volume context; one that was not sent reads as the empty string. */
  function Sent(req: Request, key: string): string {
    if key in req.context then req.context[key] else ""
  }

  /** Everything NodePublishVolume asks of a request before it looks at shares. */
  predicate Basic(req: Request) {
    && req.hasCapability && req.hasMount && req.volumeId != "" && req.targetPath != ""
    && Sent(req, "csi.storage.k8s.io/pod.name") != "" && Sent(req, "csi.storage.k8s.io/pod.namespace") != ""
    && Sent(req, "csi.storage.k8s.io/pod.uid") != "" && Sent(req, "csi.storage.k8s.io/serviceAccount.name") != ""
    && (Sent(req, "csi.storage.k8s.io/ephemeral") == "" || Sent(req, "csi.storage.k8s.io/ephemeral") == "true")
  }

  /** The request names this share, and no share of the other kind; it is listed, well referenced and not reserved for another. */
  predicate AsksFor(w: World, rn: ReservedNames, req: Request, kind: Kind, name: string, ref: Ref) {
    && (match kind
        case Secret => "sharedSecret" in req.context && req.context["sharedSecret"] == name && "sharedConfigMap" !in req.context
        case ConfigMap => "sharedConfigMap" in req.context && req.context["sharedConfigMap"] == name && "sharedSecret" !in req.context)
    && name in Tables(w, kind).listedShares && Tables(w, kind).listedShares[name] == ref
    && !AllSpace(name) && !AllSpace(ref.ns) && !AllSpace(ref.name)
    && ("openshift" <= name ==>
      var names := match kind case Secret => rn.secretNames case ConfigMap => rn.configMapNames;
      name in names && TrimSpace(names[name].ns) == TrimSpace(ref.ns) && TrimSpace(names[name].name) == TrimSpace(ref.name))
  }

  /** The access review of the request's pod for the share. */
  function ReviewOf(req: Request, kind: Kind, name: string): Review {
    Review(Known(kind), name, Sent(req, "csi.storage.k8s.io/pod.namespace"), Sent(req, "csi.storage.k8s.io/serviceAccount.name"))
  }

  predicate Refuses(w: World, rn: ReservedNames, req: Request, kind: Kind, name: string, ref: Ref) {
    AsksFor(w, rn, req, kind, name, ref) && ReviewOf(req, kind, name) !in w.allowed && ReviewOf(req, kind, name) !in w.unanswered
  }

  predicate Unreviewed(w: World, rn: ReservedNames, req: Request, kind: Kind, name: string, ref: Ref) {
    AsksFor(w, rn, req, kind, name, ref) && ReviewOf(req, kind, name) !in w.allowed && ReviewOf(req, kind, name) in w.unanswered
  }

  /** The request is for this share, and its pod may use it. */
  predicate Acceptable(w: World, rn: ReservedNames, req: Request, kind: Kind, name: string, ref: Ref) {
    Basic(req) && req.readonly && AsksFor(w, rn, req, kind, name, ref) && ReviewOf(req, kind, name) in w.allowed
  }

  lemma AsksForExactly(w: World, rn: ReservedNames, req: Request, kind: Kind, name: string, ref: Ref)
    ensures AsksFor(w, rn, req, kind, name, ref) <==> Names(w, rn, req.context, kind, Share(name, ref))
    ensures ReviewOf(req, kind, name) == PodReview(req.context, kind, name)
  {
    hide TrimSpace, AllSpace, Blank;
    BlankExactly(name);
    BlankExactly(ref.ns);
    BlankExactly(ref.name);
  }

  lemma BasicExactly(req: Request)
    ensures Basic(req) <==>
      req.hasCapability && req.volumeId != "" && req.targetPath != "" && req.context != map[] && ValidateVolumeContext(req) == OK
    ensures ValidateVolumeContext(req) in {OK, InvalidArgument}
  {
    assert req.context == map[] ==> Sent(req, "csi.storage.k8s.io/pod.name") == "";
  }

  /** Passing with this share as the only one. */
  function PassFor(kind: Kind, name: string, ref: Ref): ShareCheck {
    match kind
    case Secret => Passed(None, Some(Share(name, ref)))
    case ConfigMap => Passed(Some(Share(name, ref)), None)
  }

  ghost predicate SomeRefusal(w: World, rn: ReservedNames, req: Request) {
    exists kind, name, ref :: Refuses(w, rn, req, kind, name, ref)
  }

  ghost predicate SomeUnreviewed(w: World, rn: ReservedNames, req: Request) {
    exists kind, name, ref :: Unreviewed(w, rn, req, kind, name, ref)
  }

  /** validateShare in those terms. */
  lemma ShareCheckExactly(w: World, rn: ReservedNames, req: Request)
    ensures forall kind, name, ref :: ValidateShare(w, rn, req.context) == PassFor(kind, name, ref) <==>
      AsksFor(w, rn, req, kind, name, ref) && ReviewOf(req, kind, name) in w.allowed
    ensures ValidateShare(w, rn, req.context).Passed? ==>
      exists kind, name, ref :: ValidateShare(w, rn, req.context) == PassFor(kind, name, ref)
    ensures Reviewed(w, rn, req.context, Refused) <==> SomeRefusal(w, rn, req)
    ensures Reviewed(w, rn, req.context, Unanswered) <==> SomeUnreviewed(w, rn, req)
  {
    hide ValidateShare, AsksFor, Names, PodReview, ReviewOf;
    ValidateShareExactly(w, rn, req.context);
    forall kind: Kind, name: string, ref: Ref
      ensures AsksFor(w, rn, req, kind, name, ref) <==> Names(w, rn, req.context, kind, Share(name, ref))
      ensures ReviewOf(req, kind, name) == PodReview(req.context, kind, name)
    {
      AsksForExactly(w, rn, req, kind, name, ref);
    }
    if kind, share :| Names(w, rn, req.context, kind, share) && w.Ask(PodReview(req.context, kind, share.name)) == Refused {
      assert Share(share.name, share.ref) == share && Refuses(w, rn, req, kind, share.name, share.ref);
    }
    if kind, share :| Names(w, rn, req.context, kind, share) && w.Ask(PodReview(req.context, kind, share.name)) == Unanswered {
      assert Share(share.name, share.ref) == share && Unreviewed(w, rn, req, kind, share.name, share.ref);
    }
    if ValidateShare(w, rn, req.context).Passed? {
      var Passed(cm, sec) := ValidateShare(w, rn, req.context);
      assert cm.Some? ==> PassFor(ConfigMap, cm.value.name, cm.value.ref) == Passed(cm, sec);
      assert sec.Some? ==> PassFor(Secret, sec.value.name, sec.value.ref) == Passed(cm, sec);
    }
  }

  /**
   * The checks of NodePublishVolume in terms of the request's own fields: they pass exactly the acceptable
   * requests, with the one share as their result, and this is the status of every other request.
   */
  lemma ValidateExactly(w: World, rn: ReservedNames, req: Request)
    ensures forall kind, name, ref :: Validate(w, rn, req) == PassFor(kind, name, ref) <==> Acceptable(w, rn, req, kind, name, ref)
    ensures Validate(w, rn, req).Passed? <==> exists kind, name, ref :: Acceptable(w, rn, req, kind, name, ref)
    ensures Validate(w, rn, req).Rejected? ==> (Validate(w, rn, req).code ==
      if Basic(req) && SomeRefusal(w, rn, req) then PermissionDenied
      else if Basic(req) && SomeUnreviewed(w, rn, req) then Internal
      else InvalidArgument)
  {
    hide ValidateShare, ValidateVolumeContext, AsksFor, ReviewOf, Basic, SomeRefusal, SomeUnreviewed, Reviewed;
    BasicExactly(req);
    ValidateShareExactly(w, rn, req.context);
    ShareCheckExactly(w, rn, req);
    if Validate(w, rn, req).Passed? {
      assert Validate(w, rn, req) == ValidateShare(w, rn, req.context);
      var kind, name, ref :| ValidateShare(w, rn, req.context) == PassFor(kind, name, ref);
      assert Acceptable(w, rn, req, kind, name, ref);
    }
  }

  /** Refreshing is off exactly for these values of its attribute. */
  lemma RefreshExactly(req: Request)
    ensures Refresh(req.context) <==>
      Sent(req, "refreshResource") !in {"0", "f", "F", "false", "False", "FALSE"}
  {
  }

  /** The volume that is recorded for a request, field by field. */
  predicate Recorded(req: Request, kind: Kind, name: string, vol: Vol) {
    && vol.volID == req.volumeId && vol.targetPath == req.targetPath && vol.kind == Known(kind) && vol.shareID == name
    && vol.podNs == Sent(req, "csi.storage.k8s.io/pod.namespace") && vol.podName == Sent(req, "csi.storage.k8s.io/pod.name")
    && vol.podUID == Sent(req, "csi.storage.k8s.io/pod.uid") && vol.podSA == Sent(req, "csi.storage.k8s.io/serviceAccount.name")
    && (vol.refresh <==> Sent(req, "refreshResource") !in {"0", "f", "F", "false", "False", "FALSE"})
    && vol.anchorDir == Sent(req, "csi.storage.k8s.io/pod.namespace") + "-" + Sent(req, "csi.storage.k8s.io/pod.name") + "-" + req.volumeId
  }

  lemma RecordedExactly(req: Request, kind: Kind, name: string, vol: Vol)
    ensures Recorded(req, kind, name, vol) <==> vol == NewVol(req, kind, name)
  {
  }
}
