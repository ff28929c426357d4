/**
 * pkg/config/namewatcher.go: share names reserved through the environment, and
 * pkg/webhook/csidriver/csidriver.go: the admission decisions that use them.
 */
module Reservations {
  import opened Text
  import opened Cluster

  datatype ReservedNames = ReservedNames(secretNames: map<string, Ref>, configMapNames: map<string, Ref>)
  {
    function Of(kind: Kind): map<string, Ref> {
      if kind == Secret then secretNames else configMapNames
    }
  }

  /** One "share:namespace:name" entry; None for every other number of fields. */
  function EntryOf(entry: string): Option<(string, Ref)> {
    var a := Split(entry, ':');
    if |a| != 3 then None
    else Some((TrimSpace(a[0]), Ref(TrimSpace(a[1]), TrimSpace(a[2]))))
  }

  /** The table built from a list of entries, a later entry replacing an earlier one of the same name. */
  function Parsed(entries: seq<string>): map<string, Ref> {
    if entries == [] then map[]
    else
      var init := Parsed(entries[..|entries| - 1]);
      match EntryOf(entries[|entries| - 1])
      case None => init
      case Some(e) => init[e.0 := e.1]
  }

  /** The entry has three fields, the first of which is the name. */
  predicate Reserves(entry: string, name: string) {
    |Split(entry, ':')| == 3 && TrimSpace(Split(entry, ':')[0]) == name
  }

  /** What it reserves the name for: namespace and name, in this order. */
  function Reserved(entry: string): Ref
    requires |Split(entry, ':')| == 3
  {
    Ref(TrimSpace(Split(entry, ':')[1]), TrimSpace(Split(entry, ':')[2]))
  }

  /** Entry i is well formed, reserves the name, and no later well-formed entry does. */
  predicate LastFor(entries: seq<string>, i: int, name: string) {
    0 <= i < |entries| && Reserves(entries[i], name)
    && forall j :: i < j < |entries| ==> !Reserves(entries[j], name)
  }

  /** parseEnvVar. */
  method ParseEnvVar(val: string) returns (ret: map<string, Ref>)
    ensures ret == Parsed(Split(val, ';'))
    ensures forall name, i :: LastFor(Split(val, ';'), i, name) ==>
      name in ret && ret[name] == Reserved(Split(val, ';')[i])
    ensures forall name :: name in ret ==> exists i :: LastFor(Split(val, ';'), i, name)
  {
    ret := map[];
    var entries := Split(val, ';');
    var i := 0;
    while i < |entries|
      invariant 0 <= i <= |entries|
      invariant ret == Parsed(entries[..i])
    {
      assert entries[..i + 1][..i] == entries[..i];
      var a := Split(entries[i], ':');
      if |a| == 3 {
        ret := ret[TrimSpace(a[0]) := Ref(TrimSpace(a[1]), TrimSpace(a[2]))];
      }
      i := i + 1;
    }
    assert entries[..|entries|] == entries;
    forall name ensures name in ret <==> exists i :: LastFor(entries, i, name) {
      ParsedMembers(entries, name);
    }
    forall name, i | LastFor(entries, i, name) ensures name in ret && ret[name] == Reserved(entries[i]) {
      ParsedLast(entries, i, name);
    }
  }

  /** The last well-formed entry for a name decides its reservation. */
  lemma {:induction false} ParsedLast(entries: seq<string>, i: int, name: string)
    requires LastFor(entries, i, name)
    ensures name in Parsed(entries) && Parsed(entries)[name] == Reserved(entries[i])
  {
    hide Split, TrimSpace;
    var n := |entries| - 1;
    if i < n {
      assert !Reserves(entries[n], name);
      ParsedLast(entries[..n], i, name);
    }
  }

  lemma {:induction false} ParsedSource(entries: seq<string>, name: string) returns (i: int)
    requires name in Parsed(entries)
    ensures LastFor(entries, i, name)
  {
    hide Split, TrimSpace;
    var n := |entries| - 1;
    if Reserves(entries[n], name) {
      i := n;
    } else {
      var init := entries[..n];
      assert name in Parsed(init);
      i := ParsedSource(init, name);
      assert Reserves(init[i], name) && init[i] == entries[i];
      forall j | i < j < |entries| ensures !Reserves(entries[j], name) {
        if j < n {
          assert !Reserves(init[j], name);
        }
      }
    }
  }

  /** A name is reserved exactly when some well-formed entry is the last one for it. */
  lemma ParsedMembers(entries: seq<string>, name: string)
    ensures name in Parsed(entries) <==> exists i :: LastFor(entries, i, name)
  {
    if name in Parsed(entries) {
      var i := ParsedSource(entries, name);
    }
    if i :| LastFor(entries, i, name) {
      ParsedLast(entries, i, name);
    }
  }

  lemma {:induction false} ParsedConcat(a: seq<string>, b: seq<string>)
    ensures Parsed(a + b) == Parsed(a) + Parsed(b)
  {
    if b == [] {
      assert a + b == a;
    } else {
      var n := |b| - 1;
      assert (a + b)[..|a + b| - 1] == a + b[..n];
      ParsedConcat(a, b[..n]);
    }
  }

  /** Parsing two settings joined by ";" is parsing each and letting the second override the first. */
  lemma ParseCompositional(a: string, b: string)
    ensures Parsed(Split(a + ";" + b, ';')) == Parsed(Split(a, ';')) + Parsed(Split(b, ';'))
  {
    assert a + ";" + b == a + [';'] + b;
    SplitConcat(a, b, ';');
    ParsedConcat(Split(a, ';'), Split(b, ';'));
  }

  /**
   * One setting without ";" in terms of its text: three fields reserve the trimmed first one for the trimmed
   * second and third, and any other number of ":" reserves nothing.
   */
  lemma EntryText(s: string, n: string, m: string)
    requires ':' !in s && ':' !in n && ':' !in m && ';' !in s && ';' !in n && ';' !in m
    ensures Parsed(Split(s + ":" + n + ":" + m, ';')) == map[TrimSpace(s) := Ref(TrimSpace(n), TrimSpace(m))]
  {
    hide Split, TrimSpace;
    var text := s + ":" + n + ":" + m;
    assert text == s + [':'] + (n + [':'] + m);
    SplitConcat(s, n + [':'] + m, ':');
    SplitConcat(n, m, ':');
    SplitWhole(s, ':');
    SplitWhole(n, ':');
    SplitWhole(m, ':');
    SplitWhole(text, ';');
    assert Split(text, ':') == [s, n, m];
    assert [text][..0] == [] && Parsed([]) == map[];
  }

  lemma OtherText(text: string)
    requires ';' !in text
    ensures Parsed(Split(text, ';')) == map[] <==> multiset(text)[':'] != 2
  {
    hide Split, TrimSpace;
    SplitWhole(text, ';');
    SplitCounts(text, ':');
    assert [text][..0] == [] && Parsed([]) == map[];
    if EntryOf(text).Some? {
      assert EntryOf(text).value.0 in Parsed([text]);
    }
  }

  predicate StartsWithOpenShift(name: string) {
    "openshift" <= name
  }

  /** innerValidate. */
  predicate InnerValidate(name: string, ref: Ref, ok: bool, v: Ref) {
    if !StartsWithOpenShift(name) then true
    else if !ok then false
    else TrimSpace(v.ns) == TrimSpace(ref.ns) && TrimSpace(v.name) == TrimSpace(ref.name)
  }

  /** ValidateSharedSecretOpenShiftName / ValidateSharedConfigMapOpenShiftName. */
  predicate ValidName(rn: ReservedNames, kind: Kind, name: string, ref: Ref) {
    var names := rn.Of(kind);
    if name in names then InnerValidate(name, ref, true, names[name])
    else InnerValidate(name, ref, false, Ref("", ""))
  }

  /** SetupNameReservation: both tables come from their environment variables. */
  function Setup(secretVar: string, configMapVar: string): ReservedNames {
    ReservedNames(Parsed(Split(secretVar, ';')), Parsed(Split(configMapVar, ';')))
  }

  /** The last well-formed entry for the name reserves this trimmed reference. */
  ghost predicate ReservedAs(entries: seq<string>, name: string, ref: Ref) {
    exists i :: LastFor(entries, i, name) && Reserved(entries[i]) == Ref(TrimSpace(ref.ns), TrimSpace(ref.name))
  }

  /** What an entry reserves is trimmed already. */
  lemma TrimmedEntry(entry: string)
    requires |Split(entry, ':')| == 3
    ensures
      var v := Reserved(entry);
      TrimSpace(v.ns) == v.ns && TrimSpace(v.name) == v.name
  {
    var a := Split(entry, ':');
    hide Split, TrimSpace;
    TrimIdempotent(a[1]);
    TrimIdempotent(a[2]);
  }

  lemma ReservedExactly(entries: seq<string>, name: string, ref: Ref)
    ensures ReservedAs(entries, name, ref) <==>
      name in Parsed(entries) && TrimSpace(Parsed(entries)[name].ns) == TrimSpace(ref.ns)
      && TrimSpace(Parsed(entries)[name].name) == TrimSpace(ref.name)
  {
    hide Parsed, TrimSpace, Split;
    if name in Parsed(entries) {
      var i := ParsedSource(entries, name);
      ParsedLast(entries, i, name);
      TrimmedEntry(entries[i]);
    }
    if i :| LastFor(entries, i, name) && Reserved(entries[i]) == Ref(TrimSpace(ref.ns), TrimSpace(ref.name)) {
      ParsedLast(entries, i, name);
      TrimmedEntry(entries[i]);
    }
  }

  /**
   * A share is accepted exactly when it is not openshift-prefixed, or the last well-formed entry
   * for its name reserves the same trimmed namespace and name.
   */
  lemma AcceptedExactly(secretVar: string, configMapVar: string, kind: Kind, name: string, ref: Ref)
    ensures
      var entries := Split(if kind == Secret then secretVar else configMapVar, ';');
      ValidName(Setup(secretVar, configMapVar), kind, name, ref) <==> !("openshift" <= name) || ReservedAs(entries, name, ref)
  {
    hide Split, Parsed, TrimSpace, ReservedAs;
    ReservedExactly(Split(if kind == Secret then secretVar else configMapVar, ';'), name, ref);
  }

  datatype Verdict = Admitted | DeniedByWebhook

  /** authorizeSharedSecret / authorizeSharedConfigMap. */
  function AuthorizeShare(rn: ReservedNames, kind: Kind, name: string, ref: Ref): Verdict {
    if ValidName(rn, kind, name, ref) then Admitted else DeniedByWebhook
  }

  /** A pod volume, with the CSI driver and the read-only flag it may carry. */
  datatype PodVolume = PodVolume(csiDriver: Option<string>, readOnly: Option<bool>)

  const SHARED_RESOURCES_CSI_DRIVER := "csi.sharedresource.openshift.io"

  predicate Ours(v: PodVolume) {
    v.csiDriver == Some(SHARED_RESOURCES_CSI_DRIVER)
  }

  /** authorizePod: a pod is admitted exactly when each of its volumes of this driver is read-only. */
  method AuthorizePod(volumes: seq<PodVolume>) returns (verdict: Verdict)
    ensures verdict == Admitted <==> forall i :: 0 <= i < |volumes| ==>
      (volumes[i].csiDriver == Some("csi.sharedresource.openshift.io") ==> volumes[i].readOnly == Some(true))
  {
    var i := 0;
    while i < |volumes|
      invariant 0 <= i <= |volumes|
      invariant forall j :: 0 <= j < i && Ours(volumes[j]) ==> volumes[j].readOnly == Some(true)
    {
      if Ours(volumes[i]) {
        if volumes[i].readOnly.None? || !volumes[i].readOnly.value {
          return DeniedByWebhook;
        }
      }
      i := i + 1;
    }
    return Admitted;
  }
}
