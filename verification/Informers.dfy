/**
 * pkg/controller/controller.go: the namespaces watched for backing objects of one kind, and the stop
 * channels of their informers, as share events and the ticks of the periodic pruner change them one after the
 * other. What they and a shutdown do at the same time is the subject of module Shutdowns.
 */
module Informers {
  import opened Text

  /** Channels are numbered in the order they are made. */
  type Channel = nat

  /**
   * watch maps a namespace to its informer's channel, None while it is nil; made counts the channels;
   * closes counts the close calls on each. A close of a nil or closed channel panics.
   */
  datatype Watches = Watches(
    watch: map<string, Option<Channel>>,
    made: nat,
    closes: multiset<Channel>,
    panicked: bool)

  const EMPTY := Watches(map[], 0, multiset{}, false)

  /** close on a channel. */
  function Close(r: Watches, ch: Option<Channel>): Watches {
    if ch.None? || ch.value in r.closes then r.(panicked := true)
    else r.(closes := r.closes + multiset{ch.value})
  }

  /** Closing this entry panics. */
  predicate Bad(r: Watches, ns: string)
    requires ns in r.watch
  {
    r.watch[ns].None? || r.watch[ns].value in r.closes
  }

  /** The channels of some entries, one for each entry. */
  function Channels(watch: map<string, Option<Channel>>, names: set<string>): set<Channel> {
    set ns | ns in names && ns in watch && watch[ns].Some? :: watch[ns].value
  }

  /** Closing the channels of some entries: a panic if one of them is bad. */
  function CloseAll(r: Watches, names: set<string>): Watches {
    if exists ns :: ns in names && ns in r.watch && Bad(r, ns) then r.(panicked := true)
    else r.(closes := r.closes + multiset(Channels(r.watch, names)))
  }

  /** Closing entries and deleting them. */
  function Stop(r: Watches, names: set<string>): Watches {
    var r1 := CloseAll(r, names);
    if r1.panicked then r1 else r1.(watch := r1.watch - names)
  }

  /** RegisterSecretInformer / RegisterConfigMapInformer: a namespace that is not watched gets an informer. */
  function Register(r: Watches, ns: string): Watches {
    if ns in r.watch then r else r.(watch := r.watch[ns := Some(r.made)], made := r.made + 1)
  }

  /** PruneSecretInformers / PruneConfigMapInformers. */
  function Prune(r: Watches, keep: set<string>): Watches {
    Stop(r, r.watch.Keys - keep)
  }

  /* ------------------------------------------------------------------ conservation of channels */

  /** The channel is the one of a watched namespace. */
  ghost predicate Open(r: Watches, ch: Channel) {
    exists ns :: ns in r.watch && r.watch[ns] == Some(ch)
  }

  /** Every channel made is either open, for one namespace alone, or has been closed once. */
  ghost predicate Conserved(r: Watches) {
    && !r.panicked
    && (forall ch: Channel :: r.closes[ch] == if ch < r.made && !Open(r, ch) then 1 else 0)
    && (forall a, b :: a in r.watch && b in r.watch && r.watch[a] == r.watch[b] ==> a == b)
    && (forall ns :: ns in r.watch ==> r.watch[ns].Some? && r.watch[ns].value < r.made)
  }

  lemma ClosedIsNotWatched(r: Watches, ns: string)
    requires Conserved(r) && ns in r.watch
    ensures !Bad(r, ns)
  {
    assert Open(r, r.watch[ns].value);
  }

  lemma StopConserves(r: Watches, names: set<string>)
    requires Conserved(r)
    ensures Conserved(Stop(r, names))
  {
    forall ns | ns in names && ns in r.watch ensures !Bad(r, ns) {
      ClosedIsNotWatched(r, ns);
    }
    var r1 := Stop(r, names);
    var gone := Channels(r.watch, names);
    forall ch: Channel ensures r1.closes[ch] == if ch < r1.made && !Open(r1, ch) then 1 else 0 {
      if ch in gone {
        var ns :| ns in names && ns in r.watch && r.watch[ns] == Some(ch);
        assert Open(r, ch) && !Open(r1, ch);
      } else if Open(r, ch) {
        var ns :| ns in r.watch && r.watch[ns] == Some(ch);
        assert ns in r1.watch && Open(r1, ch);
      } else {
        assert !Open(r1, ch);
      }
    }
  }

  lemma RegisterConserves(r: Watches, ns: string)
    requires Conserved(r)
    ensures Conserved(Register(r, ns)) && Register(r, ns).watch.Keys == r.watch.Keys + {ns}
  {
    var r1 := Register(r, ns);
    if ns in r.watch {
      assert r.watch.Keys + {ns} == r.watch.Keys;
    } else {
      assert r1.watch[ns] == Some(r.made);
      forall ch: Channel ensures ch != r.made ==> (Open(r, ch) <==> Open(r1, ch)) {
        if n :| n in r.watch && r.watch[n] == Some(ch) { assert r1.watch[n] == Some(ch); }
      }
    }
  }

  lemma PruneWatches(r: Watches, keep: set<string>)
    requires Conserved(r)
    ensures Conserved(Prune(r, keep)) && Prune(r, keep).watch.Keys == r.watch.Keys * keep
  {
    StopConserves(r, r.watch.Keys - keep);
  }

  /** Every channel made has been closed exactly once, and nothing else has been closed. */
  ghost predicate AllClosedOnce(r: Watches) {
    !r.panicked && forall ch: Channel :: r.closes[ch] == if ch < r.made then 1 else 0
  }

  lemma CloseAllClean(r: Watches)
    requires Conserved(r)
    ensures AllClosedOnce(CloseAll(r, r.watch.Keys))
  {
    var r1 := CloseAll(r, r.watch.Keys);
    forall ns | ns in r.watch ensures !Bad(r, ns) {
      ClosedIsNotWatched(r, ns);
    }
    forall ch: Channel ensures r1.closes[ch] == if ch < r1.made then 1 else 0 {
      if n :| n in r.watch && r.watch[n] == Some(ch) {
        assert ch in Channels(r.watch, r.watch.Keys) && Open(r, ch);
      }
    }
  }

  /* ------------------------------------------------------------------ share syncs */

  datatype Verb = Add | Update | Delete | Unexpected

  /**
   * A share event or a tick of the periodic pruner, with the shares that the lister returned for its prune,
   * which for a tick may be out of date when the prune comes; None when listing fails.
   */
  datatype Sync =
    | Sync(verb: Verb, ns: string, listed: Option<map<string, string>>)
    | Tick(listed: Option<map<string, string>>)

  /** NamespacesWithSharedSecrets / NamespacesWithSharedConfigMaps. */
  function Namespaces(listed: Option<map<string, string>>): set<string> {
    match listed
    case None => {}
    case Some(shares) => set name | name in shares :: shares[name]
  }

  predicate Upserting(s: Sync) {
    s.Sync? && (s.verb == Add || s.verb == Update)
  }

  /** All but events with an unexpected verb end in a prune. */
  predicate Pruning(s: Sync) {
    s.Tick? || s.verb != Unexpected
  }

  /** syncSharedSecret / syncSharedConfigMap, as far as the informers go. */
  function SyncShare(refresh: bool, r: Watches, s: Sync): Watches {
    if !refresh || !Pruning(s) then r
    else if !Upserting(s) then Prune(r, Namespaces(s.listed))
    else Prune(Register(r, s.ns), Namespaces(s.listed))
  }

  function Syncs(refresh: bool, r: Watches, trace: seq<Sync>): Watches {
    if trace == [] then r else SyncShare(refresh, Syncs(refresh, r, trace[..|trace| - 1]), trace[|trace| - 1])
  }

  lemma SyncWatches(refresh: bool, r: Watches, s: Sync)
    requires Conserved(r)
    ensures
      var r1 := SyncShare(refresh, r, s);
      && Conserved(r1)
      && r1.watch.Keys == if !refresh || !Pruning(s) then r.watch.Keys
        else (r.watch.Keys + if Upserting(s) then {s.ns} else {}) * Namespaces(s.listed)
  {
    hide Conserved, Register, Prune;
    if refresh && Pruning(s) {
      if !Upserting(s) {
        PruneWatches(r, Namespaces(s.listed));
        assert r.watch.Keys + {} == r.watch.Keys;
      } else {
        RegisterConserves(r, s.ns);
        PruneWatches(Register(r, s.ns), Namespaces(s.listed));
      }
    }
  }

  /** Some upsert event named the namespace, and since then it has been the namespace of a listed share. */
  ghost predicate NamedSince(trace: seq<Sync>, i: nat, ns: string) {
    i < |trace| && Upserting(trace[i]) && trace[i].ns == ns
    && forall j :: i <= j < |trace| && Pruning(trace[j]) ==> ns in Namespaces(trace[j].listed)
  }

  /** Exactly which namespaces are watched after any sequence of share events and ticks. */
  lemma {:induction false} WatchedExactly(trace: seq<Sync>, ns: string)
    ensures Conserved(Syncs(true, EMPTY, trace))
    ensures ns in Syncs(true, EMPTY, trace).watch <==> exists i: nat :: NamedSince(trace, i, ns)
  {
    hide Conserved, SyncShare, Namespaces;
    if trace == [] {
      EmptyConserved();
    } else {
      var n := |trace| - 1;
      var init, s := trace[..n], trace[n];
      WatchedExactly(init, ns);
      var r := Syncs(true, EMPTY, init);
      SyncWatches(true, r, s);
      if i: nat :| NamedSince(trace, i, ns) {
        if i < n {
          assert NamedSince(init, i, ns);
        }
      }
      if ns in Syncs(true, EMPTY, trace).watch {
        if ns in r.watch {
          var i: nat :| NamedSince(init, i, ns);
          assert NamedSince(trace, i, ns);
        } else {
          assert NamedSince(trace, n, ns);
        }
      }
    }
  }

  lemma EmptyConserved()
    ensures Conserved(EMPTY)
  {
  }

  /** After each share sync and each tick the watched namespaces are among those of the listed shares. */
  lemma WatchedWithinListed(trace: seq<Sync>)
    requires trace != [] && Pruning(trace[|trace| - 1])
    ensures Syncs(true, EMPTY, trace).watch.Keys <= Namespaces(trace[|trace| - 1].listed)
  {
    forall ns | ns in Syncs(true, EMPTY, trace).watch ensures ns in Namespaces(trace[|trace| - 1].listed) {
      WatchedExactly(trace, ns);
      var i: nat :| NamedSince(trace, i, ns);
    }
  }

  /** The latest version of a share has been processed, and the lister has shown it ever since. */
  ghost predicate Processed(trace: seq<Sync>, name: string, ns: string) {
    exists i: nat :: i < |trace| && Upserting(trace[i]) && trace[i].ns == ns && ListedSince(trace, i, name, ns)
  }

  ghost predicate ListedSince(trace: seq<Sync>, i: nat, name: string, ns: string) {
    forall j :: i <= j < |trace| && Pruning(trace[j]) ==>
      trace[j].listed.Some? && name in trace[j].listed.value && trace[j].listed.value[name] == ns
  }

  /** Once the latest version of every share has been processed, the watched namespaces are exactly theirs. */
  lemma WatchedAreListed(trace: seq<Sync>, shares: map<string, string>)
    requires trace != [] && Pruning(trace[|trace| - 1]) && trace[|trace| - 1].listed == Some(shares)
    requires forall name :: name in shares ==> Processed(trace, name, shares[name])
    ensures Syncs(true, EMPTY, trace).watch.Keys == Namespaces(Some(shares))
  {
    WatchedWithinListed(trace);
    forall ns | ns in Namespaces(Some(shares)) ensures ns in Syncs(true, EMPTY, trace).watch {
      var name :| name in shares && shares[name] == ns;
      assert Processed(trace, name, ns);
      var i: nat :| i < |trace| && Upserting(trace[i]) && trace[i].ns == ns && ListedSince(trace, i, name, ns);
      assert NamedSince(trace, i, ns);
      WatchedExactly(trace, ns);
    }
  }

  /* ------------------------------------------------------------------ the controller's own loops */

  lemma StopMore(r: Watches, names: set<string>, ns: string)
    requires Conserved(r) && ns in r.watch && ns !in names
    ensures Stop(Stop(r, names), {ns}) == Stop(r, names + {ns}) && !Stop(r, names).panicked
  {
    CloseMore(r, names, ns);
    var r1 := CloseAll(r, names);
    var r2 := Stop(r, names);
    assert Channels(r2.watch, {ns}) == Channels(r1.watch, {ns});
    assert r.watch - names - {ns} == r.watch - (names + {ns});
  }

  /** In a conserved registry every entry can be closed, and no two entries share a channel. */
  lemma OwnChannels(r: Watches, names: set<string>, ns: string)
    requires Conserved(r) && ns in r.watch && ns !in names
    ensures !r.panicked && forall n :: n in r.watch ==> !Bad(r, n)
    ensures r.watch[ns].value !in Channels(r.watch, names)
  {
    forall n | n in r.watch ensures !Bad(r, n) {
      ClosedIsNotWatched(r, n);
    }
  }

  lemma CloseMore(r: Watches, names: set<string>, ns: string)
    requires Conserved(r) && ns in r.watch && ns !in names
    ensures !CloseAll(r, names).panicked && !Bad(CloseAll(r, names), ns)
    ensures CloseAll(CloseAll(r, names), {ns}) == CloseAll(r, names + {ns})
  {
    hide Conserved;
    OwnChannels(r, names, ns);
    CloseOne(CloseAll(r, names), ns);
    assert Channels(r.watch, names + {ns}) == Channels(r.watch, names) + {r.watch[ns].value};
  }

  lemma CloseNone(r: Watches)
    ensures CloseAll(r, {}) == r
  {
    assert Channels(r.watch, {}) == {};
  }

  lemma CloseOne(r: Watches, ns: string)
    ensures CloseAll(r, {ns}) ==
      if ns !in r.watch then r
      else if Bad(r, ns) then r.(panicked := true)
      else r.(closes := r.closes + multiset{r.watch[ns].value})
  {
    assert Channels(r.watch, {ns}) == if ns in r.watch && r.watch[ns].Some? then {r.watch[ns].value} else {};
  }

  /** Controller, for one kind: its sync.Map of informers and the channels it has made and closed. */
  class Controller {
    var watchObjs: map<string, Option<Channel>>
    var made: nat
    var closes: multiset<Channel>
    var panicked: bool
    const refreshResources: bool

    constructor (refreshResources: bool)
      ensures Watched() == EMPTY && this.refreshResources == refreshResources
    {
      watchObjs, made, closes, panicked := map[], 0, multiset{}, false;
      this.refreshResources := refreshResources;
    }

    function Watched(): Watches
      reads this
    {
      Watches(watchObjs, made, closes, panicked)
    }

    /** RegisterSecretInformer / RegisterConfigMapInformer. */
    method RegisterInformer(ns: string)
      requires Conserved(Watched())
      modifies this
      ensures Watched() == Register(old(Watched()), ns) && Conserved(Watched())
      ensures watchObjs.Keys == old(watchObjs).Keys + {ns}
    {
      hide Conserved;
      NotPanicked();
      RegisterConserves(Watched(), ns);
      if ns !in watchObjs {
        watchObjs := watchObjs[ns := None];
        var stopCh := made;
        made := made + 1;
        watchObjs := watchObjs[ns := Some(stopCh)];
      }
    }

    lemma NotPanicked()
      requires Conserved(Watched())
      ensures !panicked
    {
    }

    /** close on a stop channel. */
    method CloseChannel(stopCh: Option<Channel>)
      modifies this`closes, this`panicked
      ensures Watched() == Close(old(Watched()), stopCh)
    {
      if stopCh.None? || stopCh.value in closes {
        panicked := true;
      } else {
        closes := closes + multiset{stopCh.value};
      }
    }

    /** UnregisterSecretInformer / UnregisterConfigMapInformer. */
    method UnregisterInformer(ns: string)
      requires !panicked
      modifies this
      ensures Watched() == Stop(old(Watched()), {ns})
    {
      hide CloseAll;
      CloseOne(Watched(), ns);
      if ns in watchObjs {
        CloseChannel(watchObjs[ns]);
        if !panicked {
          watchObjs := watchObjs - {ns};
        }
      } else {
        assert watchObjs - {ns} == watchObjs;
      }
    }

    /** PruneSecretInformers / PruneConfigMapInformers: the entries in arbitrary order. */
    method PruneInformers(namespaces: set<string>)
      requires Conserved(Watched())
      modifies this
      ensures Watched() == Prune(old(Watched()), namespaces) && Conserved(Watched())
      ensures watchObjs.Keys == old(watchObjs).Keys * namespaces
    {
      hide Conserved, Stop;
      NotPanicked();
      ghost var r := Watched();
      PruneWatches(r, namespaces);
      StopNone(r);
      ghost var done: set<string> := {};
      var todo := watchObjs.Keys;
      while todo != {}
        invariant todo <= r.watch.Keys && done == r.watch.Keys - namespaces - todo
        invariant !panicked && Watched() == Stop(r, done)
      {
        var ns :| ns in todo;
        if ns !in namespaces {
          StopMore(r, done, ns);
          UnregisterInformer(ns);
          assert done + {ns} == r.watch.Keys - namespaces - (todo - {ns});
          StopClean(r, done + {ns});
          done := done + {ns};
        }
        todo := todo - {ns};
      }
      assert done == r.watch.Keys - namespaces;
    }

    /** The part of Run after its stop channel has closed. */
    method ShutdownInformers()
      requires Conserved(Watched())
      modifies this
      ensures Watched() == CloseAll(old(Watched()), old(watchObjs).Keys) && AllClosedOnce(Watched())
    {
      hide Conserved, CloseAll;
      NotPanicked();
      ghost var r := Watched();
      CloseAllClean(r);
      CloseNone(r);
      ghost var done: set<string> := {};
      var todo := watchObjs.Keys;
      while todo != {}
        invariant todo <= r.watch.Keys && done == r.watch.Keys - todo && watchObjs == r.watch
        invariant !panicked && Watched() == CloseAll(r, done)
      {
        var ns :| ns in todo;
        CloseMore(r, done, ns);
        CloseOne(Watched(), ns);
        CloseChannel(watchObjs[ns]);
        todo, done := todo - {ns}, done + {ns};
      }
      assert done == r.watch.Keys;
    }

    /** NamespacesWithSharedSecrets / NamespacesWithSharedConfigMaps. */
    static method NamespacesWithShares(listed: Option<map<string, string>>) returns (namespaces: set<string>)
      ensures namespaces == Namespaces(listed)
    {
      namespaces := {};
      if listed.Some? {
        var list := listed.value;
        var todo := list.Keys;
        while todo != {}
          invariant todo <= list.Keys
          invariant namespaces == set name | name in list && name !in todo :: list[name]
        {
          var name :| name in todo;
          namespaces := namespaces + {list[name]};
          todo := todo - {name};
        }
      }
    }

    /** What the periodic pruner does with the informers of the kind. */
    method TickPrune(listed: Option<map<string, string>>)
      requires Conserved(Watched())
      modifies this
      ensures Watched() == SyncShare(refreshResources, old(Watched()), Tick(listed)) && Conserved(Watched())
      ensures refreshResources ==> watchObjs.Keys == old(watchObjs).Keys * Namespaces(listed)
    {
      if refreshResources {
        var namespaces := NamespacesWithShares(listed);
        PruneInformers(namespaces);
      }
    }

    /** syncSharedSecret / syncSharedConfigMap around the call into the object cache; false is the error return. */
    method SyncShared(s: Sync) returns (ok: bool)
      requires Conserved(Watched()) && s.Sync?
      modifies this
      ensures Watched() == SyncShare(refreshResources, old(Watched()), s) && Conserved(Watched())
      ensures ok <==> s.verb != Unexpected
      ensures refreshResources && ok ==>
        watchObjs.Keys == (old(watchObjs).Keys + if Upserting(s) then {s.ns} else {}) * Namespaces(s.listed)
    {
      hide Conserved, Register, Prune;
      SyncWatches(refreshResources, Watched(), s);
      if s.verb == Unexpected {
        return false;
      }
      if refreshResources {
        if Upserting(s) {
          RegisterInformer(s.ns);
        }
        var namespaces := NamespacesWithShares(s.listed);
        PruneInformers(namespaces);
      }
      return true;
    }
  }

  lemma StopNone(r: Watches)
    ensures !r.panicked ==> Stop(r, {}) == r
  {
    assert Channels(r.watch, {}) == {};
    assert r.watch - {} == r.watch;
  }

  lemma StopClean(r: Watches, names: set<string>)
    requires Conserved(r)
    ensures !Stop(r, names).panicked
  {
    StopConserves(r, names);
  }
}
