/**
 * pkg/controller/controller.go and cmd/csidriver/main.go: three goroutines use the same sync.Map of informers,
 * the handler of share events, the periodic pruner, and the end of Run. Here every access to the map and every
 * close is a step of its own: a registration publishes its entry before the entry has a channel, an
 * unregistration loads an entry, closes the channel and then deletes the entry, and shutdown loads and closes.
 */
module Shutdowns {
  import opened Text
  import opened Informers

  datatype Actor = Handler | Pruner | Shutdown

  /**
   * Where a goroutine is: in RegisterInformer before or after it made its channel, or with an entry that it
   * has loaded but not closed, or closed but not deleted.
   */
  datatype Work = Idle | Claimed(ns: string) | Started(ns: string, ch: Channel) | Holding(ns: string, found: Option<Channel>) | Closed(ns: string)

  /** visited are the keys that shutdown's Range has been at; closers says who closed each channel. */
  datatype System = System(
    reg: Watches,
    handler: Work,
    pruner: Work,
    shutdown: Work,
    visited: set<string>,
    closers: map<Channel, Actor>)
  {
    function At(a: Actor): Work {
      match a
      case Handler => handler
      case Pruner => pruner
      case Shutdown => shutdown
    }

    function Put(a: Actor, work: Work): System {
      match a
      case Handler => this.(handler := work)
      case Pruner => this.(pruner := work)
      case Shutdown => this.(shutdown := work)
    }
  }

  const START := System(EMPTY, Idle, Idle, Idle, {}, map[])

  datatype Step = Claim(ns: string) | Start | Store | Load(a: Actor, ns: string) | CloseHeld(a: Actor) | Drop(a: Actor)

  predicate OfShutdown(step: Step) {
    (step.Load? || step.CloseHeld? || step.Drop?) && step.a == Shutdown
  }

  /** One step of one goroutine; a step that its goroutine is not at does nothing, and nothing follows a panic. */
  function Next(s: System, step: Step): System {
    if s.reg.panicked then s
    else
      var r := s.reg;
      match step
      case Claim(ns) =>
        if s.handler == Idle && ns !in r.watch then s.(reg := r.(watch := r.watch[ns := None]), handler := Claimed(ns)) else s
      case Start =>
        if s.handler.Claimed? then s.(reg := r.(made := r.made + 1), handler := Started(s.handler.ns, r.made)) else s
      case Store =>
        if s.handler.Started? then s.(reg := r.(watch := r.watch[s.handler.ns := Some(s.handler.ch)]), handler := Idle) else s
      case Load(a, ns) =>
        if s.At(a) == Idle && ns in r.watch && (a == Shutdown ==> ns !in s.visited)
        then s.(visited := if a == Shutdown then s.visited + {ns} else s.visited).Put(a, Holding(ns, r.watch[ns])) else s
      case CloseHeld(a) =>
        if s.At(a).Holding? then CloseFor(s, a, s.At(a).ns, s.At(a).found) else s
      case Drop(a) =>
        if s.At(a).Closed? then s.(reg := r.(watch := r.watch - {s.At(a).ns})).Put(a, Idle) else s
  }

  function CloseFor(s: System, a: Actor, ns: string, found: Option<Channel>): System {
    var r := Close(s.reg, found);
    if r.panicked then s.(reg := r)
    else s.(reg := r, closers := s.closers[found.value := a]).Put(a, if a == Shutdown then Idle else Closed(ns))
  }

  function Run(s: System, steps: seq<Step>): System {
    if steps == [] then s else Next(Run(s, steps[..|steps| - 1]), steps[|steps| - 1])
  }

  /* ------------------------------------------------------------------ what every interleaving keeps */

  /** Every channel is closed at most once, by its closer; one that is not closed is in the map or about to be. */
  ghost predicate Counts(s: System) {
    forall ch: Channel ::
      && s.reg.closes[ch] <= 1
      && (ch in s.reg.closes <==> ch in s.closers)
      && (ch in s.closers ==> ch < s.reg.made)
      && (ch < s.reg.made ==> ch in s.closers || Open(s.reg, ch) || (s.handler.Started? && s.handler.ch == ch))
  }

  /** Entries have channels of their own, except a half-registered one; a closed one is left by shutdown or half-unregistered. */
  ghost predicate Entries(s: System) {
    && (forall a, b :: a in s.reg.watch && b in s.reg.watch && s.reg.watch[a].Some? && s.reg.watch[a] == s.reg.watch[b] ==> a == b)
    && (forall ns :: ns in s.reg.watch && s.reg.watch[ns].Some? ==> s.reg.watch[ns].value < s.reg.made)
    && (forall ns :: ns in s.reg.watch && s.reg.watch[ns].None? <==>
      (s.handler.Claimed? || s.handler.Started?) && s.handler.ns == ns)
    && (forall ns :: ns in s.reg.watch && s.reg.watch[ns].Some? && s.reg.watch[ns].value in s.closers ==>
      var closer := s.closers[s.reg.watch[ns].value];
      if closer == Shutdown then ns in s.visited else s.At(closer) == Closed(ns))
  }

  /** What a goroutine knows about the entry it is working on. */
  ghost predicate WorkKept(s: System, a: Actor) {
    match s.At(a)
    case Idle => true
    case Claimed(_) => a == Handler
    case Started(_, ch) =>
      a == Handler && ch < s.reg.made && ch !in s.closers && forall n :: n in s.reg.watch ==> s.reg.watch[n] != Some(ch)
    case Holding(ns, found) =>
      && (a == Handler ==> found.Some?) && (a == Shutdown ==> ns in s.visited)
      && (found.Some? ==>
        if found.value in s.closers then s.closers[found.value] != a
        else found.value < s.reg.made && ns in s.reg.watch && s.reg.watch[ns] == found)
    case Closed(ns) =>
      && a != Shutdown && ns in s.reg.watch && s.reg.watch[ns].Some?
      && s.reg.watch[ns].value in s.closers && s.closers[s.reg.watch[ns].value] == a
  }

  ghost predicate Kept(s: System) {
    !s.reg.panicked && Counts(s) && Entries(s) && WorkKept(s, Handler) && WorkKept(s, Pruner) && WorkKept(s, Shutdown)
  }

  /**
   * Two goroutines get in each other's way: one closes for an entry that it found while the handler had not
   * given it a channel yet, or closes a channel that another one has closed.
   */
  predicate Clash(s: System, step: Step) {
    step.CloseHeld? && s.At(step.a).Holding? &&
    var found := s.At(step.a).found;
    found.None? || (found.value in s.closers && s.closers[found.value] != step.a)
  }

  lemma StillOpen(a: Watches, b: Watches, gone: set<string>)
    requires forall n :: n in a.watch && n !in gone ==> n in b.watch && b.watch[n] == a.watch[n]
    ensures forall ch: Channel :: (exists n :: n in a.watch && n !in gone && a.watch[n] == Some(ch)) ==> Open(b, ch)
  {
    forall ch: Channel, n | n in a.watch && n !in gone && a.watch[n] == Some(ch) ensures Open(b, ch) {
      assert b.watch[n] == Some(ch);
    }
  }

  lemma ClaimKept(s: System, ns: string)
    requires Kept(s)
    ensures Kept(Next(s, Claim(ns)))
  {
    hide Counts, Entries, WorkKept, Next;
    ClaimCounts(s, ns);
    ClaimEntries(s, ns);
    ClaimWork(s, ns, Handler);
    ClaimWork(s, ns, Pruner);
    ClaimWork(s, ns, Shutdown);
  }

  lemma ClaimCounts(s: System, ns: string)
    requires Kept(s)
    ensures !Next(s, Claim(ns)).reg.panicked && Counts(Next(s, Claim(ns)))
  {
    hide Entries;
    StillOpen(s.reg, Next(s, Claim(ns)).reg, {});
  }

  lemma ClaimEntries(s: System, ns: string)
    requires Kept(s)
    ensures Entries(Next(s, Claim(ns)))
  {
    hide Counts;
  }

  lemma ClaimWork(s: System, ns: string, x: Actor)
    requires Kept(s)
    ensures WorkKept(Next(s, Claim(ns)), x)
  {
    assert WorkKept(s, x);
  }

  lemma MakeKept(s: System)
    requires Kept(s)
    ensures Kept(Next(s, Start))
  {
    hide Counts, Entries, WorkKept, Next;
    MakeCounts(s);
    MakeEntries(s);
    MakeWork(s, Handler);
    MakeWork(s, Pruner);
    MakeWork(s, Shutdown);
  }

  lemma MakeCounts(s: System)
    requires Kept(s)
    ensures !Next(s, Start).reg.panicked && Counts(Next(s, Start))
  {
    hide Entries;
    StillOpen(s.reg, Next(s, Start).reg, {});
  }

  lemma MakeEntries(s: System)
    requires Kept(s)
    ensures Entries(Next(s, Start))
  {
    hide Counts;
  }

  lemma MakeWork(s: System, x: Actor)
    requires Kept(s)
    ensures WorkKept(Next(s, Start), x)
  {
    assert WorkKept(s, x);
  }

  lemma StoreKept(s: System)
    requires Kept(s)
    ensures Kept(Next(s, Store))
  {
    hide Counts, Entries, WorkKept, Next;
    StoreCounts(s);
    StoreEntries(s);
    StoreWork(s, Handler);
    StoreWork(s, Pruner);
    StoreWork(s, Shutdown);
  }

  lemma StoreCounts(s: System)
    requires Kept(s)
    ensures !Next(s, Store).reg.panicked && Counts(Next(s, Store))
  {
    StillOpen(s.reg, Next(s, Store).reg, if s.handler.Started? then {s.handler.ns} else {});
    if s.handler.Started? {
      assert Next(s, Store).reg.watch[s.handler.ns] == Some(s.handler.ch);
    }
  }

  lemma StoreEntries(s: System)
    requires Kept(s)
    ensures Entries(Next(s, Store))
  {
    hide Counts;
  }

  lemma StoreWork(s: System, x: Actor)
    requires Kept(s)
    ensures WorkKept(Next(s, Store), x)
  {
    assert WorkKept(s, x);
  }

  lemma LoadKept(s: System, a: Actor, ns: string)
    requires Kept(s)
    ensures Kept(Next(s, Load(a, ns)))
  {
    LoadRegistry(s, a, ns);
    hide Counts, Entries, WorkKept;
    LoadWork(s, a, ns, Handler);
    LoadWork(s, a, ns, Pruner);
    LoadWork(s, a, ns, Shutdown);
  }

  lemma LoadRegistry(s: System, a: Actor, ns: string)
    requires Kept(s)
    ensures var t := Next(s, Load(a, ns)); !t.reg.panicked && Counts(t) && Entries(t)
  {
    hide WorkKept;
    var t := Next(s, Load(a, ns));
    assert t.handler.Started? ==> t.handler == s.handler;
    assert t.reg == s.reg && t.closers == s.closers && s.visited <= t.visited;
    assert forall x: Actor :: t.At(x) == s.At(x) || s.At(x) == Idle;
    hide Next;
  }

  lemma LoadWork(s: System, a: Actor, ns: string, x: Actor)
    requires Kept(s)
    ensures WorkKept(Next(s, Load(a, ns)), x)
  {
    hide Counts;
  }

  lemma CloseHeldKept(s: System, a: Actor)
    requires Kept(s)
    ensures Next(s, CloseHeld(a)).reg.panicked <==> Clash(s, CloseHeld(a))
    ensures !Clash(s, CloseHeld(a)) ==> Kept(Next(s, CloseHeld(a)))
  {
    hide Counts, Entries, WorkKept, Clash;
    ClosePanics(s, a);
    if s.At(a).Holding? && !Clash(s, CloseHeld(a)) {
      CloseCounts(s, a);
      CloseEntries(s, a);
      CloseWork(s, a, Handler);
      CloseWork(s, a, Pruner);
      CloseWork(s, a, Shutdown);
    }
  }

  lemma ClosePanics(s: System, a: Actor)
    requires Kept(s)
    ensures Next(s, CloseHeld(a)).reg.panicked <==> Clash(s, CloseHeld(a))
  {
    hide Entries;
    assert WorkKept(s, a);
  }

  /** A close that does not clash is for an entry that is still in the map, with its channel open. */
  lemma HeldOpen(s: System, a: Actor)
    requires Kept(s) && s.At(a).Holding? && !Clash(s, CloseHeld(a))
    ensures
      var Holding(ns, found) := s.At(a);
      && found.Some? && ns in s.reg.watch && s.reg.watch[ns] == found && found.value < s.reg.made
      && found.value !in s.reg.closes && found.value !in s.closers && (a == Shutdown ==> ns in s.visited)
    ensures Next(s, CloseHeld(a)) == CloseFor(s, a, s.At(a).ns, s.At(a).found)
  {
    hide Entries;
    assert WorkKept(s, a);
  }

  lemma CloseCounts(s: System, a: Actor)
    requires Kept(s) && s.At(a).Holding? && !Clash(s, CloseHeld(a))
    ensures Counts(Next(s, CloseHeld(a)))
  {
    hide Entries, WorkKept, Next, Clash;
    HeldOpen(s, a);
    StillOpen(s.reg, Next(s, CloseHeld(a)).reg, {});
  }

  lemma CloseEntries(s: System, a: Actor)
    requires Kept(s) && s.At(a).Holding? && !Clash(s, CloseHeld(a))
    ensures Entries(Next(s, CloseHeld(a)))
  {
    hide Counts, WorkKept, Next, Clash;
    HeldOpen(s, a);
    var t := Next(s, CloseHeld(a));
    assert t.handler.Started? || t.handler.Claimed? ==> t.handler == s.handler;
    assert s.handler.Started? || s.handler.Claimed? ==> t.handler == s.handler;
    assert forall x: Actor :: x != a ==> t.At(x) == s.At(x);
  }

  lemma CloseWork(s: System, a: Actor, x: Actor)
    requires Kept(s) && s.At(a).Holding? && !Clash(s, CloseHeld(a))
    ensures WorkKept(Next(s, CloseHeld(a)), x)
  {
    hide Counts, Entries, Next, Clash;
    HeldOpen(s, a);
    assert WorkKept(s, x);
  }

  lemma DropKept(s: System, a: Actor)
    requires Kept(s)
    ensures Kept(Next(s, Drop(a)))
  {
    hide Counts, Entries, WorkKept, Next;
    DropCounts(s, a);
    DropEntries(s, a);
    DropWork(s, a, Handler);
    DropWork(s, a, Pruner);
    DropWork(s, a, Shutdown);
  }

  lemma DropCounts(s: System, a: Actor)
    requires Kept(s)
    ensures !Next(s, Drop(a)).reg.panicked && Counts(Next(s, Drop(a)))
  {
    hide Entries;
    StillOpen(s.reg, Next(s, Drop(a)).reg, if s.At(a).Closed? then {s.At(a).ns} else {});
  }

  lemma DropEntries(s: System, a: Actor)
    requires Kept(s)
    ensures Entries(Next(s, Drop(a)))
  {
    hide Counts;
  }

  lemma DropWork(s: System, a: Actor, x: Actor)
    requires Kept(s)
    ensures WorkKept(Next(s, Drop(a)), x)
  {
    assert WorkKept(s, x);
  }

  /** Whatever has happened, a step panics exactly when it clashes, and otherwise keeps the invariant. */
  lemma StepPanicsExactly(s: System, step: Step)
    requires Kept(s)
    ensures Next(s, step).reg.panicked <==> Clash(s, step)
    ensures !Clash(s, step) ==> Kept(Next(s, step))
  {
    if !step.CloseHeld? {
      ClashFree(s, step);
    }
    hide Kept, Clash, Next;
    match step
    case Claim(ns) => ClaimKept(s, ns);
    case Start => MakeKept(s);
    case Store => StoreKept(s);
    case Load(a, ns) => LoadKept(s, a, ns);
    case CloseHeld(a) => CloseHeldKept(s, a);
    case Drop(a) => DropKept(s, a);
  }

  lemma ClashFree(s: System, step: Step)
    requires Kept(s) && !step.CloseHeld?
    ensures !Clash(s, step) && !Next(s, step).reg.panicked
  {
  }

  lemma StartKept()
    ensures Kept(START)
  {
  }

  /** Some step of the interleaving clashed with what had happened before it. */
  ghost predicate Clashed(steps: seq<Step>) {
    exists i :: ClashedAt(steps, i)
  }

  ghost predicate ClashedAt(steps: seq<Step>, i: int) {
    0 <= i < |steps| && Clash(Run(START, steps[..i]), steps[i])
  }

  lemma ClashedMore(steps: seq<Step>)
    requires steps != []
    ensures
      var n := |steps| - 1;
      Clashed(steps) <==> Clashed(steps[..n]) || Clash(Run(START, steps[..n]), steps[n])
  {
    hide Clash, Run;
    var n := |steps| - 1;
    var init := steps[..n];
    forall i | 0 <= i < n ensures ClashedAt(steps, i) <==> ClashedAt(init, i) {
      assert init[..i] == steps[..i] && init[i] == steps[i];
    }
    if i :| ClashedAt(init, i) {
      assert ClashedAt(steps, i);
    }
    if Clash(Run(START, init), steps[n]) {
      assert ClashedAt(steps, n);
    }
  }

  /**
   * Over every interleaving of the three goroutines: there is a panic exactly when some step clashes, and up
   * to a panic every channel is closed at most once.
   */
  lemma {:induction false} RunPanicsExactly(steps: seq<Step>)
    ensures Run(START, steps).reg.panicked <==> Clashed(steps)
    ensures !Clashed(steps) ==> Kept(Run(START, steps))
  {
    hide Kept, Clash, Clashed;
    if steps == [] {
      StartKept();
      NoneClashed();
    } else {
      var n := |steps| - 1;
      var mid := Run(START, steps[..n]);
      RunPanicsExactly(steps[..n]);
      ClashedMore(steps);
      if !mid.reg.panicked {
        StepPanicsExactly(mid, steps[n]);
      }
    }
  }

  lemma NoneClashed()
    ensures !Clashed([])
  {
  }


  lemma {:induction false} RunConcat(s: System, a: seq<Step>, b: seq<Step>)
    ensures Run(s, a + b) == Run(Run(s, a), b)
  {
    hide Next;
    if b == [] {
      assert a + b == a;
    } else {
      var init := b[..|b| - 1];
      assert (a + b)[..|a + b| - 1] == a + init;
      RunConcat(s, a, init);
    }
  }

  lemma RunOne(s: System, step: Step)
    ensures Run(s, [step]) == Next(s, step)
  {
    hide Next;
    assert [step][..0] == [] && Run(s, []) == s;
  }

  lemma RunTwo(s: System, a: Step, b: Step)
    ensures Run(s, [a, b]) == Next(Next(s, a), b)
  {
    hide Next;
    assert [a, b][..1] == [a];
    RunOne(s, a);
  }

  lemma RunThree(s: System, a: Step, b: Step, c: Step)
    ensures Run(s, [a, b, c]) == Next(Next(Next(s, a), b), c)
  {
    hide Next;
    assert [a, b, c][..2] == [a, b];
    RunTwo(s, a, b);
  }

  /* ------------------------------------------------------------------ one goroutine alone */

  predicate OfHandler(step: Step) {
    step.Claim? || step.Start? || step.Store? || step.a == Handler
  }

  /** Only the handler has done anything. */
  ghost predicate Alone(s: System) {
    s.pruner == Idle && s.shutdown == Idle && forall ch :: ch in s.closers ==> s.closers[ch] == Handler
  }

  lemma HandlerStep(s: System, step: Step)
    requires Kept(s) && Alone(s) && OfHandler(step)
    ensures Kept(Next(s, step)) && Alone(Next(s, step))
  {
    hide Kept, WorkKept;
    KeptWork(s, Handler);
    NoClash(s, step);
    StepPanicsExactly(s, step);
  }

  lemma NoClash(s: System, step: Step)
    requires WorkKept(s, Handler) && Alone(s) && OfHandler(step)
    ensures !Clash(s, step)
  {
  }

  /** Without the pruner and shutdown, the handler never panics. */
  lemma {:induction false} HandlerAlone(steps: seq<Step>)
    requires forall i :: 0 <= i < |steps| ==> OfHandler(steps[i])
    ensures Kept(Run(START, steps)) && Alone(Run(START, steps))
  {
    if steps == [] {
      StartKept();
    } else {
      hide Kept, Alone, Next;
      var init, step := steps[..|steps| - 1], steps[|steps| - 1];
      assert forall i :: 0 <= i < |init| ==> init[i] == steps[i];
      HandlerAlone(init);
      HandlerStep(Run(START, init), step);
    }
  }

  lemma KeptWork(s: System, a: Actor)
    requires Kept(s)
    ensures !s.reg.panicked && WorkKept(s, a)
  {
  }

  /* ------------------------------------------------------------------ a shutdown that nothing interrupts */

  /** An entry has been published without a channel, or its channel has been closed and it has not been deleted yet. */
  predicate HalfDone(s: System) {
    s.handler.Claimed? || s.handler.Started? || s.handler.Closed? || s.pruner.Closed?
  }

  /** The Range of shutdown over the entries in some order. */
  function RangeSteps(order: seq<string>): seq<Step> {
    if order == [] then []
    else RangeSteps(order[..|order| - 1]) + [Load(Shutdown, order[|order| - 1]), CloseHeld(Shutdown)]
  }

  ghost predicate Lists(order: seq<string>, names: set<string>) {
    && (forall ns :: ns in order <==> ns in names)
    && (forall i, j :: 0 <= i < j < |order| ==> order[i] != order[j])
  }

  ghost function Members(order: seq<string>): set<string> {
    set ns | ns in order
  }

  /** Shutdown has not done anything yet. */
  ghost predicate Before(s: System) {
    s.visited == {} && s.shutdown == Idle && forall ch :: ch in s.closers ==> s.closers[ch] != Shutdown
  }

  lemma NextBefore(s: System, step: Step)
    requires Before(s) && !OfShutdown(step)
    ensures Before(Next(s, step))
  {
    hide Close;
  }

  lemma {:induction false} RunBefore(steps: seq<Step>)
    requires forall i :: 0 <= i < |steps| ==> !OfShutdown(steps[i])
    ensures Before(Run(START, steps))
  {
    hide Next, Before;
    if steps == [] {
      StartBefore();
    } else {
      var init := steps[..|steps| - 1];
      assert forall i :: 0 <= i < |init| ==> init[i] == steps[i];
      RunBefore(init);
      NextBefore(Run(START, init), steps[|steps| - 1]);
    }
  }

  lemma StartBefore()
    ensures Before(START)
  {
  }

  /** The system once the Range has been at some entries and closed their channels. */
  function Shut(s: System, names: set<string>): System {
    var shut := Channels(s.reg.watch, names);
    s.(visited := names, closers := s.closers + (map ch | ch in shut :: Shutdown),
       reg := s.reg.(closes := s.reg.closes + multiset(shut)))
  }

  /** One more entry: a panic exactly at a bad one. */
  lemma ShutOne(s: System, names: set<string>, ns: string)
    requires Kept(s) && s.shutdown == Idle && ns in s.reg.watch && ns !in names
    ensures
      var t := Next(Next(Shut(s, names), Load(Shutdown, ns)), CloseHeld(Shutdown));
      if Bad(s.reg, ns) then t.reg.panicked else t == Shut(s, names + {ns})
  {
    hide Kept, Channels;
    FreshChannel(s, names, ns);
    KeptWork(s, Shutdown);
    var found := s.reg.watch[ns];
    var u := Shut(s, names);
    var v := Next(u, Load(Shutdown, ns));
    assert v == u.(visited := names + {ns}, shutdown := Holding(ns, found));
    assert Next(v, CloseHeld(Shutdown)) == CloseFor(v, Shutdown, ns, found);
    if !Bad(s.reg, ns) {
      var before := Channels(s.reg.watch, names);
      assert (map ch | ch in before + {found.value} :: Shutdown) == (map ch | ch in before :: Shutdown)[found.value := Shutdown];
    }
  }

  ghost predicate SomeBad(r: Watches, order: seq<string>) {
    exists i :: 0 <= i < |order| && order[i] in r.watch && Bad(r, order[i])
  }

  lemma SomeBadMore(r: Watches, order: seq<string>)
    requires order != [] && order[|order| - 1] in r.watch
    ensures SomeBad(r, order) <==> SomeBad(r, order[..|order| - 1]) || Bad(r, order[|order| - 1])
  {
    var n := |order| - 1;
    if i :| 0 <= i < n && order[..n][i] in r.watch && Bad(r, order[..n][i]) {
      assert order[i] in r.watch && Bad(r, order[i]);
    }
    if i :| 0 <= i < |order| && order[i] in r.watch && Bad(r, order[i]) {
      assert i < n ==> order[..n][i] == order[i];
    }
  }

  /** The Range as a whole: a panic exactly if some entry is bad, and otherwise every channel is closed. */
  lemma {:induction false} RangeFrom(s: System, order: seq<string>)
    requires Kept(s) && Before(s)
    requires forall i :: 0 <= i < |order| ==> order[i] in s.reg.watch
    requires forall i, j :: 0 <= i < j < |order| ==> order[i] != order[j]
    ensures
      var t := Run(s, RangeSteps(order));
      if SomeBad(s.reg, order) then t.reg.panicked else t == Shut(s, Members(order))
  {
    hide Kept, Next, SomeBad, Bad, Shut;
    if order == [] {
      ShutNone(s);
    } else {
      var n := |order| - 1;
      var init, ns := order[..n], order[n];
      RangeFrom(s, init);
      SomeBadMore(s.reg, order);
      RunConcat(s, RangeSteps(init), [Load(Shutdown, ns), CloseHeld(Shutdown)]);
      var mid := Run(s, RangeSteps(init));
      RunTwo(mid, Load(Shutdown, ns), CloseHeld(Shutdown));
      assert ns !in Members(init) && Members(order) == Members(init) + {ns};
      ShutOne(s, Members(init), ns);
      PanicStays(mid, Load(Shutdown, ns));
      PanicStays(Next(mid, Load(Shutdown, ns)), CloseHeld(Shutdown));
    }
  }

  lemma PanicStays(s: System, step: Step)
    ensures s.reg.panicked ==> Next(s, step) == s
  {
  }

  lemma {:induction false} PanicRuns(s: System, steps: seq<Step>)
    requires s.reg.panicked
    ensures Run(s, steps) == s
  {
    if steps != [] {
      PanicRuns(s, steps[..|steps| - 1]);
    }
  }

  lemma ShutNone(s: System)
    requires s.visited == {}
    ensures Shut(s, Members([])) == s && !SomeBad(s.reg, [])
  {
    assert Members([]) == {};
    assert Channels(s.reg.watch, {}) == {};
    var none: map<Channel, Actor> := map ch | ch in Channels(s.reg.watch, {}) :: Shutdown;
    assert none == map[];
  }

  lemma FreshChannel(s: System, names: set<string>, ns: string)
    requires Kept(s) && ns in s.reg.watch && ns !in names
    ensures s.reg.watch[ns].Some? ==>
      var (before, ch) := (Channels(s.reg.watch, names), s.reg.watch[ns].value);
      && ch !in before && Channels(s.reg.watch, names + {ns}) == before + {ch}
      && multiset(before + {ch}) == multiset(before) + multiset{ch}
  {
    if s.reg.watch[ns].Some? {
      assert Channels(s.reg.watch, names + {ns}) == Channels(s.reg.watch, names) + {s.reg.watch[ns].value};
    }
  }

  /**
   * After any interleaving of the handler and the pruner, an uninterrupted shutdown leaves every channel closed
   * exactly once, without a panic, exactly when those two have not clashed and neither has a registration or an
   * unregistration half done.
   */
  lemma ShutdownExactly(steps: seq<Step>, order: seq<string>)
    requires forall i :: 0 <= i < |steps| ==> !OfShutdown(steps[i])
    requires Lists(order, Run(START, steps).reg.watch.Keys)
    ensures AllClosedOnce(Run(START, steps + RangeSteps(order)).reg) <==>
      !Clashed(steps) && !HalfDone(Run(START, steps))
  {
    hide Kept, Next, Run, Bad, AllClosedOnce, HalfDone, Clashed, Before;
    RunPanicsExactly(steps);
    RunBefore(steps);
    RunConcat(START, steps, RangeSteps(order));
    var s := Run(START, steps);
    if s.reg.panicked {
      PanicRuns(s, RangeSteps(order));
      NotAllClosed(s.reg);
    } else {
      RangeFrom(s, order);
      assert Members(order) == s.reg.watch.Keys;
      if HalfDone(s) {
        HalfDoneIsBad(s);
        NotAllClosed(Run(s, RangeSteps(order)).reg);
      } else {
        WholeIsGood(s);
      }
    }
  }

  lemma NotAllClosed(r: Watches)
    ensures r.panicked ==> !AllClosedOnce(r)
  {
  }

  lemma HalfDoneIsBad(s: System)
    requires Kept(s) && HalfDone(s)
    ensures exists ns :: ns in s.reg.watch && Bad(s.reg, ns)
  {
    assert WorkKept(s, Handler) && WorkKept(s, Pruner);
    var ns := if s.pruner.Closed? then s.pruner.ns else s.handler.ns;
    assert ns in s.reg.watch && Bad(s.reg, ns);
  }

  lemma WholeIsGood(s: System)
    requires Kept(s) && !HalfDone(s) && Before(s)
    ensures forall ns :: ns in s.reg.watch ==> !Bad(s.reg, ns)
    ensures AllClosedOnce(s.reg.(closes := s.reg.closes + multiset(Channels(s.reg.watch, s.reg.watch.Keys))))
  {
    hide WorkKept;
    var all := Channels(s.reg.watch, s.reg.watch.Keys);
    var r1 := s.reg.(closes := s.reg.closes + multiset(all));
    forall ch: Channel ensures Open(s.reg, ch) <==> ch in all {
      if ns :| ns in s.reg.watch && s.reg.watch[ns] == Some(ch) {
        assert ch in all;
      }
    }
    assert forall ns :: ns in s.reg.watch ==> !Bad(s.reg, ns);
  }

  /** After a clean shutdown, an unregistration by the handler or the pruner panics exactly when the namespace is still in the map. */
  lemma AfterShutdownExactly(steps: seq<Step>, order: seq<string>, a: Actor, ns: string)
    requires forall i :: 0 <= i < |steps| ==> !OfShutdown(steps[i])
    requires !Clashed(steps) && !HalfDone(Run(START, steps)) && Lists(order, Run(START, steps).reg.watch.Keys)
    requires a != Shutdown && Run(START, steps).At(a) == Idle
    ensures
      var s := Run(START, steps + RangeSteps(order));
      Next(Next(s, Load(a, ns)), CloseHeld(a)).reg.panicked <==> ns in s.reg.watch
  {
    hide Kept, Run, AllClosedOnce, HalfDone, Clashed, Before, Next;
    RunPanicsExactly(steps);
    RunBefore(steps);
    RunConcat(START, steps, RangeSteps(order));
    var s := Run(START, steps);
    WholeIsGood(s);
    RangeFrom(s, order);
    KeptWork(s, a);
    assert Members(order) == s.reg.watch.Keys;
    StillClosed(s, a, ns);
  }

  lemma StillClosed(s: System, a: Actor, ns: string)
    requires a != Shutdown && s.At(a) == Idle && !s.reg.panicked && forall n :: n in s.reg.watch ==> !Bad(s.reg, n)
    ensures
      Next(Next(Shut(s, s.reg.watch.Keys), Load(a, ns)), CloseHeld(a)).reg.panicked <==> ns in s.reg.watch
  {
    if ns in s.reg.watch {
      assert s.reg.watch[ns].value in Channels(s.reg.watch, s.reg.watch.Keys);
    }
  }

  /* ------------------------------------------------------------------ the calls as steps */

  lemma RegisterInSteps(s: System, ns: string)
    requires s.handler == Idle && !s.reg.panicked
    ensures Run(s, [Claim(ns), Start, Store]) == s.(reg := Register(s.reg, ns))
  {
    RunThree(s, Claim(ns), Start, Store);
    assert ns !in s.reg.watch ==> s.reg.watch[ns := None][ns := Some(s.reg.made)] == s.reg.watch[ns := Some(s.reg.made)];
  }

  /** An unregistration that nothing interrupts, by the handler or the pruner. */
  lemma UnregisterInSteps(s: System, a: Actor, ns: string)
    requires a != Shutdown && s.At(a) == Idle && !s.reg.panicked && (ns in s.reg.watch ==> !Bad(s.reg, ns))
    ensures
      var t := Run(s, [Load(a, ns), CloseHeld(a), Drop(a)]);
      t == s.(reg := Stop(s.reg, {ns}), closers := t.closers)
  {
    hide CloseAll;
    RunThree(s, Load(a, ns), CloseHeld(a), Drop(a));
    CloseOne(s.reg, ns);
    assert ns !in s.reg.watch ==> s.reg.watch - {ns} == s.reg.watch;
  }

  /** The unregistrations of a prune, in some order. */
  function PruneSteps(a: Actor, order: seq<string>): seq<Step> {
    if order == [] then []
    else PruneSteps(a, order[..|order| - 1]) + [Load(a, order[|order| - 1]), CloseHeld(a), Drop(a)]
  }

  /** A prune that nothing interrupts, in any order of its entries, stops exactly those. */
  lemma {:induction false} PruneInSteps(s: System, a: Actor, order: seq<string>)
    requires Conserved(s.reg) && a != Shutdown && s.At(a) == Idle
    requires forall i :: 0 <= i < |order| ==> order[i] in s.reg.watch
    requires forall i, j :: 0 <= i < j < |order| ==> order[i] != order[j]
    ensures
      var t := Run(s, PruneSteps(a, order));
      t == s.(reg := Stop(s.reg, Members(order)), closers := t.closers) && !t.reg.panicked
  {
    hide Conserved, Stop, Next;
    if order == [] {
      assert Members(order) == {};
      ConservedClean(s.reg);
      StopNone(s.reg);
    } else {
      var n := |order| - 1;
      var init, ns := order[..n], order[n];
      PruneInSteps(s, a, init);
      var mid := Run(s, PruneSteps(a, init));
      assert ns !in Members(init) && Members(order) == Members(init) + {ns};
      RunConcat(s, PruneSteps(a, init), [Load(a, ns), CloseHeld(a), Drop(a)]);
      StopMore(s.reg, Members(init), ns);
      StopClean(s.reg, Members(order));
      StopLeaves(s.reg, Members(init), ns);
      UnregisterInSteps(mid, a, ns);
    }
  }

  lemma ConservedClean(r: Watches)
    requires Conserved(r)
    ensures !r.panicked
  {
  }

  lemma StopLeaves(r: Watches, names: set<string>, ns: string)
    requires Conserved(r) && ns in r.watch && ns !in names
    ensures ns in Stop(r, names).watch && !Bad(Stop(r, names), ns)
  {
    CloseMore(r, names, ns);
  }

  /* ------------------------------------------------------------------ a registration beside the pruner */

  /** The handler registers a namespace while the pruner is somewhere, and the pruner then finishes the entry it is at. */
  function RegisteredBesidePruner(s: System, ns: string): System {
    Run(Run(s, [Claim(ns), Start, Store]), [CloseHeld(Pruner), Drop(Pruner)])
  }

  /** The handler's registration is not lost exactly when the pruner is not at the same namespace. */
  lemma RegistrationKeptExactly(s: System, ns: string)
    requires Kept(s) && s.handler == Idle && !RegisteredBesidePruner(s, ns).reg.panicked
    ensures ns in RegisteredBesidePruner(s, ns).reg.watch <==> s.pruner == Idle || s.pruner.ns != ns
  {
    hide Kept, Run;
    KeptWork(s, Pruner);
    RegisterInSteps(s, ns);
    var t := s.(reg := Register(s.reg, ns));
    RunTwo(t, CloseHeld(Pruner), Drop(Pruner));
  }

  /* ------------------------------------------------------------------ runs that panic */

  const REGISTERED: seq<Step> := [Claim("a"), Start, Store]

  lemma OneRegistered()
    ensures Run(START, REGISTERED) == START.(reg := EMPTY.(watch := map["a" := Some(0)], made := 1))
  {
    RegisterInSteps(START, "a");
  }

  /** Shutdown between the close and the delete of an unregistration: by the pruner, so that the handler is idle. */
  lemma CaughtPruning()
    ensures
      var steps := REGISTERED + [Load(Pruner, "a"), CloseHeld(Pruner)];
      Run(START, steps).handler == Idle && Run(START, steps + [Load(Shutdown, "a"), CloseHeld(Shutdown)]).reg.panicked
  {
    hide Run;
    var a, b, c := REGISTERED, [Load(Pruner, "a"), CloseHeld(Pruner)], [Load(Shutdown, "a"), CloseHeld(Shutdown)];
    OneRegistered();
    RunConcat(START, a, b);
    RunConcat(START, a + b, c);
    RunTwo(Run(START, a), Load(Pruner, "a"), CloseHeld(Pruner));
    RunTwo(Run(START, a + b), Load(Shutdown, "a"), CloseHeld(Shutdown));
  }

  /** The same by the handler. */
  lemma CaughtUnregistering()
    ensures
      var steps := REGISTERED + [Load(Handler, "a"), CloseHeld(Handler)];
      Run(START, steps).handler == Closed("a") && Run(START, steps + [Load(Shutdown, "a"), CloseHeld(Shutdown)]).reg.panicked
  {
    hide Run;
    var a, b, c := REGISTERED, [Load(Handler, "a"), CloseHeld(Handler)], [Load(Shutdown, "a"), CloseHeld(Shutdown)];
    OneRegistered();
    RunConcat(START, a, b);
    RunConcat(START, a + b, c);
    RunTwo(Run(START, a), Load(Handler, "a"), CloseHeld(Handler));
    RunTwo(Run(START, a + b), Load(Shutdown, "a"), CloseHeld(Shutdown));
  }

  /** A whole unregistration between shutdown's load and its close. */
  lemma CaughtVisiting()
    ensures Run(START, REGISTERED + [Load(Shutdown, "a")] + [Load(Handler, "a"), CloseHeld(Handler), Drop(Handler)]
      + [CloseHeld(Shutdown)]).reg.panicked
  {
    hide Run;
    var a, b, c, d :=
      REGISTERED, [Load(Shutdown, "a")], [Load(Handler, "a"), CloseHeld(Handler), Drop(Handler)], [CloseHeld(Shutdown)];
    OneRegistered();
    RunConcat(START, a, b);
    RunConcat(START, a + b, c);
    RunConcat(START, a + b + c, d);
    RunOne(Run(START, a), Load(Shutdown, "a"));
    RunThree(Run(START, a + b), Load(Handler, "a"), CloseHeld(Handler), Drop(Handler));
    RunOne(Run(START, a + b + c), CloseHeld(Shutdown));
  }

  /** Without any shutdown: the handler and the pruner have both loaded the entry, and both close it. */
  lemma BothUnregister()
    ensures Run(START, REGISTERED + [Load(Handler, "a"), Load(Pruner, "a")] + [CloseHeld(Pruner), CloseHeld(Handler)]).reg.panicked
  {
    hide Run;
    var a, b, c := REGISTERED, [Load(Handler, "a"), Load(Pruner, "a")], [CloseHeld(Pruner), CloseHeld(Handler)];
    OneRegistered();
    RunConcat(START, a, b);
    RunConcat(START, a + b, c);
    RunTwo(Run(START, a), Load(Handler, "a"), Load(Pruner, "a"));
    RunTwo(Run(START, a + b), CloseHeld(Pruner), CloseHeld(Handler));
  }

  /** And the pruner meets an entry that the handler has just published without a channel. */
  lemma PrunedTooEarly()
    ensures Run(START, [Claim("a"), Load(Pruner, "a"), CloseHeld(Pruner)]).reg.panicked
  {
    RunThree(START, Claim("a"), Load(Pruner, "a"), CloseHeld(Pruner));
  }
}
