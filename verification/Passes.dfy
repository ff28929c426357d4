/** The share-update pass: composition, iteration order, fan-out through nested callbacks, isolation. */
module Passes {
  import opened Cluster
  import opened Sweeps
  import opened Machine

  /** A pass over A followed by a pass over B, in the same world, is one pass over A + B. */
  lemma PassPass(w: World, kind: Kind, st: State, a: set<string>, b: set<string>)
    requires DistinctTargets(st.volumes)
    ensures Pass(w, kind, Pass(w, kind, st, a), b) == Pass(w, kind, st, a + b)
  {
    SweepSweep(w, UpdateRule(kind), st.files, st.volumes, a, b);
    var da, db := Denied(w, kind, st.volumes, a), Denied(w, kind, st.volumes, b);
    assert Denied(w, kind, st.volumes, a + b) == da + db;
    DropDrop(st.secret, da, db);
    DropDrop(st.configMap, da, db);
  }

  lemma DropDrop<T>(cbs: Callbacks<T>, a: set<string>, b: set<string>)
    ensures Dropped(Dropped(cbs, a), b) == Dropped(cbs, a + b)
  {
    assert cbs.upserts - a - b == cbs.upserts - (a + b);
    assert cbs.deletes - a - b == cbs.deletes - (a + b);
  }

  lemma PassNone(w: World, kind: Kind, st: State)
    ensures Pass(w, kind, st, {}) == st
  {
    SweepNone(w, UpdateRule(kind), st.files, st.volumes);
    assert Denied(w, kind, st.volumes, {}) == {};
    DropNone(st.secret);
    DropNone(st.configMap);
  }

  lemma PassFrame(w: World, kind: Kind, st: State, ids: set<string>)
    ensures
      var st1 := Pass(w, kind, st, ids);
      && st1.volumes == st.volumes && st1.mounts == st.mounts && st1.disk == st.disk
      && forall k: Kind :: st1.Of(k).shareUpdates == st.Of(k).shareUpdates && st1.Of(k).shareDeletes == st.Of(k).shareDeletes
  {
  }

  lemma DropNone<T>(cbs: Callbacks<T>)
    ensures Dropped(cbs, {}) == cbs
  {
    assert cbs.upserts - {} == cbs.upserts;
    assert cbs.deletes - {} == cbs.deletes;
  }

  /** The effect of one ranger call on a whole state, for a volume that the ranger matches. */
  lemma PassSingle(w: World, kind: Kind, st: State, id: string)
    requires id in st.volumes
    ensures
      var vol := st.volumes[id];
      var o := Decide(w, UpdateRule(kind), vol);
      var denied := if o.Clear? then {id} else {};
      Pass(w, kind, st, {id}) == st.(files := SetDir(w, st.files, vol.targetPath, o),
        secret := Dropped(st.secret, denied), configMap := Dropped(st.configMap, denied))
  {
    SweepSingle(w, UpdateRule(kind), st.files, st.volumes, id);
    hide Sweep, Decide;
  }

  /** One call of the ranger: a volume that does not name the share is left alone. */
  ghost function Visit(w: World, kind: Kind, name: string, st: State, id: string): State {
    if id in Naming(st.volumes, {name}) then Pass(w, kind, st, {id}) else st
  }

  /** volumes.Range with the ids in some order, repetitions allowed. */
  ghost function Visits(w: World, kind: Kind, name: string, st: State, order: seq<string>): State {
    if order == [] then st
    else Visit(w, kind, name, Visits(w, kind, name, st, order[..|order| - 1]), order[|order| - 1])
  }

  ghost function Members(order: seq<string>): set<string> {
    set id | id in order
  }

  /** Visiting volumes one at a time, in any order and any number of times, is one pass over those visited. */
  lemma {:induction false} VisitsArePass(w: World, kind: Kind, name: string, st: State, order: seq<string>)
    requires DistinctTargets(st.volumes)
    ensures Visits(w, kind, name, st, order) == Pass(w, kind, st, Naming(st.volumes, {name}) * Members(order))
  {
    var naming := Naming(st.volumes, {name});
    if order == [] {
      assert naming * Members(order) == {};
      PassNone(w, kind, st);
    } else {
      var init, id := order[..|order| - 1], order[|order| - 1];
      VisitsArePass(w, kind, name, st, init);
      assert Members(order) == Members(init) + {id};
      if id in naming {
        PassPass(w, kind, st, naming * Members(init), {id});
        assert naming * Members(init) + {id} == naming * Members(order);
      } else {
        assert naming * Members(init) == naming * Members(order);
      }
    }
  }

  /** Every complete iteration order of the ranger ends in the same state. */
  lemma OrderIndependent(w: World, kind: Kind, name: string, st: State, order0: seq<string>, order1: seq<string>)
    requires DistinctTargets(st.volumes)
    requires st.volumes.Keys <= Members(order0) && st.volumes.Keys <= Members(order1)
    ensures Visits(w, kind, name, st, order0) == Visits(w, kind, name, st, order1)
  {
    var naming := Naming(st.volumes, {name});
    VisitsArePass(w, kind, name, st, order0);
    VisitsArePass(w, kind, name, st, order1);
    assert naming * Members(order0) == naming == naming * Members(order1);
  }

  /** Callback after callback, each ranging over all volumes in an order of its own. */
  ghost function Callings(w: World, kind: Kind, name: string, st: State, orders: seq<seq<string>>): State {
    if orders == [] then st
    else Visits(w, kind, name, Callings(w, kind, name, st, orders[..|orders| - 1]), orders[|orders| - 1])
  }

  /** n >= 1 nested callbacks, each over every volume, have exactly the effect of one pass. */
  lemma {:induction false} FanOutCollapses(w: World, kind: Kind, name: string, st: State, orders: seq<seq<string>>)
    requires DistinctTargets(st.volumes)
    requires forall i :: 0 <= i < |orders| ==> st.volumes.Keys <= Members(orders[i])
    ensures Callings(w, kind, name, st, orders) ==
      if orders == [] then st else Pass(w, kind, st, Naming(st.volumes, {name}))
  {
    if orders != [] {
      var init, last := orders[..|orders| - 1], orders[|orders| - 1];
      FanOutCollapses(w, kind, name, st, init);
      var naming := Naming(st.volumes, {name});
      var mid := Callings(w, kind, name, st, init);
      VisitsArePass(w, kind, name, mid, last);
      assert naming * Members(last) == naming;
      if init != [] {
        PassPass(w, kind, st, naming, naming);
        assert naming + naming == naming;
      }
    }
  }

  /** Passes for different shares commute, and a pass for several shares is their succession. */
  lemma PassesCompose(w: World, kind: Kind, st: State, names: set<string>, more: set<string>)
    requires DistinctTargets(st.volumes)
    ensures FanOut(w, kind, FanOut(w, kind, st, names), more) == FanOut(w, kind, st, names + more)
  {
    if st.Of(kind).shareUpdates != {} {
      PassPass(w, kind, st, Naming(st.volumes, names), Naming(st.volumes, more));
      assert Naming(st.volumes, names) + Naming(st.volumes, more) == Naming(st.volumes, names + more);
    }
  }

  lemma FanOutNone(w: World, kind: Kind, st: State)
    ensures FanOut(w, kind, st, {}) == st
  {
    assert Naming(st.volumes, {}) == {};
    PassNone(w, kind, st);
  }

  /**
   * Isolation, for a volume the pass covers: its files and its callbacks follow from its own decision,
   * whichever other volumes are covered, denied or unfetchable.
   */
  lemma PassOwn(w: World, kind: Kind, st: State, ids: set<string>, id: string)
    requires DistinctTargets(st.volumes) && id in ids && id in st.volumes
    ensures
      var path := st.volumes[id].targetPath;
      At(Pass(w, kind, st, ids).files, path) ==
        if w.FsFails(path) then At(st.files, path)
        else Settle(Decide(w, UpdateRule(kind), st.volumes[id]), At(st.files, path))
    ensures forall k: Kind :: id in Pass(w, kind, st, ids).Of(k).upserts <==>
      id in st.Of(k).upserts && !Decide(w, UpdateRule(kind), st.volumes[id]).Clear?
    ensures forall k: Kind :: id in Pass(w, kind, st, ids).Of(k).deletes <==>
      id in st.Of(k).deletes && !Decide(w, UpdateRule(kind), st.volumes[id]).Clear?
  {
    SweepOwn(w, UpdateRule(kind), st.files, st.volumes, ids, id);
  }

  /** Isolation, for a volume the pass does not cover: nothing of it changes. */
  lemma PassOther(w: World, kind: Kind, st: State, ids: set<string>, id: string)
    requires DistinctTargets(st.volumes) && id !in ids && id in st.volumes
    ensures At(Pass(w, kind, st, ids).files, st.volumes[id].targetPath) == At(st.files, st.volumes[id].targetPath)
    ensures forall k: Kind :: id in Pass(w, kind, st, ids).Of(k).upserts <==> id in st.Of(k).upserts
    ensures forall k: Kind :: id in Pass(w, kind, st, ids).Of(k).deletes <==> id in st.Of(k).deletes
  {
    assert !Targeted(st.volumes, ids, st.volumes[id].targetPath);
    SweepOther(w, UpdateRule(kind), st.files, st.volumes, ids, st.volumes[id].targetPath);
  }
}
