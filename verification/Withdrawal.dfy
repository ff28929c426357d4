/**
 * pkg/csidriver/driver.go: deleteVolume removes the target directory, then the table entry, then the volume's
 * callbacks, while another goroutine that already has hold of the volume makes the directory again and fills it:
 * a share ranger that found it in the table, or a backing-object callback that was found in its own table.
 */
module Withdrawal {
  import opened Text
  import opened Cluster
  import opened Sweeps
  import opened Schedules

  /**
   * The writer gets hold of the volume, makes the directory, and writes or empties it; deleteVolume removes the
   * directory, the table entry, and the callbacks.
   */
  datatype Move = Look | Make | Finish | RemoveAll | Forget | Unregister

  /** What stops a writer from getting hold of the volume: the table entry is gone, or its callback is. */
  predicate Gate(m: Move) {
    m == Forget || m == Unregister
  }

  /** The target directory, whether the writer could still get hold of the volume, and whether it did. */
  datatype System = System(dir: Option<Content>, open: bool, found: bool)

  /** One move, for a writer with this gate and this decision on the volume, and a usable target path. */
  function Next(o: Outcome, gate: Move, s: System, m: Move): System {
    if m == gate then s.(open := false)
    else
      match m
      case Look => s.(found := s.open)
      case Make => if s.found && o.Put? && s.dir.None? then s.(dir := Some(map[])) else s
      case Finish => if s.found && s.dir.Some? then s.(dir := Settle(o, s.dir)) else s
      case RemoveAll => s.(dir := None)
      case _ => s
  }

  function Run(o: Outcome, gate: Move, dir: Option<Content>, schedule: seq<Move>): System {
    if schedule == [] then System(dir, true, false)
    else Next(o, gate, Run(o, gate, dir, schedule[..|schedule| - 1]), schedule[|schedule| - 1])
  }

  /** A schedule: every move at most once, each side in its own order. */
  predicate Ordered(s: seq<Move>) {
    s == [] ||
    var init, last := s[..|s| - 1], s[|s| - 1];
    && Ordered(init) && last !in init
    && (last == Make ==> Look in init) && (last == Finish ==> Make in init)
    && (last == Forget ==> RemoveAll in init) && (last == Unregister ==> Forget in init)
  }

  /** Both sides are through. */
  predicate Complete(s: seq<Move>) {
    Ordered(s) && Finish in s && Unregister in s
  }

  /** The writer got hold of the volume before its gate closed, and makes the directory after it has been removed. */
  ghost predicate Late(gate: Move, s: seq<Move>) {
    ComesWithout(s, Look, gate) && ComesAfter(s, Make, RemoveAll)
  }

  /** What a system looks like after part of a schedule. */
  ghost predicate Fits(o: Outcome, gate: Move, s: seq<Move>, t: System) {
    && t.open == (gate !in s)
    && t.found == ComesWithout(s, Look, gate)
    && (ComesWithout(s, Look, gate) ==> Look in s) && (ComesAfter(s, Make, RemoveAll) ==> Make in s && RemoveAll in s)
    && (Make !in s ==> Finish !in s) && (Look !in s ==> Make !in s)
    && (RemoveAll in s ==> (t.dir ==
      if !(Late(gate, s) && o.Put?) then None else if Finish in s then Some(o.payload) else Some(map[])))
  }

  lemma MoveFits(o: Outcome, gate: Move, init: seq<Move>, last: Move, t: System)
    requires Gate(gate) && Fits(o, gate, init, t)
    requires last !in init && (last == Make ==> Look in init) && (last == Finish ==> Make in init)
    ensures Fits(o, gate, init + [last], Next(o, gate, t, last))
  {
    hide ComesWithout, ComesAfter;
    var s := init + [last];
    assert forall m :: m in s <==> m in init || m == last;
    ComesMore(init, last, Look, gate);
    ComesMore(init, last, Make, RemoveAll);
  }

  lemma {:induction false} Along(o: Outcome, gate: Move, dir: Option<Content>, s: seq<Move>)
    requires Ordered(s) && Gate(gate)
    ensures Fits(o, gate, s, Run(o, gate, dir, s))
  {
    if s != [] {
      var init, last := s[..|s| - 1], s[|s| - 1];
      Along(o, gate, dir, init);
      assert s == init + [last];
      hide Fits, Next;
      MoveFits(o, gate, init, last, Run(o, gate, dir, init));
    }
  }

  lemma {:induction false} OrderedBefore(s: seq<Move>)
    requires Ordered(s)
    ensures Unregister in s ==> Forget in s
    ensures Forget in s ==> RemoveAll in s
  {
    if s != [] {
      var n := |s| - 1;
      assert s == s[..n] + [s[n]];
      OrderedBefore(s[..n]);
    }
  }

  /**
   * What a deleted volume's path holds when both are through, for every interleaving: nothing, except exactly
   * when the writer had got hold of the volume in time, made the directory after it had been removed, and had
   * data to put there. The rule and the gate say which writer: UpdateRule and Forget for a share ranger,
   * UpsertRule and Unregister for a backing-object callback.
   */
  lemma LeftBehindExactly(w: World, rule: Rule, gate: Move, vol: Vol, dir: Option<Content>, s: seq<Move>)
    requires Complete(s) && Gate(gate)
    ensures
      var o := Decide(w, rule, vol);
      Run(o, gate, dir, s).dir == if Late(gate, s) && o.Put? then Some(o.payload) else None
  {
    var o := Decide(w, rule, vol);
    hide Decide;
    Along(o, gate, dir, s);
    OrderedBefore(s);
  }

  const LATE := [Look, RemoveAll, Forget, Unregister, Make, Finish]

  lemma OrderedMore(init: seq<Move>, last: Move)
    requires Ordered(init) && last !in init
    requires (last == Make ==> Look in init) && (last == Finish ==> Make in init)
    requires (last == Forget ==> RemoveAll in init) && (last == Unregister ==> Forget in init)
    ensures Ordered(init + [last])
  {
    var s := init + [last];
    assert s[..|s| - 1] == init && s[|s| - 1] == last;
  }

  lemma LateHalf()
    ensures Ordered([Look, RemoveAll, Forget, Unregister])
  {
    var a, b, c := [Look], [Look, RemoveAll], [Look, RemoveAll, Forget];
    assert a[..0] == [] && b[..1] == a && c[..2] == b && [Look, RemoveAll, Forget, Unregister][..3] == c;
    assert Ordered(a);
    assert Ordered(b);
    assert Ordered(c);
  }

  /** The schedule of a writer that gets hold of the volume just before deleteVolume and acts just after it. */
  lemma LateSchedule(gate: Move)
    requires Gate(gate)
    ensures Complete(LATE) && Late(gate, LATE)
  {
    hide Ordered, Late;
    LateMoves(gate);
    LateHalf();
    assert LATE[5] == Finish && LATE[3] == Unregister;
    var d, e := [Look, RemoveAll, Forget, Unregister], [Look, RemoveAll, Forget, Unregister, Make];
    assert d + [Make] == e && e + [Finish] == LATE;
    OrderedMore(d, Make);
    OrderedMore(e, Finish);
  }

  lemma LateMoves(gate: Move)
    requires Gate(gate)
    ensures Late(gate, LATE)
  {
    hide ComesWithout, ComesAfter;
    var a, b, c := [Look], [Look, RemoveAll], [Look, RemoveAll, Forget];
    var d, e := [Look, RemoveAll, Forget, Unregister], [Look, RemoveAll, Forget, Unregister, Make];
    assert [] + [Look] == a && a + [RemoveAll] == b && b + [Forget] == c && c + [Unregister] == d && d + [Make] == e && e + [Finish] == LATE;
    ComesMore([], Look, Look, gate);
    ComesMore(a, RemoveAll, Look, gate);
    ComesMore(b, Forget, Look, gate);
    ComesMore(c, Unregister, Look, gate);
    ComesMore(d, Make, Look, gate);
    ComesMore(e, Finish, Look, gate);
    ComesMore(d, Make, Make, RemoveAll);
    ComesMore(e, Finish, Make, RemoveAll);
  }

  /** So deletion is safe against such a writer, for every interleaving, exactly when it has no data for the volume. */
  lemma WithdrawalSafeExactly(w: World, rule: Rule, gate: Move, vol: Vol)
    requires Gate(gate)
    ensures !Decide(w, rule, vol).Put? <==>
      forall dir, s :: Complete(s) ==> Run(Decide(w, rule, vol), gate, dir, s).dir == None
  {
    var o := Decide(w, rule, vol);
    if o.Put? {
      LateSchedule(gate);
      LeftBehindExactly(w, rule, gate, vol, None, LATE);
      hide Decide, Run, Complete, Late;
      assert Complete(LATE) && Run(o, gate, None, LATE).dir == Some(o.payload);
    } else {
      forall dir, s | Complete(s) ensures Run(o, gate, dir, s).dir == None {
        LeftBehindExactly(w, rule, gate, vol, dir, s);
      }
    }
  }
}
