/**
 * pkg/csidriver/driver.go and pkg/controller/controller.go: the four event processors run at the same time. One of
 * them denies a volume, empties it and unregisters its backing-object callbacks, while another one has a write
 * to the volume on its way: a callback it has found registered, or a ranger whose own review was granted before.
 */
module Revocation {
  import opened Cluster
  import opened Sweeps
  import opened Schedules

  /** The writer passes its check and writes; the denial empties the volume and unregisters the callbacks. */
  datatype Move = Check | Write | Empty | Unregister

  /** A callback is called if it is still registered; a ranger has asked for a review that was granted at the time. */
  datatype Writer = Callback | Ranger

  /** What the pod sees, whether the callback is registered, and whether the writer passed its check. */
  datatype System = System(shown: Content, registered: bool, passed: bool)

  function Next(o: Outcome, writer: Writer, s: System, m: Move): System {
    match m
    case Check => s.(passed := writer == Ranger || s.registered)
    case Write => if s.passed then s.(shown := ShownAfter(o, s.shown)) else s
    case Empty => s.(shown := map[])
    case Unregister => s.(registered := false)
  }

  function Run(o: Outcome, writer: Writer, shown: Content, schedule: seq<Move>): System {
    if schedule == [] then System(shown, true, false)
    else Next(o, writer, Run(o, writer, shown, schedule[..|schedule| - 1]), schedule[|schedule| - 1])
  }

  predicate Ordered(s: seq<Move>) {
    s == [] ||
    var init, last := s[..|s| - 1], s[|s| - 1];
    && Ordered(init) && last !in init
    && (last == Write ==> Check in init) && (last == Unregister ==> Empty in init)
  }

  predicate Complete(s: seq<Move>) {
    Ordered(s) && Write in s && Unregister in s
  }

  /** The writer passed its check in time, and writes after the volume has been emptied. */
  ghost predicate Late(writer: Writer, s: seq<Move>) {
    (writer == Ranger || ComesWithout(s, Check, Unregister)) && ComesAfter(s, Write, Empty)
  }

  ghost predicate Fits(o: Outcome, writer: Writer, s: seq<Move>, t: System) {
    && t.registered == (Unregister !in s)
    && (Check in s ==> (t.passed <==> writer == Ranger || ComesWithout(s, Check, Unregister)))
    && (ComesWithout(s, Check, Unregister) ==> Check in s) && (ComesAfter(s, Write, Empty) ==> Write in s && Empty in s)
    && (Check !in s ==> Write !in s)
    && (Empty in s ==> (t.shown == if Late(writer, s) then ShownAfter(o, map[]) else map[]))
  }

  lemma MoveFits(o: Outcome, writer: Writer, init: seq<Move>, last: Move, t: System)
    requires Fits(o, writer, init, t) && last !in init && (last == Write ==> Check in init)
    ensures Fits(o, writer, init + [last], Next(o, writer, t, last))
  {
    hide ComesWithout, ComesAfter, ShownAfter;
    var s := init + [last];
    assert forall m :: m in s <==> m in init || m == last;
    ComesMore(init, last, Check, Unregister);
    ComesMore(init, last, Write, Empty);
  }

  lemma {:induction false} Along(o: Outcome, writer: Writer, shown: Content, s: seq<Move>)
    requires Ordered(s)
    ensures Fits(o, writer, s, Run(o, writer, shown, s))
    ensures Unregister in s ==> Empty in s
  {
    if s != [] {
      var init, last := s[..|s| - 1], s[|s| - 1];
      Along(o, writer, shown, init);
      assert s == init + [last];
      hide Fits, Next;
      MoveFits(o, writer, init, last, Run(o, writer, shown, init));
    }
  }

  /**
   * What a denied volume shows when both are through, for every interleaving and whatever it showed before:
   * nothing, except exactly when the writer passed its check in time, wrote after the denial had emptied the
   * volume, and had data to write.
   */
  lemma ShownExactly(w: World, rule: Rule, writer: Writer, vol: Vol, before: Content, s: seq<Move>)
    requires Complete(s)
    ensures
      var o := Decide(w, rule, vol);
      Run(o, writer, before, s).shown == if Late(writer, s) && o.Put? then o.payload else map[]
  {
    var o := Decide(w, rule, vol);
    hide Decide;
    Along(o, writer, before, s);
  }

  const LATE := [Check, Empty, Unregister, Write]

  lemma LateSchedule(writer: Writer)
    ensures Complete(LATE) && Late(writer, LATE)
  {
    var a, b, c := [Check], [Check, Empty], [Check, Empty, Unregister];
    assert a[..0] == [] && b[..1] == a && c[..2] == b && LATE[..3] == c;
    assert Ordered(a);
    assert Ordered(b);
    assert Ordered(c);
    assert [] + [Check] == a && a + [Empty] == b && b + [Unregister] == c && c + [Write] == LATE;
    ComesMore([], Check, Check, Unregister);
    ComesMore(a, Empty, Check, Unregister);
    ComesMore(b, Unregister, Check, Unregister);
    ComesMore(c, Write, Check, Unregister);
    ComesMore(c, Write, Write, Empty);
  }

  /** So a denial holds against such a writer, for every interleaving, exactly when the writer has no data for the volume. */
  lemma RevocationSafeExactly(w: World, rule: Rule, writer: Writer, vol: Vol)
    ensures Decide(w, rule, vol) in {Skip, Clear, Put(map[])} <==>
      forall before, s :: Complete(s) ==> Run(Decide(w, rule, vol), writer, before, s).shown == map[]
  {
    var o := Decide(w, rule, vol);
    if o.Put? && o.payload != map[] {
      LateSchedule(writer);
      ShownExactly(w, rule, writer, vol, map[], LATE);
      hide Decide, Run, Complete, Late;
      assert Complete(LATE) && Run(o, writer, map[], LATE).shown == o.payload;
    } else {
      forall before, s | Complete(s) ensures Run(o, writer, before, s).shown == map[] {
        ShownExactly(w, rule, writer, vol, before, s);
      }
    }
  }
}
