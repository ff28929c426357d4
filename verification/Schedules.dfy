/** Interleavings of two goroutines, as sequences of moves each of which comes at most once. */
module Schedules {
  /** The move comes at a point where the other one has not come yet. */
  ghost predicate ComesWithout<T>(s: seq<T>, m: T, other: T) {
    s != [] &&
    var init, last := s[..|s| - 1], s[|s| - 1];
    ComesWithout(init, m, other) || (last == m && other !in init)
  }

  /** The move comes at a point where the other one has come. */
  ghost predicate ComesAfter<T>(s: seq<T>, m: T, other: T) {
    s != [] &&
    var init, last := s[..|s| - 1], s[|s| - 1];
    ComesAfter(init, m, other) || (last == m && other in init)
  }

  lemma ComesMore<T>(init: seq<T>, last: T, m: T, other: T)
    ensures ComesWithout(init + [last], m, other) <==> ComesWithout(init, m, other) || (last == m && other !in init)
    ensures ComesAfter(init + [last], m, other) <==> ComesAfter(init, m, other) || (last == m && other in init)
  {
    var s := init + [last];
    assert s[..|s| - 1] == init && s[|s| - 1] == last;
  }
}
