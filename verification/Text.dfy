/** The few operations of Go's strings package that the driver's parsers rest on. */
module Text {

  datatype Option<+T> = None | Some(value: T)

  /** strings.Split with a one-character separator: always at least one part. */
  function Split(s: string, sep: char): (parts: seq<string>)
    ensures |parts| >= 1
  {
    if s == "" then [""]
    else
      var rest := Split(s[1..], sep);
      if s[0] == sep then [""] + rest
      else [[s[0]] + rest[0]] + rest[1..]
  }

  /** strings.Join with a one-character separator. */
  function Join(parts: seq<string>, sep: char): string
    requires |parts| >= 1
  {
    if |parts| == 1 then parts[0] else parts[0] + [sep] + Join(parts[1..], sep)
  }

  /** Splitting distributes over a separator placed between two texts. */
  lemma {:induction false} SplitConcat(a: string, b: string, sep: char)
    ensures Split(a + [sep] + b, sep) == Split(a, sep) + Split(b, sep)
  {
    var whole := a + [sep] + b;
    if a == "" {
      assert whole[1..] == b;
    } else {
      assert whole[1..] == a[1..] + [sep] + b;
      SplitConcat(a[1..], b, sep);
    }
  }

  /** A text without the separator is its own single part. */
  lemma {:induction false} SplitWhole(s: string, sep: char)
    requires sep !in s
    ensures Split(s, sep) == [s]
  {
    if s != "" {
      SplitWhole(s[1..], sep);
      assert [s[0]] + s[1..] == s;
    }
  }

  /** Split loses nothing, and leaves no separator inside a part. */
  lemma {:induction false} JoinSplit(s: string, sep: char)
    ensures Join(Split(s, sep), sep) == s
    ensures forall i :: 0 <= i < |Split(s, sep)| ==> sep !in Split(s, sep)[i]
  {
    if s != "" {
      var rest := Split(s[1..], sep);
      JoinSplit(s[1..], sep);
      if s[0] == sep {
        assert ([""] + rest)[1..] == rest;
        assert Join([""] + rest, sep) == [sep] + s[1..];
      } else {
        var parts := [[s[0]] + rest[0]] + rest[1..];
        assert parts[1..] == rest[1..];
        if |rest| > 1 {
          assert Join(parts, sep) == [s[0]] + (rest[0] + [sep] + Join(rest[1..], sep));
        }
        assert Join(parts, sep) == [s[0]] + Join(rest, sep);
      }
    }
  }

  /** unicode.IsSpace: the White_Space property. */
  predicate IsSpace(c: char) {
    || '\U{9}' <= c <= '\U{D}' || c == ' ' || c == '\U{85}' || c == '\U{A0}'
    || c == '\U{1680}' || '\U{2000}' <= c <= '\U{200A}' || c == '\U{2028}'
    || c == '\U{2029}' || c == '\U{202F}' || c == '\U{205F}' || c == '\U{3000}'
  }

  function TrimLeft(s: string): string {
    if s != "" && IsSpace(s[0]) then TrimLeft(s[1..]) else s
  }

  function TrimRight(s: string): string {
    if s != "" && IsSpace(s[|s| - 1]) then TrimRight(s[..|s| - 1]) else s
  }

  /** strings.TrimSpace. */
  function TrimSpace(s: string): string {
    TrimRight(TrimLeft(s))
  }

  predicate Blank(s: string) {
    TrimSpace(s) == ""
  }

  lemma {:induction false} TrimLeftHead(s: string)
    ensures TrimLeft(s) == "" || !IsSpace(TrimLeft(s)[0])
  {
    if s != "" && IsSpace(s[0]) { TrimLeftHead(s[1..]); }
  }

  lemma {:induction false} TrimRightEnds(s: string)
    ensures TrimRight(s) <= s
    ensures TrimRight(s) == "" || !IsSpace(TrimRight(s)[|TrimRight(s)| - 1])
  {
    if s != "" && IsSpace(s[|s| - 1]) { TrimRightEnds(s[..|s| - 1]); }
  }

  /** Trimming twice is trimming once. */
  lemma TrimIdempotent(s: string)
    ensures TrimSpace(TrimSpace(s)) == TrimSpace(s)
  {
    var l := TrimLeft(s);
    TrimLeftHead(s);
    TrimRightEnds(l);
    var t := TrimRight(l);
    if t != "" {
      assert t[0] == l[0];
      assert TrimLeft(t) == t;
      assert TrimRight(t) == t;
    }
  }

  predicate AllSpace(s: string) {
    forall i :: 0 <= i < |s| ==> IsSpace(s[i])
  }

  /** The text is the other one without a leading and a trailing stretch of white space, and has no more to trim. */
  ghost predicate TrimmedTo(s: string, t: string) {
    exists i, j :: TrimmedAt(s, t, i, j)
  }

  predicate TrimmedAt(s: string, t: string, i: int, j: int) {
    0 <= i <= j <= |s| && t == s[i..j] && AllSpace(s[..i]) && AllSpace(s[j..])
    && (t != "" ==> !IsSpace(t[0]) && !IsSpace(t[|t| - 1]))
  }

  lemma {:induction false} TrimLeftAt(s: string) returns (i: nat)
    ensures i <= |s| && TrimLeft(s) == s[i..] && AllSpace(s[..i])
  {
    i := 0;
    if s != "" && IsSpace(s[0]) {
      var k := TrimLeftAt(s[1..]);
      i := k + 1;
      assert forall x :: 1 <= x < i ==> s[x] == s[1..][..k][x - 1];
    }
  }

  lemma {:induction false} TrimRightAt(s: string) returns (j: nat)
    ensures j <= |s| && TrimRight(s) == s[..j] && AllSpace(s[j..])
  {
    j := |s|;
    if s != "" && IsSpace(s[|s| - 1]) {
      var n := |s| - 1;
      j := TrimRightAt(s[..n]);
      assert s[..n][..j] == s[..j];
      assert forall x :: j <= x < n ==> s[x] == s[..n][j..][x - j];
    }
  }

  lemma {:induction false} TrimLeftSkips(a: string, b: string)
    requires AllSpace(a)
    ensures TrimLeft(a + b) == TrimLeft(b)
  {
    if a == "" {
      assert a + b == b;
    } else {
      assert (a + b)[1..] == a[1..] + b;
      TrimLeftSkips(a[1..], b);
    }
  }

  lemma {:induction false} TrimRightSkips(a: string, b: string)
    requires AllSpace(b)
    ensures TrimRight(a + b) == TrimRight(a)
  {
    if b == "" {
      assert a + b == a;
    } else {
      var n := |b| - 1;
      assert (a + b)[..|a + b| - 1] == a + b[..n];
      TrimRightSkips(a, b[..n]);
    }
  }

  /** TrimSpace is exactly that, and there is one result only. */
  lemma TrimSpaceExactly(s: string, t: string)
    ensures TrimmedTo(s, t) <==> t == TrimSpace(s)
  {
    hide IsSpace, AllSpace, TrimmedAt;
    if t == TrimSpace(s) {
      TrimmedSomewhere(s);
    }
    if i, j :| TrimmedAt(s, t, i, j) {
      TrimmedOnce(s, t, i, j);
    }
  }

  lemma TrimmedSomewhere(s: string)
    ensures TrimmedTo(s, TrimSpace(s))
  {
    hide IsSpace, AllSpace, TrimLeft, TrimRight;
    var i := TrimLeftAt(s);
    var l, t := TrimLeft(s), TrimSpace(s);
    var j := TrimRightAt(l);
    TrimLeftHead(s);
    TrimRightEnds(l);
    assert s[i..][..j] == s[i..i + j] && l[j..] == s[i + j..];
    assert t != "" ==> t[0] == l[0];
    assert TrimmedAt(s, t, i, i + j);
  }

  lemma TrimmedOnce(s: string, t: string, i: int, j: int)
    requires TrimmedAt(s, t, i, j)
    ensures t == TrimSpace(s)
  {
    hide IsSpace, AllSpace;
    assert s == s[..i] + (t + s[j..]);
    TrimLeftSkips(s[..i], t + s[j..]);
    if t == "" {
      assert t + s[j..] == s[j..] == s[j..] + "";
      TrimLeftSkips(s[j..], "");
    } else {
      assert TrimLeft(t + s[j..]) == t + s[j..];
      TrimRightSkips(t, s[j..]);
      assert TrimRight(t) == t;
    }
  }

  /** A text is blank exactly when it consists of white space. */
  lemma BlankExactly(s: string)
    ensures Blank(s) <==> AllSpace(s)
  {
    TrimSpaceExactly(s, "");
    if AllSpace(s) {
      assert TrimmedAt(s, "", |s|, |s|);
    }
    if i, j :| TrimmedAt(s, "", i, j) {
      assert s == s[..i] + s[i..];
    }
  }

  /** White space below U+0100. */
  lemma SpacesBelow256(c: char)
    requires c as int < 256
    ensures IsSpace(c) <==> c as int in {0x9, 0xA, 0xB, 0xC, 0xD, 0x20, 0x85, 0xA0}
  {
  }

  /** There is one part more than there are separators. */
  lemma {:induction false} SplitCounts(s: string, sep: char)
    ensures |Split(s, sep)| == multiset(s)[sep] + 1
  {
    if s != "" {
      assert s == [s[0]] + s[1..];
      SplitCounts(s[1..], sep);
    }
  }
}
