/**
 * pkg/csidriver/driver.go, commonOSRemove: emptying a directory that an atomic writer has filled with
 * symlinks, in two passes, so that no key a pod can see is ever a dangling link.
 */
module Removal {
  /** A directory entry: a symlink, by the entry its target starts at, or a file or directory. */
  datatype Entry = Link(to: string) | Real

  type Dir = map<string, Entry>

  predicate DotDot(name: string) {
    ".." <= name
  }

  /** A key as the pod sees it: a symlink whose name does not start with "..". */
  predicate KeyLink(dir: Dir, name: string) {
    name in dir && dir[name].Link? && !DotDot(name)
  }

  /** The entry reached from a name by following a number of symlinks. */
  function Hop(dir: Dir, name: string, hops: nat): (reached: string)
    decreases hops
  {
    if hops > 0 && name in dir && dir[name].Link? then Hop(dir, dir[name].to, hops - 1) else name
  }

  /** Following symlinks from the name ends at a file or directory. */
  ghost predicate Alive(dir: Dir, name: string) {
    exists hops: nat :: Hop(dir, name, hops) in dir && dir[Hop(dir, name, hops)].Real?
  }

  /** No visible key dangles. */
  ghost predicate Intact(dir: Dir) {
    forall name :: KeyLink(dir, name) ==> Alive(dir, name)
  }

  /** No visible key is reached through another one. */
  ghost predicate KeysApart(dir: Dir) {
    forall name, hops: nat :: KeyLink(dir, name) && KeyLink(dir, Hop(dir, name, hops)) ==> Hop(dir, name, hops) == name
  }

  /** A listing of the directory: every entry once, in any order. */
  ghost predicate Lists(listing: seq<string>, dir: Dir) {
    && (forall name :: name in listing <==> name in dir)
    && (forall i, j :: 0 <= i < j < |listing| ==> listing[i] != listing[j])
  }

  /** The entries that the first pass, or the second, removes, in listing order. */
  function Picked(dir: Dir, listing: seq<string>, keys: bool): seq<string> {
    if listing == [] then []
    else
      var last := listing[|listing| - 1];
      Picked(dir, listing[..|listing| - 1], keys) + if KeyLink(dir, last) == keys then [last] else []
  }

  /** All removals of a call that meets no error. */
  function Removals(dir: Dir, listing: seq<string>): seq<string> {
    Picked(dir, listing, true) + Picked(dir, listing, false)
  }

  function After(dir: Dir, removed: seq<string>): Dir {
    dir - set name | name in removed
  }

  /** The directory that commonOSRemove works on. */
  class Directory {
    var entries: Dir

    constructor (entries: Dir)
      ensures this.entries == entries
    {
      this.entries := entries;
    }

    /**
     * commonOSRemove on a listing, with the entries whose removal fails. The names it has removed when it
     * returns are a prefix of Removals, all of them exactly when it succeeds.
     */
    method CommonOSRemove(listing: seq<string>, fails: set<string>) returns (ok: bool, removed: seq<string>)
      requires Lists(listing, entries)
      modifies this
      ensures removed <= Removals(old(entries), listing) && entries == After(old(entries), removed)
      ensures ok <==> removed == Removals(old(entries), listing)
      ensures ok <==> forall name :: name in listing ==> name !in fails
      ensures ok ==> entries == map[]
    {
      hide Picked, After, KeyLink, Lists;
      var dir := entries;
      AfterNone(dir);
      RemovalsExactlyOnce(dir, listing);
      ok, removed := Unlink(listing, fails, dir, true, []);
      if ok {
        ok, removed := Unlink(listing, fails, dir, false, removed);
      }
    }

    /** One of the two loops over the entries read, which removes the keys or everything else. */
    method Unlink(listing: seq<string>, fails: set<string>, dir: Dir, keys: bool, before: seq<string>)
      returns (ok: bool, removed: seq<string>)
      requires entries == After(dir, before)
      modifies this
      ensures removed <= before + Picked(dir, listing, keys) && entries == After(dir, removed)
      ensures ok <==> removed == before + Picked(dir, listing, keys)
      ensures !ok ==> |removed| < |before| + |Picked(dir, listing, keys)|
      ensures ok <==> forall name :: name in listing && KeyLink(dir, name) == keys ==> name !in fails
    {
      hide After, KeyLink;
      removed := before;
      var i := 0;
      while i < |listing|
        invariant 0 <= i <= |listing|
        invariant removed == before + Picked(dir, listing[..i], keys) && entries == After(dir, removed)
        invariant forall j :: 0 <= j < i && KeyLink(dir, listing[j]) == keys ==> listing[j] !in fails
      {
        hide Picked;
        var name := listing[i];
        PickedPrefix(dir, listing, i, keys);
        if KeyLink(dir, name) == keys {
          if name in fails {
            PickedMore(dir, listing, i, keys);
            return false, removed;
          }
          AfterMore(dir, removed, name);
          entries := entries - {name};
          removed := removed + [name];
        }
        i := i + 1;
      }
      assert listing[..i] == listing;
      ok := true;
    }
  }

  lemma AfterNone(dir: Dir)
    ensures After(dir, []) == dir
  {
    var none: seq<string> := [];
    assert (set name | name in none) == {};
  }

  lemma AfterMore(dir: Dir, removed: seq<string>, name: string)
    ensures After(dir, removed) - {name} == After(dir, removed + [name])
  {
    assert (set other | other in removed + [name]) == (set other | other in removed) + {name};
  }

  lemma {:induction false} PickedMembers(dir: Dir, listing: seq<string>, keys: bool, name: string)
    ensures name in Picked(dir, listing, keys) <==> name in listing && KeyLink(dir, name) == keys
  {
    if listing != [] {
      var n := |listing| - 1;
      assert listing == listing[..n] + [listing[n]];
      PickedMembers(dir, listing[..n], keys, name);
    }
  }

  lemma PickedPrefix(dir: Dir, listing: seq<string>, i: nat, keys: bool)
    requires i < |listing|
    ensures Picked(dir, listing[..i + 1], keys) ==
      Picked(dir, listing[..i], keys) + if KeyLink(dir, listing[i]) == keys then [listing[i]] else []
  {
    assert listing[..i + 1][..i] == listing[..i];
  }

  lemma {:induction false} PickedMore(dir: Dir, listing: seq<string>, i: nat, keys: bool)
    requires i < |listing| && KeyLink(dir, listing[i]) == keys
    ensures Picked(dir, listing[..i], keys) <= Picked(dir, listing, keys)
    ensures |Picked(dir, listing[..i], keys)| < |Picked(dir, listing, keys)|
  {
    hide KeyLink;
    var n := |listing| - 1;
    if i < n {
      PickedMore(dir, listing[..n], i, keys);
      assert listing[..n][..i] == listing[..i];
    }
  }

  lemma {:induction false} PickedCounts(dir: Dir, listing: seq<string>)
    ensures multiset(Picked(dir, listing, true)) + multiset(Picked(dir, listing, false)) == multiset(listing)
  {
    hide KeyLink;
    if listing != [] {
      var n := |listing| - 1;
      PickedCounts(dir, listing[..n]);
      assert listing == listing[..n] + [listing[n]];
    }
  }

  /** Every entry is removed exactly once, and once all are removed the directory is empty. */
  lemma RemovalsExactlyOnce(dir: Dir, listing: seq<string>)
    requires Lists(listing, dir)
    ensures multiset(Removals(dir, listing)) == multiset(dir.Keys)
    ensures After(dir, Removals(dir, listing)) == map[]
  {
    hide KeyLink, Picked;
    PickedCounts(dir, listing);
    DistinctCounts(listing);
    assert (set name | name in listing) == dir.Keys;
    var all := Removals(dir, listing);
    forall name | name in dir ensures name in all {
      assert name in multiset(all);
    }
    assert After(dir, all).Keys == {};
  }

  lemma {:induction false} DistinctCounts(s: seq<string>)
    requires forall i, j :: 0 <= i < j < |s| ==> s[i] != s[j]
    ensures multiset(s) == multiset(set x | x in s)
  {
    if s != [] {
      var n := |s| - 1;
      var init, last := s[..n], s[n];
      DistinctCounts(init);
      assert s == init + [last];
      assert last !in init;
      assert (set x | x in s) == (set x | x in init) + {last};
    } else {
      assert (set x | x in s) == {};
    }
  }

  /* ------------------------------------------------------------------ dangling links */

  /** Removing entries that are not on the way leaves the way as it is. */
  lemma {:induction false} HopKept(dir: Dir, gone: set<string>, name: string, hops: nat)
    requires forall g: nat :: g <= hops ==> Hop(dir, name, g) !in gone
    ensures Hop(dir - gone, name, hops) == Hop(dir, name, hops)
    decreases hops
  {
    assert Hop(dir, name, 0) == name;
    if hops > 0 && name in dir && dir[name].Link? {
      forall g: nat | g <= hops - 1 ensures Hop(dir, dir[name].to, g) !in gone {
        assert Hop(dir, name, g + 1) == Hop(dir, dir[name].to, g);
      }
      HopKept(dir, gone, dir[name].to, hops - 1);
    }
  }

  /** With keys apart, removing other keys does not make a key dangle. */
  lemma KeyKept(dir: Dir, gone: set<string>, name: string)
    requires KeysApart(dir) && KeyLink(dir, name) && Alive(dir, name) && name !in gone
    requires forall other :: other in gone ==> KeyLink(dir, other)
    ensures Alive(dir - gone, name)
  {
    var hops: nat :| Hop(dir, name, hops) in dir && dir[Hop(dir, name, hops)].Real?;
    forall g: nat | g <= hops ensures Hop(dir, name, g) !in gone {
      assert KeyLink(dir, Hop(dir, name, g)) ==> Hop(dir, name, g) == name;
    }
    HopKept(dir, gone, name, hops);
    assert Hop(dir - gone, name, hops) in dir - gone;
  }

  /** The states a call goes through, also one that stops at an error: after each prefix of the removals. */
  ghost predicate NeverDangles(dir: Dir, listing: seq<string>) {
    forall k :: 0 <= k <= |Removals(dir, listing)| ==> Intact(After(dir, Removals(dir, listing)[..k]))
  }

  lemma SafeListing(dir: Dir, listing: seq<string>)
    requires Lists(listing, dir) && Intact(dir) && KeysApart(dir)
    ensures NeverDangles(dir, listing)
  {
    var keys, all := Picked(dir, listing, true), Removals(dir, listing);
    forall k, name | 0 <= k <= |all| && KeyLink(After(dir, all[..k]), name)
      ensures Alive(After(dir, all[..k]), name)
    {
      var gone := set other | other in all[..k];
      PickedMembers(dir, listing, true, name);
      assert name in keys && name !in gone;
      assert forall i :: 0 <= i < k ==> all[i] in all[..k];
      var i :| 0 <= i < |keys| && keys[i] == name;
      assert all[i] == name && name !in all[..k];
      assert k <= i;
      assert all[..k] == keys[..k];
      forall other | other in gone ensures KeyLink(dir, other) {
        PickedMembers(dir, listing, true, other);
      }
      KeyKept(dir, gone, name);
    }
  }

  /** A key that is reached through another one dangles as soon as that one is gone. */
  lemma Severed(dir: Dir, name: string, hops: nat)
    requires KeyLink(dir, name) && KeyLink(dir, Hop(dir, name, hops)) && Hop(dir, name, hops) != name
    ensures !Alive(dir - {Hop(dir, name, hops)}, name)
  {
    forall g: nat ensures
      var less := dir - {Hop(dir, name, hops)};
      Hop(less, name, g) in less ==> less[Hop(less, name, g)].Link?
    {
      SeveredAt(dir, name, hops, g);
    }
  }

  lemma {:induction false} SeveredAt(dir: Dir, name: string, hops: nat, g: nat)
    requires KeyLink(dir, Hop(dir, name, hops))
    ensures
      var less := dir - {Hop(dir, name, hops)};
      Hop(less, name, g) in less ==> less[Hop(less, name, g)].Link?
    decreases g
  {
    var cut := Hop(dir, name, hops);
    if name in dir && dir[name].Link? && name != cut && g > 0 {
      assert hops > 0;
      SeveredAt(dir, dir[name].to, hops - 1, g - 1);
    }
  }

  /** A listing that starts with a given entry. */
  lemma ListingFrom(dir: Dir, first: string) returns (listing: seq<string>)
    requires first in dir
    ensures Lists(listing, dir) && listing != [] && listing[0] == first
  {
    var rest := SomeOrder(dir.Keys - {first});
    listing := [first] + rest;
    assert forall j :: 0 < j < |listing| ==> listing[j] == rest[j - 1];
    assert forall j :: 0 < j < |listing| ==> listing[j] in dir.Keys - {first};
  }

  lemma {:induction false} SomeOrder(names: set<string>) returns (order: seq<string>)
    ensures forall name :: name in order <==> name in names
    ensures forall i, j :: 0 <= i < j < |order| ==> order[i] != order[j]
  {
    if names == {} {
      order := [];
    } else {
      var name :| name in names;
      var rest := SomeOrder(names - {name});
      order := rest + [name];
    }
  }

  lemma {:induction false} PickedFirst(dir: Dir, listing: seq<string>)
    requires listing != [] && KeyLink(dir, listing[0])
    ensures Picked(dir, listing, true) != [] && Picked(dir, listing, true)[0] == listing[0]
  {
    var n := |listing| - 1;
    if n > 0 {
      PickedFirst(dir, listing[..n]);
    }
  }

  /**
   * In a directory whose keys all lead somewhere, no order of its listing lets a key dangle on the way,
   * exactly when no key is reached through another key.
   */
  lemma NeverDanglesExactly(dir: Dir)
    requires Intact(dir)
    ensures (forall listing :: Lists(listing, dir) ==> NeverDangles(dir, listing)) <==> KeysApart(dir)
  {
    if KeysApart(dir) {
      forall listing | Lists(listing, dir) ensures NeverDangles(dir, listing) {
        SafeListing(dir, listing);
      }
    } else {
      var name, hops: nat :| KeyLink(dir, name) && KeyLink(dir, Hop(dir, name, hops)) && Hop(dir, name, hops) != name;
      hide Lists, NeverDangles;
      var listing := UnsafeListing(dir, name, hops);
    }
  }

  /** The order that removes first the key on another key's way. */
  lemma UnsafeListing(dir: Dir, name: string, hops: nat) returns (listing: seq<string>)
    requires KeyLink(dir, name) && KeyLink(dir, Hop(dir, name, hops)) && Hop(dir, name, hops) != name
    ensures Lists(listing, dir) && !NeverDangles(dir, listing)
  {
    hide Alive, Picked, Hop, Lists;
    var cut := Hop(dir, name, hops);
    listing := ListingFrom(dir, cut);
    PickedFirst(dir, listing);
    assert Removals(dir, listing)[..1] == [cut];
    Severed(dir, name, hops);
    assert After(dir, [cut]) == dir - {cut};
    assert KeyLink(After(dir, [cut]), name);
    assert !Intact(After(dir, Removals(dir, listing)[..1]));
  }

  /** What an atomic writer leaves: keys lead to "..data", which leads to a directory; everything else is a ".." entry. */
  ghost predicate WriterLayout(dir: Dir) {
    && (forall name :: KeyLink(dir, name) ==> dir[name].to == "..data")
    && ((exists name :: KeyLink(dir, name)) ==>
      "..data" in dir && dir["..data"].Link? && dir["..data"].to in dir && dir[dir["..data"].to].Real?)
  }

  /** So a pod never sees a dangling key while its volume is being emptied. */
  lemma WriterLayoutSafe(dir: Dir, listing: seq<string>)
    requires WriterLayout(dir) && Lists(listing, dir)
    ensures NeverDangles(dir, listing)
  {
    forall name | KeyLink(dir, name) ensures Alive(dir, name) {
      assert Hop(dir, name, 2) == Hop(dir, "..data", 1) == Hop(dir, dir["..data"].to, 0);
    }
    forall name, hops: nat | KeyLink(dir, name) ensures !KeyLink(dir, Hop(dir, name, hops)) || Hop(dir, name, hops) == name {
      WriterHop(dir, name, hops);
    }
    SafeListing(dir, listing);
  }

  /** Where following a key leads in that layout. */
  lemma WriterHop(dir: Dir, name: string, hops: nat)
    requires WriterLayout(dir) && KeyLink(dir, name)
    ensures Hop(dir, name, hops) == if hops == 0 then name else if hops == 1 then "..data" else dir["..data"].to
  {
    if hops > 0 {
      assert Hop(dir, name, hops) == Hop(dir, "..data", hops - 1);
      if hops > 1 {
        assert Hop(dir, "..data", hops - 1) == Hop(dir, dir["..data"].to, hops - 2);
      }
    }
  }
}
