/** pkg/cache/common.go: how an event is sent through the callbacks registered in a sync.Map. */
module Rangers {
  /** The visits of a Range over a sync.Map: distinct keys, all but the last answered true, all keys unless one answered false. */
  ghost predicate Ranged(keys: set<string>, f: string -> bool, visited: seq<string>) {
    && (forall i :: 0 <= i < |visited| ==> visited[i] in keys)
    && (forall i, j :: 0 <= i < j < |visited| ==> visited[i] != visited[j])
    && (forall i :: 0 <= i < |visited| - 1 ==> f(visited[i]))
    && ((forall k :: k in keys ==> k in visited) || (visited != [] && !f(visited[|visited| - 1])))
  }

  /** sync.Map.Range: the keys in an arbitrary order, until a call returns false. */
  method Range(keys: set<string>, f: string -> bool) returns (visited: seq<string>)
    ensures Ranged(keys, f, visited)
  {
    visited := [];
    var todo := keys;
    while todo != {}
      invariant todo <= keys
      invariant forall k :: k in keys <==> k in todo || k in visited
      invariant forall i :: 0 <= i < |visited| ==> visited[i] in keys && visited[i] !in todo && f(visited[i])
      invariant forall i, j :: 0 <= i < j < |visited| ==> visited[i] != visited[j]
    {
      var k :| k in todo;
      visited := visited + [k];
      todo := todo - {k};
      if !f(k) {
        return;
      }
    }
  }

  /**
   * callbacks.Range(buildRanger(buildCallbackMap(key, ...))): each callback is called for the event's key
   * exactly once, whatever it and the callbacks before it return.
   */
  method CallEach(callbacks: set<string>, key: string, result: (string, string) -> bool) returns (calls: seq<string>)
    ensures multiset(calls) == multiset(callbacks)
  {
    calls := [];
    var todo := callbacks;
    while todo != {}
      invariant todo <= callbacks
      invariant multiset(calls) == multiset(callbacks - todo)
    {
      var id :| id in todo;
      var entry := {key};
      var visited := Range(entry, k => result(id, k));
      OneEntry(key, k => result(id, k), visited);
      assert callbacks - (todo - {id}) == (callbacks - todo) + {id};
      calls := calls + seq(|visited|, _ => id);
      todo := todo - {id};
    }
    assert callbacks - todo == callbacks;
  }

  /** A map with one entry is visited once, whatever the call returns. */
  lemma OneEntry(key: string, f: string -> bool, visited: seq<string>)
    requires Ranged({key}, f, visited)
    ensures visited == [key]
  {
    assert key in {key};
    assert visited != [] && visited[0] == key;
    assert forall i :: 0 <= i < |visited| ==> visited[i] == visited[0];
  }
}
