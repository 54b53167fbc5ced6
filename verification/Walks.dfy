/** Ranging over a map visits each key once, in an order the language leaves open. */
module Walks {
  ghost predicate Enumerates(walk: seq<int>, keys: set<int>) {
    && (forall i, j :: 0 <= i < j < |walk| ==> walk[i] != walk[j])
    && (forall k :: k in walk <==> k in keys)
  }

  lemma {:induction false} HasElement(keys: set<int>)
    ensures keys == {} || exists k: int :: k in keys
  {
    if !exists k: int :: k in keys {
      assert keys == {};
    }
  }

  lemma {:induction false} WalkElement(walk: seq<int>, keys: set<int>, j: nat)
    requires Enumerates(walk, keys) && j < |walk|
    ensures walk[j] in keys
  {
    var k := walk[j];
    assert k in walk;
  }

  lemma {:induction false} EmptyWalk(walk: seq<int>)
    ensures Enumerates(walk, {}) ==> walk == []
  {
    if walk != [] {
      assert walk[0] in walk;
    }
  }

  ghost method AnyWalk(keys: set<int>) returns (walk: seq<int>)
    ensures Enumerates(walk, keys)
  {
    walk := [];
    var rest := keys;
    while rest != {}
      invariant rest <= keys && Enumerates(walk, keys - rest)
    {
      HasElement(rest);
      var k :| k in rest;
      rest := rest - {k};
      walk := walk + [k];
    }
  }
}
