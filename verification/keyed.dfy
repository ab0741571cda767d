/**
 * Registries that the services keep in a JavaScript `Map` keyed by freshly
 * allocated, strictly increasing ids (`enemy_N`, `powerup_N`, physics body N).
 * A `Map` iterates in insertion order and no entry is ever re-inserted, so the
 * registry is modelled as a sequence whose keys strictly increase: sequence order
 * is insertion order, and removing an entry keeps the order of the rest.
 */
module Keyed {
  import opened Common

  ghost predicate Increasing<T>(s: seq<T>, key: T -> nat) {
    forall i, j :: 0 <= i < j < |s| ==> key(s[i]) < key(s[j])
  }

  function Keys<T(==)>(s: seq<T>, key: T -> nat): set<nat> {
    set x | x in s :: key(x)
  }

  /** `Map.get`: the entry stored under `id`, if any. */
  function Find<T(==,!new)>(s: seq<T>, key: T -> nat, id: nat): (r: Option<T>)
    ensures r.Some? ==> r.value in s && key(r.value) == id
    ensures r.None? <==> id !in Keys(s, key)
  {
    if s == [] then None
    else if key(s[0]) == id then Some(s[0])
    else
      var r := Find(s[1..], key, id);
      assert Keys(s, key) == {key(s[0])} + Keys(s[1..], key) by {
        assert forall x :: x in s <==> x == s[0] || x in s[1..];
      }
      r
  }

  /** With increasing keys an id names at most one entry, so `Find` returns exactly it. */
  lemma {:induction false} FindUnique<T(!new)>(s: seq<T>, key: T -> nat, x: T)
    requires Increasing(s, key) && x in s
    ensures Find(s, key, key(x)) == Some(x)
  {
    if s[0] != x {
      var k :| 0 <= k < |s| && s[k] == x;
      assert key(s[0]) < key(s[k]);
      assert s[1..][k - 1] == x;
      FindUnique(s[1..], key, x);
    }
  }

  /** With increasing keys no two entries share an id, so there are as many ids as entries. */
  lemma {:induction false} KeysCount<T(!new)>(s: seq<T>, key: T -> nat)
    requires Increasing(s, key)
    ensures |Keys(s, key)| == |s|
  {
    if s != [] {
      var rest := Keys(s[1..], key);
      KeysCount(s[1..], key);
      KeysCons(s, key);
      assert key(s[0]) !in rest by {
        forall x | x in s[1..] ensures key(x) != key(s[0]) {
          var k :| 0 <= k < |s| - 1 && s[1..][k] == x;
          assert s[k + 1] == x;
        }
      }
    }
  }

  /** The ids of a non-empty sequence: its first entry's and those of the rest. */
  lemma KeysCons<T>(s: seq<T>, key: T -> nat)
    requires s != []
    ensures Keys(s, key) == {key(s[0])} + Keys(s[1..], key)
  {
    assert forall x :: x in s <==> x == s[0] || x in s[1..];
  }

  /** `Map.delete(id)`: every other entry stays, in the same order. */
  function Without<T(==,!new)>(s: seq<T>, key: T -> nat, id: nat): (r: seq<T>)
    ensures forall x :: x in r <==> x in s && key(x) != id
    ensures |r| <= |s|
  {
    if s == [] then []
    else if key(s[0]) == id then Without(s[1..], key, id)
    else [s[0]] + Without(s[1..], key, id)
  }

  lemma {:induction false} WithoutKeys<T(!new)>(s: seq<T>, key: T -> nat, id: nat)
    ensures Keys(Without(s, key, id), key) == Keys(s, key) - {id}
    ensures id !in Keys(s, key) ==> Without(s, key, id) == s
  {
    if s != [] {
      WithoutKeys(s[1..], key, id);
      assert forall x :: x in s <==> x == s[0] || x in s[1..];
    }
  }

  /** Deleting an entry keeps the remaining ids in insertion order. */
  lemma {:induction false} WithoutIncreasing<T(!new)>(s: seq<T>, key: T -> nat, id: nat)
    requires Increasing(s, key)
    ensures Increasing(Without(s, key, id), key)
  {
    if s != [] {
      var rest := Without(s[1..], key, id);
      WithoutIncreasing(s[1..], key, id);
      if key(s[0]) != id {
        var r := [s[0]] + rest;
        forall j | 1 <= j < |r| ensures key(r[0]) < key(r[j]) {
          assert r[j] in rest;
          var k :| 0 <= k < |s| - 1 && s[1..][k] == r[j];
          assert s[k + 1] == r[j];
        }
      }
    }
  }

  /**
   * Writing back the entry `v` under its own id: the set of ids and the order are
   * unchanged, the entry under `key(v)` becomes `v` and every other entry is kept.
   */
  function Replace<T(==)>(s: seq<T>, key: T -> nat, v: T): (r: seq<T>)
    ensures |r| == |s|
    ensures forall i :: 0 <= i < |s| ==> key(r[i]) == key(s[i])
    ensures forall i :: 0 <= i < |s| && key(s[i]) != key(v) ==> r[i] == s[i]
    ensures forall i :: 0 <= i < |s| && key(s[i]) == key(v) ==> r[i] == v
    ensures Keys(r, key) == Keys(s, key)
    ensures Increasing(s, key) ==> Increasing(r, key)
  {
    var r := seq(|s|, i requires 0 <= i < |s| => if key(s[i]) == key(v) then v else s[i]);
    assert Keys(r, key) == Keys(s, key) by {
      forall n | n in Keys(s, key) ensures n in Keys(r, key) {
        var x :| x in s && key(x) == n;
        var i :| 0 <= i < |s| && s[i] == x;
        assert key(r[i]) == n;
      }
      forall n | n in Keys(r, key) ensures n in Keys(s, key) {
        var x :| x in r && key(x) == n;
        var i :| 0 <= i < |r| && r[i] == x;
        assert key(s[i]) == n;
      }
    }
    r
  }

  /** After `Replace`, looking up the written id yields `v`; other lookups are unchanged. */
  lemma {:induction false} FindAfterReplace<T(!new)>(s: seq<T>, key: T -> nat, v: T, id: nat)
    requires Increasing(s, key) && key(v) in Keys(s, key)
    ensures Find(Replace(s, key, v), key, id) == if id == key(v) then Some(v) else Find(s, key, id)
  {
    var r := Replace(s, key, v);
    var x :| x in s && key(x) == key(v);
    var k :| 0 <= k < |s| && s[k] == x;
    assert r[k] == v;
    if id == key(v) {
      FindUnique(r, key, v);
    } else {
      match Find(s, key, id)
      case None =>
        assert id !in Keys(r, key);
      case Some(y) =>
        var j :| 0 <= j < |s| && s[j] == y;
        assert r[j] == y;
        FindUnique(r, key, y);
    }
  }

  /** Appending an entry under an id not in use: it is found under that id, and every other lookup is as before. */
  lemma {:induction false} FindAppend<T(!new)>(s: seq<T>, key: T -> nat, v: T, id: nat)
    requires key(v) !in Keys(s, key)
    ensures Find(s + [v], key, id) == if id == key(v) then Some(v) else Find(s, key, id)
    decreases |s|
  {
    if s == [] {
      assert Find([v], key, id) == (if key(v) == id then Some(v) else Find([v][1..], key, id));
    } else {
      assert (s + [v])[1..] == s[1..] + [v];
      assert key(v) !in Keys(s[1..], key) by {
        forall x | x in s[1..] ensures x in s {
        }
      }
      FindAppend(s[1..], key, v, id);
    }
  }

  /** Registering a fresh entry whose id exceeds every stored id keeps the keys increasing. */
  lemma AppendFresh<T>(s: seq<T>, key: T -> nat, v: T)
    requires Increasing(s, key)
    requires forall x :: x in s ==> key(x) < key(v)
    ensures Increasing(s + [v], key)
    ensures Keys(s + [v], key) == Keys(s, key) + {key(v)}
  {
    var r := s + [v];
    forall i, j | 0 <= i < j < |r| ensures key(r[i]) < key(r[j]) {
      if j == |s| { assert r[i] in s; }
    }
    assert forall x :: x in r <==> x in s || x == v;
  }
}
