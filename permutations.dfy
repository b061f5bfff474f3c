/** A step shared by the proofs that a total does not depend on the order of
    what it totals: the last element of a sequence can be matched with some
    element of any permutation of it, and the rest are then permutations too. */
module Permutations {

  lemma MatchLast<T>(s: seq<T>, t: seq<T>) returns (j: nat)
    requires multiset(s) == multiset(t) && s != []
    ensures j < |t| && t[j] == s[|s| - 1]
    ensures t == t[..j] + [t[j]] + t[j + 1..]
    ensures multiset(s[..|s| - 1]) == multiset(t[..j] + t[j + 1..])
  {
    var n := |s| - 1;
    var x := s[n];
    assert s == s[..n] + [x];
    assert x in multiset(t);
    j :| 0 <= j < |t| && t[j] == x;
    assert t == t[..j] + [x] + t[j + 1..];
    var rest := t[..j] + t[j + 1..];
    var m1, m2 := multiset(s[..n]), multiset(rest);
    assert multiset(s) == m1 + multiset{x};
    assert multiset(t) == multiset(t[..j]) + multiset{x} + multiset(t[j + 1..]);
    assert m2 == multiset(t[..j]) + multiset(t[j + 1..]);
    forall y ensures m1[y] == m2[y] {
      assert (m1 + multiset{x})[y] == (m2 + multiset{x})[y];
    }
  }

  /** The values `m` holds for the keys `o`, in the order of `o`. */
  function Lookup<K, V>(o: seq<K>, m: map<K, V>): (r: seq<V>)
    requires forall i :: 0 <= i < |o| ==> o[i] in m
    ensures |r| == |o|
    ensures forall i :: 0 <= i < |o| ==> r[i] == m[o[i]]
  {
    if o == [] then [] else Lookup(o[..|o| - 1], m) + [m[o[|o| - 1]]]
  }

  lemma {:induction false} LookupAppend<K, V>(u: seq<K>, v: seq<K>, m: map<K, V>)
    requires forall i :: 0 <= i < |u| ==> u[i] in m
    requires forall i :: 0 <= i < |v| ==> v[i] in m
    ensures forall i :: 0 <= i < |u + v| ==> (u + v)[i] in m
    ensures Lookup(u + v, m) == Lookup(u, m) + Lookup(v, m)
  {
    var w := u + v;
    assert forall i :: 0 <= i < |w| ==> w[i] in m by {
      forall i | 0 <= i < |w| ensures w[i] in m {
        if i < |u| { assert w[i] == u[i]; } else { assert w[i] == v[i - |u|]; }
      }
    }
    var l, r := Lookup(w, m), Lookup(u, m) + Lookup(v, m);
    forall i | 0 <= i < |w| ensures l[i] == r[i] {
      if i < |u| { assert w[i] == u[i]; } else { assert w[i] == v[i - |u|]; }
    }
  }

  lemma {:induction false} LookupSplit<K, V>(u: seq<K>, x: K, v: seq<K>, m: map<K, V>)
    requires forall i :: 0 <= i < |u + [x] + v| ==> (u + [x] + v)[i] in m
    ensures x in m
    ensures forall i :: 0 <= i < |u| ==> u[i] in m
    ensures forall i :: 0 <= i < |v| ==> v[i] in m
    ensures forall i :: 0 <= i < |u + v| ==> (u + v)[i] in m
    ensures Lookup(u + [x] + v, m) == Lookup(u, m) + [m[x]] + Lookup(v, m)
    ensures Lookup(u + v, m) == Lookup(u, m) + Lookup(v, m)
  {
    var w := u + [x] + v;
    assert forall i :: 0 <= i < |u| ==> u[i] == w[i];
    assert forall i :: 0 <= i < |v| ==> v[i] == w[|u| + 1 + i];
    assert x == w[|u|];
    assert Lookup([x], m) == [m[x]];
    LookupAppend(u, [x], m);
    LookupAppend(u + [x], v, m);
    LookupAppend(u, v, m);
  }

  /** A permutation of keys held by `m` holds only keys of `m`. */
  lemma KeysPermutation<K, V>(o1: seq<K>, o2: seq<K>, m: map<K, V>)
    requires multiset(o1) == multiset(o2)
    requires forall i :: 0 <= i < |o1| ==> o1[i] in m
    ensures forall i :: 0 <= i < |o2| ==> o2[i] in m
  {
    forall i | 0 <= i < |o2| ensures o2[i] in m {
      assert o2[i] in multiset(o1);
      var k :| 0 <= k < |o1| && o1[k] == o2[i];
    }
  }

  lemma MultisetInsert<V>(a: seq<V>, e: V, lu: seq<V>, lv: seq<V>)
    requires multiset(a) == multiset(lu + lv)
    ensures multiset(a + [e]) == multiset(lu + [e] + lv)
  {
  }

  /** Looking up a permutation of the keys gives a permutation of the values. */
  lemma {:induction false} LookupPermutation<K, V>(o1: seq<K>, o2: seq<K>, m: map<K, V>)
    requires multiset(o1) == multiset(o2)
    requires forall i :: 0 <= i < |o1| ==> o1[i] in m
    ensures forall i :: 0 <= i < |o2| ==> o2[i] in m
    ensures multiset(Lookup(o1, m)) == multiset(Lookup(o2, m))
    decreases |o1|
  {
    KeysPermutation(o1, o2, m);
    if o1 == [] {
      assert |o2| == |multiset(o2)| == 0;
    } else {
      var n := |o1| - 1;
      var x := o1[n];
      var pre := o1[..n];
      assert forall i :: 0 <= i < |pre| ==> pre[i] == o1[i];
      var j := MatchLast(o1, o2);
      var u, v := o2[..j], o2[j + 1..];
      assert o2 == u + [x] + v;
      LookupSplit(u, x, v, m);
      LookupPermutation(pre, u + v, m);
      assert Lookup(o1, m) == Lookup(pre, m) + [m[x]];
      MultisetInsert(Lookup(pre, m), m[x], Lookup(u, m), Lookup(v, m));
    }
  }
}
