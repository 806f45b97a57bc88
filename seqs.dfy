/** Sequence helpers shared by the scene graph and the pools. */
module Seqs {

  /** No element occurs twice. */
  predicate NoDup<T(==)>(s: seq<T>) {
    forall i, j :: 0 <= i < j < |s| ==> s[i] != s[j]
  }

  /** `List<T>.Remove(x)`: drops the first occurrence of `x`, if any. */
  function RemoveFirst<T(==)>(s: seq<T>, x: T): (r: seq<T>)
    ensures x !in s ==> r == s
    ensures x in s ==> |r| == |s| - 1
    ensures forall y :: y in r ==> y in s
  {
    if s == [] then []
    else if s[0] == x then s[1..]
    else
      assert s == [s[0]] + s[1..];
      [s[0]] + RemoveFirst(s[1..], x)
  }

  /** A last-to-first sweep step: removing the last element of a duplicate-free prefix leaves the shorter prefix. */
  lemma CutLast<T>(s: seq<T>, i: nat)
    requires i < |s| && NoDup(s)
    ensures RemoveFirst(s[..i + 1], s[i]) == s[..i]
    ensures s[i] !in s[i + 1..] && s[i..][1..] == s[i + 1..]
  {
    var t := s[..i + 1];
    assert t[i] == s[i];
    RemoveFirstFirst(t, i);
    assert t[..i] == s[..i] && t[i + 1..] == [];
  }

  /** Removing the element just appended, when it was not there before, undoes the append. */
  lemma {:induction false} RemoveFirstSnoc<T>(s: seq<T>, x: T)
    requires x !in s
    ensures RemoveFirst(s + [x], x) == s
  {
    if s != [] {
      assert (s + [x])[1..] == s[1..] + [x];
      RemoveFirstSnoc(s[1..], x);
      assert [s[0]] + s[1..] == s;
    }
  }

  /** Removing an element that occurs first at the end of `a` (followed by `b`) leaves the rest in order. */
  lemma RemoveFirstSplit<T>(a: seq<T>, x: T, b: seq<T>)
    requires x !in a
    ensures RemoveFirst(a + [x] + b, x) == a + b
  {
    var s := a + [x] + b;
    assert s[|a|] == x;
    forall j | 0 <= j < |a| ensures s[j] != x {
      assert s[j] == a[j];
    }
    RemoveFirstFirst(s, |a|);
    assert s[..|a|] == a && s[|a| + 1..] == b;
  }

  /** Removing `s[i]` when it does not occur earlier cuts out exactly position `i`. */
  lemma {:induction false} RemoveFirstFirst<T>(s: seq<T>, i: nat)
    requires i < |s| && forall j :: 0 <= j < i ==> s[j] != s[i]
    ensures RemoveFirst(s, s[i]) == s[..i] + s[i + 1..]
  {
    if i > 0 {
      var t := s[1..];
      assert s[0] != s[i] && t[i - 1] == s[i];
      forall j | 0 <= j < i - 1 ensures t[j] != t[i - 1] {
        assert t[j] == s[j + 1];
      }
      RemoveFirstFirst(t, i - 1);
      assert [s[0]] + (t[..i - 1] + t[i..]) == s[..i] + s[i + 1..];
    }
  }

  /** A prefix one element longer. */
  lemma PrefixSnoc<T>(s: seq<T>, i: nat)
    requires i < |s|
    ensures s[..i + 1] == s[..i] + [s[i]]
  {
  }

  lemma AppendAssoc<T>(a: seq<T>, b: seq<T>, c: seq<T>)
    ensures a + b + c == a + (b + c)
  {
  }

  lemma NoDupTail<T>(s: seq<T>)
    requires NoDup(s) && s != []
    ensures NoDup(s[1..])
  {
    forall a, b | 0 <= a < b < |s| - 1 ensures s[1..][a] != s[1..][b] {
      assert s[1..][a] == s[a + 1] && s[1..][b] == s[b + 1];
    }
  }

  lemma NoDupPrefix<T>(s: seq<T>, n: nat)
    requires NoDup(s) && n <= |s|
    ensures NoDup(s[..n])
  {
  }

  lemma NoDupAppend<T>(s: seq<T>, x: T)
    requires NoDup(s) && x !in s
    ensures NoDup(s + [x])
  {
  }

  lemma NoDupRemove<T>(s: seq<T>, x: T)
    requires NoDup(s)
    ensures NoDup(RemoveFirst(s, x))
    ensures x !in RemoveFirst(s, x)
    ensures forall y :: y in RemoveFirst(s, x) <==> y in s && y != x
  {
    if s != [] {
      NoDupTail(s);
      assert s == [s[0]] + s[1..];
      if s[0] != x {
        NoDupRemove(s[1..], x);
        var r := RemoveFirst(s[1..], x);
        assert RemoveFirst(s, x) == [s[0]] + r;
        assert s[0] !in r;
        forall a, b | 0 <= a < b < |r| + 1 ensures ([s[0]] + r)[a] != ([s[0]] + r)[b] {
          if a > 0 { assert ([s[0]] + r)[a] == r[a - 1]; }
        }
      }
    }
  }

  /** No queue of `qs` holds `x`. */
  ghost predicate Unqueued<K, T>(qs: map<K, seq<T>>, x: T) {
    forall k, i :: k in qs && 0 <= i < |qs[k]| ==> qs[k][i] != x
  }

  /** Every element of the queues `qs` sits at one place of one queue only. */
  ghost predicate QueuedOnce<K, T>(qs: map<K, seq<T>>) {
    forall k, i, l, j :: k in qs && l in qs && 0 <= i < |qs[k]| && 0 <= j < |qs[l]| && qs[k][i] == qs[l][j] ==> k == l && i == j
  }

  /** Taking the head of one queue keeps every element at one place, and leaves the head in no queue. */
  lemma DequeueOnce<K, T>(qs: map<K, seq<T>>, k: K)
    requires QueuedOnce(qs) && k in qs && qs[k] != []
    ensures QueuedOnce(qs[k := qs[k][1..]]) && Unqueued(qs[k := qs[k][1..]], qs[k][0])
  {
    var r := qs[k := qs[k][1..]];
    forall l, i | l in r && 0 <= i < |r[l]|
      ensures r[l][i] == qs[l][if l == k then i + 1 else i]
    {
    }
  }

  /** Adding an element that is in no queue at the tail of one keeps every element at one place. */
  lemma EnqueueOnce<K, T>(qs: map<K, seq<T>>, k: K, x: T)
    requires QueuedOnce(qs) && Unqueued(qs, x) && k in qs
    ensures QueuedOnce(qs[k := qs[k] + [x]])
  {
    var r := qs[k := qs[k] + [x]];
    forall l, i | l in r && 0 <= i < |r[l]|
      ensures (l == k && i == |qs[k]| && r[l][i] == x) || (i < |qs[l]| && r[l][i] == qs[l][i])
    {
    }
  }

  /** Replacing one queue by a duplicate-free one that shares no element with the other queues keeps every element at one place. */
  lemma ReplaceOnce<K, T>(qs: map<K, seq<T>>, k: K, q: seq<T>)
    requires QueuedOnce(qs) && NoDup(q)
    requires forall l, i :: l in qs && l != k && 0 <= i < |qs[l]| ==> qs[l][i] !in q
    ensures QueuedOnce(qs[k := q])
  {
    var r := qs[k := q];
    forall l, i | l in r && 0 <= i < |r[l]|
      ensures (l == k && r[l][i] == q[i]) || (l != k && r[l][i] == qs[l][i] && r[l][i] !in q)
    {
    }
  }
}
