/** Sequence helpers shared by the model: map, filter, flatten, subsequence and first-occurrence dedup.
    The recursive definitions peel off the LAST element, so that a loop that pushes to the end of a
    list can keep "result == F(input[..i])" as its invariant. */
module Seqs {
  import opened Wrappers

  /** `xs.map(f)`. */
  function Map<A, B>(f: A -> B, s: seq<A>): (r: seq<B>)
    ensures |r| == |s|
    ensures forall i :: 0 <= i < |s| ==> r[i] == f(s[i])
  {
    seq(|s|, i requires 0 <= i < |s| => f(s[i]))
  }

  /** `xs.filter(p)`: the elements satisfying p, in order. */
  function Filter<T(==,!new)>(p: T -> bool, s: seq<T>): (r: seq<T>)
    ensures |r| <= |s|
    ensures forall x :: x in r <==> x in s && p(x)
  {
    if s == [] then []
    else
      var front := Filter(p, s[..|s| - 1]);
      assert forall x :: x in s <==> x in s[..|s| - 1] || x == s[|s| - 1];
      if p(s[|s| - 1]) then front + [s[|s| - 1]] else front
  }

  lemma FilterAppend<T(!new)>(p: T -> bool, s: seq<T>, x: T)
    ensures Filter(p, s + [x]) == Filter(p, s) + (if p(x) then [x] else [])
  {
    assert (s + [x])[..|s|] == s;
  }

  /** `xs.findIndex(p)`, with `None` for -1: the first index whose element satisfies p. */
  function FindIndex<T>(s: seq<T>, p: T -> bool): (r: Option<nat>)
    ensures r.Some? ==> r.value < |s| && p(s[r.value]) && forall j :: 0 <= j < r.value ==> !p(s[j])
    ensures r.None? ==> forall j :: 0 <= j < |s| ==> !p(s[j])
  {
    if s == [] then None
    else if p(s[0]) then Some(0)
    else match FindIndex(s[1..], p)
      case None => None
      case Some(i) => Some(i + 1)
  }

  /** Concatenation of a list of lists, in order (`push(...xs)` for each xs). */
  function Flatten<T>(ss: seq<seq<T>>): (r: seq<T>)
  {
    if ss == [] then [] else Flatten(ss[..|ss| - 1]) + ss[|ss| - 1]
  }

  lemma FlattenAppend<T>(ss: seq<seq<T>>, s: seq<T>)
    ensures Flatten(ss + [s]) == Flatten(ss) + s
  {
    assert (ss + [s])[..|ss|] == ss;
  }

  lemma {:induction false} FlattenMembers<T>(ss: seq<seq<T>>, x: T)
    ensures x in Flatten(ss) <==> exists i :: 0 <= i < |ss| && x in ss[i]
  {
    if ss != [] {
      var front := ss[..|ss| - 1];
      FlattenMembers(front, x);
      assert forall i :: 0 <= i < |front| ==> front[i] == ss[i];
      if x in ss[|ss| - 1] {
        assert x in Flatten(ss);
      }
    }
  }

  /** a is an ordered subsequence of b (a can be obtained from b by deleting elements). */
  predicate IsSubsequence<T(==)>(a: seq<T>, b: seq<T>)
    decreases |b|
  {
    if a == [] then true
    else if b == [] then false
    else if a[|a| - 1] == b[|b| - 1] then IsSubsequence(a[..|a| - 1], b[..|b| - 1])
    else IsSubsequence(a, b[..|b| - 1])
  }

  lemma {:induction false} SubsequenceExtend<T>(a: seq<T>, b: seq<T>, x: T)
    requires IsSubsequence(a, b)
    ensures IsSubsequence(a, b + [x])
    ensures IsSubsequence(a + [x], b + [x])
    decreases |b|, 1
  {
    assert (b + [x])[..|b|] == b;
    assert (a + [x])[..|a|] == a;
    if a != [] && a[|a| - 1] == x {
      SubsequenceDropLast(a, b);
    }
  }

  lemma {:induction false} SubsequenceDropLast<T>(a: seq<T>, b: seq<T>)
    requires a != [] && IsSubsequence(a, b)
    ensures IsSubsequence(a[..|a| - 1], b)
    decreases |b|, 0
  {
    var b', y := b[..|b| - 1], b[|b| - 1];
    assert b' + [y] == b;
    if a[|a| - 1] == y {
      SubsequenceExtend(a[..|a| - 1], b', y);
    } else {
      SubsequenceDropLast(a, b');
      SubsequenceExtend(a[..|a| - 1], b', y);
    }
  }

  lemma {:induction false} SubsequenceLength<T>(a: seq<T>, b: seq<T>)
    requires IsSubsequence(a, b)
    ensures |a| <= |b|
    ensures forall x :: x in a ==> x in b
    decreases |b|
  {
    if a != [] && b != [] {
      if a[|a| - 1] == b[|b| - 1] {
        SubsequenceLength(a[..|a| - 1], b[..|b| - 1]);
        assert forall x :: x in a ==> x in a[..|a| - 1] || x == a[|a| - 1];
      } else {
        SubsequenceLength(a, b[..|b| - 1]);
      }
    }
  }

  lemma {:induction false} FilterIsSubsequence<T(!new)>(p: T -> bool, s: seq<T>)
    ensures IsSubsequence(Filter(p, s), s)
  {
    if s != [] {
      var front := s[..|s| - 1];
      FilterIsSubsequence(p, front);
      SubsequenceExtend(Filter(p, front), front, s[|s| - 1]);
      assert front + [s[|s| - 1]] == s;
    }
  }

  /** No element occurs twice. */
  predicate NoDuplicates<T(==)>(s: seq<T>) {
    forall i, j :: 0 <= i < j < |s| ==> s[i] != s[j]
  }

  /** The distinct elements of s, each at its first occurrence. */
  function Distinct<T(==,!new)>(s: seq<T>): (r: seq<T>)
    ensures NoDuplicates(r)
    ensures forall x :: x in r <==> x in s
    ensures |r| <= |s|
  {
    if s == [] then []
    else
      var front := Distinct(s[..|s| - 1]);
      assert forall x :: x in s <==> x in s[..|s| - 1] || x == s[|s| - 1];
      if s[|s| - 1] in front then front else front + [s[|s| - 1]]
  }

  lemma NoDuplicatesCons<T>(x: T, s: seq<T>)
    ensures NoDuplicates([x] + s) <==> x !in s && NoDuplicates(s)
  {
    var t := [x] + s;
    assert forall i :: 0 <= i < |s| ==> t[i + 1] == s[i];
    if x !in s && NoDuplicates(s) {
      forall i, j | 0 <= i < j < |t| ensures t[i] != t[j] {
        if i > 0 { assert t[i] == s[i - 1] && t[j] == s[j - 1]; }
        else { assert t[j] in s; }
      }
    }
    if NoDuplicates(t) {
      forall i, j | 0 <= i < j < |s| ensures s[i] != s[j] {
        assert t[i + 1] != t[j + 1];
      }
      forall j | 0 <= j < |s| ensures s[j] != x {
        assert t[0] != t[j + 1];
      }
    }
  }

  lemma NoDuplicatesSnoc<T>(s: seq<T>, x: T)
    requires NoDuplicates(s) && x !in s
    ensures NoDuplicates(s + [x])
  {
    var t := s + [x];
    forall i, j | 0 <= i < j < |t| ensures t[i] != t[j] {
      if j == |s| { assert t[i] == s[i]; } else { assert t[i] == s[i] && t[j] == s[j]; }
    }
  }

  /** An ordered subsequence of a list without duplicates has none either. */
  lemma {:induction false} SubsequenceNoDuplicates<T>(a: seq<T>, b: seq<T>)
    requires IsSubsequence(a, b) && NoDuplicates(b)
    ensures NoDuplicates(a)
    decreases |b|
  {
    if a != [] && b != [] {
      var b' := b[..|b| - 1];
      assert forall i, j :: 0 <= i < j < |b'| ==> b'[i] == b[i] && b'[j] == b[j];
      if a[|a| - 1] == b[|b| - 1] {
        var a' := a[..|a| - 1];
        SubsequenceNoDuplicates(a', b');
        SubsequenceLength(a', b');
        assert b[|b| - 1] !in b' by {
          forall i | 0 <= i < |b'| ensures b'[i] != b[|b| - 1] { assert b'[i] == b[i]; }
        }
        NoDuplicatesSnoc(a', a[|a| - 1]);
        assert a' + [a[|a| - 1]] == a;
      } else {
        SubsequenceNoDuplicates(a, b');
      }
    }
  }

  /** In a list without duplicates every element occurs exactly once. */
  lemma {:induction false} NoDuplicatesCount<T>(s: seq<T>, x: T)
    requires NoDuplicates(s)
    ensures multiset(s)[x] == if x in s then 1 else 0
  {
    if s != [] {
      var front := s[..|s| - 1];
      assert s == front + [s[|s| - 1]];
      assert NoDuplicates(front);
      NoDuplicatesCount(front, x);
    }
  }

  /** Two lists without duplicates and with the same members are permutations of each other. */
  lemma SameMembersPermutation<T>(a: seq<T>, b: seq<T>)
    requires NoDuplicates(a) && NoDuplicates(b)
    requires forall x :: x in a <==> x in b
    ensures multiset(a) == multiset(b)
  {
    forall x ensures multiset(a)[x] == multiset(b)[x] {
      NoDuplicatesCount(a, x);
      NoDuplicatesCount(b, x);
    }
  }

  /** The set of ids of the elements of s. */
  function IdSet<T>(id: T -> string, s: seq<T>): set<string>
  {
    set i | 0 <= i < |s| :: id(s[i])
  }

  lemma IdSetAppend<T>(id: T -> string, s: seq<T>, x: T)
    ensures IdSet(id, s + [x]) == IdSet(id, s) + {id(x)}
  {
    var t := s + [x];
    forall w | w in IdSet(id, t) ensures w in IdSet(id, s) + {id(x)} {
      var i :| 0 <= i < |t| && id(t[i]) == w;
      if i < |s| { assert id(s[i]) == w; }
    }
    forall w | w in IdSet(id, s) ensures w in IdSet(id, t) {
      var i :| 0 <= i < |s| && id(s[i]) == w;
      assert id(t[i]) == w;
    }
    assert id(t[|s|]) == id(x);
  }

  /** Every element has a non-empty id and no two elements share an id. */
  predicate UniqueIds<T>(id: T -> string, s: seq<T>)
  {
    && (forall i :: 0 <= i < |s| ==> id(s[i]) != "")
    && (forall i, j :: 0 <= i < j < |s| ==> id(s[i]) != id(s[j]))
  }

  /** The loop of the source that pushes an item only when its id is truthy and not yet in the
      seen-set: the first item with each non-empty id, in input order. */
  function KeepFirst<T>(id: T -> string, s: seq<T>): seq<T>
  {
    if s == [] then []
    else
      var front := KeepFirst(id, s[..|s| - 1]);
      var x := s[|s| - 1];
      if id(x) != "" && id(x) !in IdSet(id, front) then front + [x] else front
  }

  lemma KeepFirstAppend<T>(id: T -> string, s: seq<T>, x: T)
    ensures KeepFirst(id, s + [x])
         == var front := KeepFirst(id, s);
            if id(x) != "" && id(x) !in IdSet(id, front) then front + [x] else front
  {
    assert (s + [x])[..|s|] == s;
  }

  /** The first element of s whose id is v, if any. */
  function FirstWithId<T>(id: T -> string, s: seq<T>, v: string): Option<T>
  {
    if s == [] then None
    else if id(s[0]) == v then Some(s[0])
    else FirstWithId(id, s[1..], v)
  }

  lemma {:induction false} FirstWithIdAppend<T>(id: T -> string, s: seq<T>, x: T, v: string)
    ensures FirstWithId(id, s + [x], v)
         == if FirstWithId(id, s, v).Some? then FirstWithId(id, s, v)
            else if id(x) == v then Some(x) else None
  {
    if s != [] {
      assert (s + [x])[1..] == s[1..] + [x];
      FirstWithIdAppend(id, s[1..], x, v);
    }
  }

  lemma {:induction false} FirstWithIdNone<T>(id: T -> string, s: seq<T>, v: string)
    ensures FirstWithId(id, s, v).None? <==> v !in IdSet(id, s)
  {
    if s != [] {
      FirstWithIdNone(id, s[1..], v);
      assert forall i :: 0 < i < |s| ==> s[i] == s[1..][i - 1];
      assert IdSet(id, s) == {id(s[0])} + IdSet(id, s[1..]) by {
        forall w | w in IdSet(id, s) ensures w in {id(s[0])} + IdSet(id, s[1..]) {
          var i :| 0 <= i < |s| && id(s[i]) == w;
          if i > 0 { assert id(s[1..][i - 1]) == w; }
        }
        forall w | w in IdSet(id, s[1..]) ensures w in IdSet(id, s) {
          var i :| 0 <= i < |s[1..]| && id(s[1..][i]) == w;
          assert id(s[i + 1]) == w;
        }
      }
    }
  }

  lemma {:induction false} KeepFirstIds<T>(id: T -> string, s: seq<T>)
    ensures UniqueIds(id, KeepFirst(id, s))
    ensures IdSet(id, KeepFirst(id, s)) == IdSet(id, s) - {""}
  {
    if s != [] {
      var front := s[..|s| - 1];
      var x := s[|s| - 1];
      assert front + [x] == s;
      KeepFirstIds(id, front);
      var kf := KeepFirst(id, front);
      KeepFirstAppend(id, front, x);
      IdSetAppend(id, front, x);
      if id(x) != "" && id(x) !in IdSet(id, kf) {
        IdSetAppend(id, kf, x);
        var r := kf + [x];
        forall i | 0 <= i < |kf| ensures id(r[i]) != id(x) {
          assert id(kf[i]) in IdSet(id, kf);
        }
      }
    }
  }

  lemma {:induction false} KeepFirstSubsequence<T>(id: T -> string, s: seq<T>)
    ensures IsSubsequence(KeepFirst(id, s), s)
  {
    if s != [] {
      var front := s[..|s| - 1];
      var x := s[|s| - 1];
      assert front + [x] == s;
      KeepFirstSubsequence(id, front);
      KeepFirstAppend(id, front, x);
      SubsequenceExtend(KeepFirst(id, front), front, x);
    }
  }

  lemma {:induction false} KeepFirstFirst<T>(id: T -> string, s: seq<T>)
    ensures forall k :: 0 <= k < |KeepFirst(id, s)| ==>
              FirstWithId(id, s, id(KeepFirst(id, s)[k])) == Some(KeepFirst(id, s)[k])
  {
    if s != [] {
      var front := s[..|s| - 1];
      var x := s[|s| - 1];
      assert front + [x] == s;
      KeepFirstFirst(id, front);
      KeepFirstIds(id, front);
      var kf := KeepFirst(id, front);
      var r := KeepFirst(id, s);
      KeepFirstAppend(id, front, x);
      forall k | 0 <= k < |r|
        ensures FirstWithId(id, s, id(r[k])) == Some(r[k])
      {
        FirstWithIdAppend(id, front, x, id(r[k]));
        if k < |kf| {
          assert r[k] == kf[k];
        } else {
          FirstWithIdNone(id, front, id(x));
        }
      }
    }
  }

  /** What the dedup loop guarantees: ids are unique and non-empty, every non-empty id of the input
      survives, the result keeps input order, and each kept item is the FIRST with its id. */
  lemma KeepFirstProperties<T>(id: T -> string, s: seq<T>)
    ensures UniqueIds(id, KeepFirst(id, s))
    ensures IdSet(id, KeepFirst(id, s)) == IdSet(id, s) - {""}
    ensures IsSubsequence(KeepFirst(id, s), s)
    ensures forall k :: 0 <= k < |KeepFirst(id, s)| ==>
              FirstWithId(id, s, id(KeepFirst(id, s)[k])) == Some(KeepFirst(id, s)[k])
  {
    KeepFirstIds(id, s);
    KeepFirstSubsequence(id, s);
    KeepFirstFirst(id, s);
  }
}
