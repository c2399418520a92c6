/** Generic sequence operations that the pipeline's comprehensions and loops are specified by. */
module Seqs {
  import opened Wrappers

  /** Python's `s[:n]` for any integer `n`: a negative `n` drops the last `-n` elements. */
  function SliceTo<T>(s: seq<T>, n: int): (r: seq<T>)
    ensures r <= s
    ensures 0 <= n ==> |r| == (if n <= |s| then n else |s|)
    ensures n < 0 ==> |r| == (if -n <= |s| then |s| + n else 0)
  {
    if 0 <= n then (if n <= |s| then s[..n] else s)
    else if -n <= |s| then s[..|s| + n]
    else []
  }

  /** The elements of `s` that satisfy `p`, in order (a list comprehension with an `if`). */
  function Keep<T>(s: seq<T>, p: T -> bool): (r: seq<T>)
    ensures |r| <= |s|
    ensures forall x :: x in r ==> x in s && p(x)
  {
    if s == [] then [] else (if p(s[0]) then [s[0]] else []) + Keep(s[1..], p)
  }

  /** `[f(x) for x in s]`. */
  function Map<A, B>(s: seq<A>, f: A -> B): (r: seq<B>)
    ensures |r| == |s|
    ensures forall i :: 0 <= i < |s| ==> r[i] == f(s[i])
  {
    seq(|s|, i requires 0 <= i < |s| => f(s[i]))
  }

  /** Keeping the elements whose image passes, then mapping, is mapping, then keeping. */
  lemma {:induction false} KeepMap<A, B>(s: seq<A>, f: A -> B, q: A -> bool, p: B -> bool)
    requires forall x :: q(x) == p(f(x))
    ensures Map(Keep(s, q), f) == Keep(Map(s, f), p)
  {
    if s != [] {
      KeepMap(s[1..], f, q, p);
      var head := if q(s[0]) then [s[0]] else [];
      var tail := Keep(s[1..], q);
      assert Keep(s, q) == head + tail;
      MapConcat(head, tail, f);
      assert Map(head, f) == if p(f(s[0])) then [f(s[0])] else [];
      var m := Map(s, f);
      assert m[1..] == Map(s[1..], f);
      assert Keep(m, p) == (if p(m[0]) then [m[0]] else []) + Keep(m[1..], p);
    }
  }

  lemma MapConcat<A, B>(a: seq<A>, b: seq<A>, f: A -> B)
    ensures Map(a + b, f) == Map(a, f) + Map(b, f)
  {
    assert forall i :: 0 <= i < |a| ==> (a + b)[i] == a[i];
    assert forall i :: |a| <= i < |a| + |b| ==> (a + b)[i] == b[i - |a|];
  }

  /** The values of the `Some` entries of `s`, in order. */
  function Somes<T>(s: seq<Option<T>>): (r: seq<T>)
    ensures |r| <= |s|
    ensures forall x :: x in r ==> Some(x) in s
  {
    if s == [] then [] else (if s[0].Some? then [s[0].value] else []) + Somes(s[1..])
  }

  /** The concatenation of the sequences in `ss`, in order. */
  function Concat<T>(ss: seq<seq<T>>): (r: seq<T>)
    ensures forall x :: x in r ==> exists i :: 0 <= i < |ss| && x in ss[i]
  {
    if ss == [] then [] else ss[0] + Concat(ss[1..])
  }

  /** `a` can be obtained from `b` by deleting elements: `a` keeps `b`'s order. */
  ghost predicate IsSubseq<T>(a: seq<T>, b: seq<T>)
    decreases |b|
  {
    if a == [] then true
    else if b == [] then false
    else (a[0] == b[0] && IsSubseq(a[1..], b[1..])) || IsSubseq(a, b[1..])
  }

  lemma {:induction false} KeepMembership<T>(s: seq<T>, p: T -> bool, x: T)
    ensures x in Keep(s, p) <==> x in s && p(x)
  {
    if s != [] {
      KeepMembership(s[1..], p, x);
    }
  }

  lemma {:induction false} KeepIsSubseq<T>(s: seq<T>, p: T -> bool)
    ensures IsSubseq(Keep(s, p), s)
  {
    if s != [] {
      KeepIsSubseq(s[1..], p);
      if p(s[0]) {
        assert Keep(s, p)[0] == s[0] && Keep(s, p)[1..] == Keep(s[1..], p);
      } else {
        assert Keep(s, p) == Keep(s[1..], p);
      }
    }
  }

  lemma {:induction false} KeepIdempotent<T>(s: seq<T>, p: T -> bool)
    ensures Keep(Keep(s, p), p) == Keep(s, p)
  {
    if s != [] {
      KeepIdempotent(s[1..], p);
      var k := Keep(s, p);
      if p(s[0]) {
        assert k == [s[0]] + Keep(s[1..], p);
        assert k[0] == s[0] && k[1..] == Keep(s[1..], p);
        assert Keep(k, p) == [s[0]] + Keep(k[1..], p);
      } else {
        assert k == Keep(s[1..], p);
      }
    }
  }

  lemma {:induction false} KeepNone<T>(s: seq<T>, p: T -> bool)
    requires forall i :: 0 <= i < |s| ==> !p(s[i])
    ensures Keep(s, p) == []
  {
    if s != [] {
      KeepNone(s[1..], p);
    }
  }

  lemma {:induction false} KeepAll<T>(s: seq<T>, p: T -> bool)
    requires forall i :: 0 <= i < |s| ==> p(s[i])
    ensures Keep(s, p) == s
  {
    if s != [] {
      KeepAll(s[1..], p);
    }
  }

  lemma {:induction false} KeepConcat<T>(a: seq<T>, b: seq<T>, p: T -> bool)
    ensures Keep(a + b, p) == Keep(a, p) + Keep(b, p)
  {
    if a == [] {
      assert a + b == b;
    } else {
      assert (a + b)[1..] == a[1..] + b;
      KeepConcat(a[1..], b, p);
    }
  }

  /** A `Keep` of a sequence with one element more. */
  lemma KeepSnoc<T>(s: seq<T>, x: T, p: T -> bool)
    ensures Keep(s + [x], p) == Keep(s, p) + (if p(x) then [x] else [])
  {
    KeepConcat(s, [x], p);
  }

  lemma {:induction false} SomesMembership<T>(s: seq<Option<T>>, x: T)
    ensures x in Somes(s) <==> Some(x) in s
  {
    if s != [] {
      SomesMembership(s[1..], x);
    }
  }

  lemma {:induction false} SomesConcat<T>(a: seq<Option<T>>, b: seq<Option<T>>)
    ensures Somes(a + b) == Somes(a) + Somes(b)
  {
    if a == [] {
      assert a + b == b;
    } else {
      assert (a + b)[0] == a[0];
      assert (a + b)[1..] == a[1..] + b;
      SomesConcat(a[1..], b);
      var h := if a[0].Some? then [a[0].value] else [];
      assert Somes(a + b) == h + Somes(a[1..] + b);
      assert Somes(a) == h + Somes(a[1..]);
    }
  }

  lemma SomesSnoc<T>(s: seq<Option<T>>, x: Option<T>)
    ensures Somes(s + [x]) == Somes(s) + (if x.Some? then [x.value] else [])
  {
    SomesConcat(s, [x]);
  }

  /** `Somes` drops exactly the `None` entries: its length is the number of `Some` entries. */
  lemma {:induction false} SomesAllSome<T>(s: seq<Option<T>>)
    requires forall i :: 0 <= i < |s| ==> s[i].Some?
    ensures |Somes(s)| == |s|
    ensures forall i :: 0 <= i < |s| ==> Somes(s)[i] == s[i].value
  {
    if s != [] {
      SomesAllSome(s[1..]);
    }
  }

  lemma {:induction false} ConcatAppend<T>(a: seq<seq<T>>, b: seq<seq<T>>)
    ensures Concat(a + b) == Concat(a) + Concat(b)
  {
    if a == [] {
      assert a + b == b;
    } else {
      assert (a + b)[1..] == a[1..] + b;
      ConcatAppend(a[1..], b);
    }
  }

  lemma ConcatSnoc<T>(a: seq<seq<T>>, x: seq<T>)
    ensures Concat(a + [x]) == Concat(a) + x
  {
    ConcatAppend(a, [x]);
    assert Concat([x]) == x + Concat([]);
  }

  /** A one-element sequence is kept whole when its element satisfies the predicate. */
  lemma KeepSingle<T>(x: T, p: T -> bool)
    requires p(x)
    ensures Keep([x], p) == [x]
  {
    assert [x][1..] == [];
  }

  /** Extending a prefix by one element: the next element is appended. */
  lemma PrefixSnoc<T>(s: seq<T>, i: nat)
    requires i < |s|
    ensures s[..i + 1] == s[..i] + [s[i]]
  {
    assert forall k :: 0 <= k < i + 1 ==> s[..i + 1][k] == (s[..i] + [s[i]])[k];
  }

  /** The values of a one-element sequence of options. */
  lemma SomesSingle<T>(x: Option<T>)
    ensures Somes([x]) == if x.Some? then [x.value] else []
  {
    assert [x][1..] == [];
  }

  /** A one-element sequence is the display of its element. */
  lemma SingletonDisplay<T>(s: seq<T>)
    requires |s| == 1
    ensures s == [s[0]]
  {
  }

  /** The concatenation of a non-empty sequence starts with its first element. */
  lemma ConcatCons<T>(ss: seq<seq<T>>)
    requires ss != []
    ensures Concat(ss) == ss[0] + Concat(ss[1..])
  {
  }
}
