/** Sequence pipelines used by the source (`Array.prototype.filter`,
    counting with `filter(...).length`) and the facts about them that the
    rest of the model relies on. */
module Seqs {

  /** `s.filter(keep)`: the elements satisfying `keep`, in their original order. */
  function Filter<T>(s: seq<T>, keep: T -> bool): (r: seq<T>)
    ensures |r| <= |s|
    decreases |s|
  {
    if s == [] then []
    else if keep(s[0]) then [s[0]] + Filter(s[1..], keep)
    else Filter(s[1..], keep)
  }

  /** Each element of the filtered sequence is a kept element of the input. */
  lemma {:induction false} FilterElement<T>(s: seq<T>, keep: T -> bool, i: nat) returns (j: nat)
    requires i < |Filter(s, keep)|
    ensures j < |s| && Filter(s, keep)[i] == s[j] && keep(s[j])
    decreases |s|
  {
    if keep(s[0]) && i == 0 {
      j := 0;
    } else {
      var j' := FilterElement(s[1..], keep, if keep(s[0]) then i - 1 else i);
      j := j' + 1;
    }
  }

  /** Each kept element of the input is in the filtered sequence. */
  lemma {:induction false} FilterKeeps<T>(s: seq<T>, keep: T -> bool, j: nat)
    requires j < |s| && keep(s[j])
    ensures s[j] in Filter(s, keep)
    decreases |s|
  {
    if j > 0 {
      FilterKeeps(s[1..], keep, j - 1);
    }
  }

  /** What the filtered sequence holds is a kept element of the input. */
  lemma FilterMember<T>(s: seq<T>, keep: T -> bool, x: T)
    requires x in Filter(s, keep)
    ensures x in s && keep(x)
  {
    var i :| 0 <= i < |Filter(s, keep)| && Filter(s, keep)[i] == x;
    var j := FilterElement(s, keep, i);
  }

  /** Filtering keeps the relative order: the survivors sit at strictly
      increasing positions of the input. */
  lemma {:induction false} FilterSubsequence<T>(s: seq<T>, keep: T -> bool) returns (idx: seq<nat>)
    ensures |idx| == |Filter(s, keep)|
    ensures forall i :: 0 <= i < |idx| ==> idx[i] < |s| && Filter(s, keep)[i] == s[idx[i]]
    ensures forall i, j :: 0 <= i < j < |idx| ==> idx[i] < idx[j]
    decreases |s|
  {
    if s == [] {
      idx := [];
    } else {
      var rest := FilterSubsequence(s[1..], keep);
      var tail := Filter(s[1..], keep);
      var shifted := seq(|rest|, i requires 0 <= i < |rest| => rest[i] + 1);
      forall i | 0 <= i < |shifted|
        ensures shifted[i] < |s| && tail[i] == s[shifted[i]]
      {
        assert s[1..][rest[i]] == s[rest[i] + 1];
      }
      if keep(s[0]) {
        idx := [0] + shifted;
        assert Filter(s, keep) == [s[0]] + tail;
      } else {
        idx := shifted;
        assert Filter(s, keep) == tail;
      }
    }
  }

  /** `s.filter(keep).length`. */
  function Count<T>(s: seq<T>, keep: T -> bool): nat {
    |Filter(s, keep)|
  }

  /** Filtering drops nothing exactly when every element is kept. */
  lemma {:induction false} FilterFull<T>(s: seq<T>, keep: T -> bool)
    requires |Filter(s, keep)| == |s|
    ensures Filter(s, keep) == s
    ensures forall x :: x in s ==> keep(x)
    decreases |s|
  {
    if s != [] {
      if keep(s[0]) {
        FilterFull(s[1..], keep);
      }
    }
  }

  /** Counting is monotone in the predicate. */
  lemma {:induction false} CountMonotone<T>(s: seq<T>, p: T -> bool, q: T -> bool)
    requires forall x :: x in s && p(x) ==> q(x)
    ensures Count(s, p) <= Count(s, q)
    decreases |s|
  {
    if s != [] {
      CountMonotone(s[1..], p, q);
    }
  }

  /** Elements satisfying pairwise-exclusive predicates are counted at most once in all. */
  lemma {:induction false} CountDisjoint3<T>(s: seq<T>, p: T -> bool, q: T -> bool, r: T -> bool)
    requires forall x :: x in s ==> !(p(x) && q(x)) && !(p(x) && r(x)) && !(q(x) && r(x))
    ensures Count(s, p) + Count(s, q) + Count(s, r) <= |s|
    decreases |s|
  {
    if s != [] {
      CountDisjoint3(s[1..], p, q, r);
    }
  }

  /** Filtering preserves relative order: what survives from a prefix comes
      before what survives from the rest. */
  lemma {:induction false} FilterAppend<T>(a: seq<T>, b: seq<T>, keep: T -> bool)
    ensures Filter(a + b, keep) == Filter(a, keep) + Filter(b, keep)
    decreases |a|
  {
    if a != [] {
      assert (a + b)[1..] == a[1..] + b;
      FilterAppend(a[1..], b, keep);
    } else {
      assert a + b == b;
    }
  }

  /** Filtering keeps everything when every element is kept. */
  lemma {:induction false} FilterAll<T>(s: seq<T>, keep: T -> bool)
    requires forall x :: x in s ==> keep(x)
    ensures Filter(s, keep) == s
    decreases |s|
  {
    if s != [] {
      FilterAll(s[1..], keep);
    }
  }

  /** Filtering keeps nothing when no element is kept. */
  lemma {:induction false} FilterNone<T>(s: seq<T>, keep: T -> bool)
    requires forall x :: x in s ==> !keep(x)
    ensures Filter(s, keep) == []
    decreases |s|
  {
    if s != [] {
      FilterNone(s[1..], keep);
    }
  }

  /** Filtering first by a weaker predicate does not change a count by a
      stronger one. */
  lemma {:induction false} CountAfterFilter<T>(s: seq<T>, p: T -> bool, q: T -> bool)
    requires forall x :: x in s && q(x) ==> p(x)
    ensures Count(Filter(s, p), q) == Count(s, q)
    decreases |s|
  {
    if s != [] {
      CountAfterFilter(s[1..], p, q);
      if p(s[0]) {
        assert ([s[0]] + Filter(s[1..], p))[1..] == Filter(s[1..], p);
      }
    }
  }

  /** Appending one element adds one to the count exactly when it is kept. */
  lemma CountSnoc<T>(s: seq<T>, x: T, keep: T -> bool)
    ensures Count(s + [x], keep) == Count(s, keep) + (if keep(x) then 1 else 0)
  {
    FilterAppend(s, [x], keep);
    assert [x][1..] == [];
  }

  /** Concatenation is associative. */
  lemma AppendAssoc<T>(a: seq<T>, b: seq<T>, c: seq<T>)
    ensures (a + b) + c == a + (b + c)
  {
  }
}
