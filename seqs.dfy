/** Sequence combinators used as the models of Python slices and list comprehensions. */
module Seqs {
  import opened Wrappers

  /** Python's `s[:n]`: the first `n` elements, or all of them when fewer. */
  function Take<T>(s: seq<T>, n: nat): (r: seq<T>)
    ensures |r| == if |s| <= n then |s| else n
    ensures forall i :: 0 <= i < |r| ==> r[i] == s[i]
  {
    if |s| <= n then s else s[..n]
  }

  /** `[x for x in s if keep(x)]`, defined element by element from the back so that it matches a loop that appends. */
  function Filter<T>(s: seq<T>, keep: T -> bool): (r: seq<T>)
    ensures |r| <= |s|
    ensures forall k :: 0 <= k < |r| ==> keep(r[k])
    decreases |s|
  {
    if s == [] then []
    else Filter(s[..|s| - 1], keep) + (if keep(s[|s| - 1]) then [s[|s| - 1]] else [])
  }

  /** A filter every element passes keeps the whole sequence. */
  lemma {:induction false} FilterKeepsAll<T>(s: seq<T>, keep: T -> bool)
    requires forall k :: 0 <= k < |s| ==> keep(s[k])
    ensures Filter(s, keep) == s
    decreases |s|
  {
    if s != [] {
      var n := |s| - 1;
      var init := s[..n];
      assert forall k :: 0 <= k < n ==> init[k] == s[k];
      FilterKeepsAll(init, keep);
      assert s == init + [s[n]];
    }
  }

  /** A filter no element passes keeps nothing. */
  lemma {:induction false} FilterDropsAll<T>(s: seq<T>, keep: T -> bool)
    requires forall k :: 0 <= k < |s| ==> !keep(s[k])
    ensures Filter(s, keep) == []
    decreases |s|
  {
    if s != [] {
      var n := |s| - 1;
      var init := s[..n];
      assert forall k :: 0 <= k < n ==> init[k] == s[k];
      FilterDropsAll(init, keep);
    }
  }

  lemma ConcatAssoc<T>(a: seq<T>, b: seq<T>, c: seq<T>)
    ensures a + (b + c) == (a + b) + c
  {
  }

  /** The multiset of a sequence splits at any index. */
  lemma SplitMultiset<T>(s: seq<T>, n: nat)
    requires n <= |s|
    ensures multiset(s) == multiset(s[..n]) + multiset(s[n..])
  {
    assert s == s[..n] + s[n..];
  }

  /** A one-element sequence is kept or dropped whole. */
  lemma FilterSingle<T>(x: T, keep: T -> bool)
    ensures Filter([x], keep) == if keep(x) then [x] else []
  {
    assert [x][..0] == [];
  }

  /** Filtering an element put in front of a sequence. */
  lemma FilterCons<T>(x: T, s: seq<T>, keep: T -> bool)
    ensures Filter([x] + s, keep) == (if keep(x) then [x] else []) + Filter(s, keep)
  {
    FilterConcat([x], s, keep);
    FilterSingle(x, keep);
  }

  /** Filtering a concatenation filters each part. */
  lemma {:induction false} FilterConcat<T>(a: seq<T>, b: seq<T>, keep: T -> bool)
    ensures Filter(a + b, keep) == Filter(a, keep) + Filter(b, keep)
    decreases |b|
  {
    if b == [] {
      assert a + b == a;
    } else {
      var b' := b[..|b| - 1];
      assert (a + b)[..|a + b| - 1] == a + b';
      assert (a + b)[|a + b| - 1] == b[|b| - 1];
      FilterConcat(a, b', keep);
    }
  }

  /** Every element of `s` that passes `keep` is in the filtered sequence, and nothing else is. */
  lemma {:induction false} FilterMembers<T>(s: seq<T>, keep: T -> bool, x: T)
    ensures x in Filter(s, keep) <==> x in s && keep(x)
    decreases |s|
  {
    if s != [] {
      FilterMembers(s[..|s| - 1], keep, x);
      assert s == s[..|s| - 1] + [s[|s| - 1]];
    }
  }

  /** Keeps the present results of `f` over `s`, in order: one loop that appends zero or one item per element. */
  function FilterMap<A, B>(s: seq<A>, f: A -> Option<B>): (r: seq<B>)
    ensures |r| <= |s|
    decreases |s|
  {
    if s == [] then []
    else FilterMap(s[..|s| - 1], f) + OptionToSeq(f(s[|s| - 1]))
  }

  /** FilterMap is a homomorphism from concatenation: each element contributes its own items, in element order. */
  lemma {:induction false} FilterMapConcat<A, B>(a: seq<A>, b: seq<A>, f: A -> Option<B>)
    ensures FilterMap(a + b, f) == FilterMap(a, f) + FilterMap(b, f)
    decreases |b|
  {
    if b == [] {
      assert a + b == a;
    } else {
      var b' := b[..|b| - 1];
      assert (a + b)[..|a + b| - 1] == a + b';
      assert (a + b)[|a + b| - 1] == b[|b| - 1];
      FilterMapConcat(a, b', f);
    }
  }

  /** The prefix one longer than `k` extends the prefix of length `k` by `s[k]`. */
  /** The results of a filter-map are exactly the present results of `f` on the elements. */
  lemma {:induction false} FilterMapMembers<A, B>(s: seq<A>, f: A -> Option<B>, y: B)
    ensures y in FilterMap(s, f) <==> exists k :: 0 <= k < |s| && f(s[k]) == Some(y)
    decreases |s|
  {
    if s != [] {
      var n := |s| - 1;
      var init := s[..n];
      FilterMapMembers(init, f, y);
      assert FilterMap(s, f) == FilterMap(init, f) + OptionToSeq(f(s[n]));
      if y in FilterMap(s, f) {
        if y in FilterMap(init, f) {
          var k :| 0 <= k < n && f(init[k]) == Some(y);
          assert s[k] == init[k];
        } else {
          assert f(s[n]) == Some(y);
        }
      }
      if exists k :: 0 <= k < |s| && f(s[k]) == Some(y) {
        var k :| 0 <= k < |s| && f(s[k]) == Some(y);
        if k < n {
          assert init[k] == s[k];
        }
      }
    }
  }

  lemma PrefixStep<T>(s: seq<T>, k: nat)
    requires k < |s|
    ensures s[..k + 1][..k] == s[..k]
    ensures s[..k + 1] == s[..k] + [s[k]]
  {
  }

  /** Dropping the last element of `a + b`, for a non-empty `b`, drops the last element of `b`. */
  lemma ConcatInit<T>(a: seq<T>, b: seq<T>)
    requires b != []
    ensures (a + b)[..|a + b| - 1] == a + b[..|b| - 1]
    ensures (a + b)[|a + b| - 1] == b[|b| - 1]
  {
  }

  /** A sequence is its elements before `d`, the one at `d` and those after. */
  lemma SplitAt<T>(s: seq<T>, d: nat)
    requires d < |s|
    ensures s == s[..d] + [s[d]] + s[d + 1..]
  {
  }

  lemma PrefixWhole<T>(s: seq<T>)
    ensures s[..|s|] == s
  {
  }

  /** One more element appends that element's item, if any. */
  lemma FilterMapStep<A, B>(s: seq<A>, k: nat, f: A -> Option<B>)
    requires k < |s|
    ensures FilterMap(s[..k + 1], f) == FilterMap(s[..k], f) + OptionToSeq(f(s[k]))
  {
    PrefixStep(s, k);
  }

  /** One more element appends that element, if it passes. */
  lemma FilterStep<T>(s: seq<T>, k: nat, keep: T -> bool)
    requires k < |s|
    ensures Filter(s[..k + 1], keep) == Filter(s[..k], keep) + (if keep(s[k]) then [s[k]] else [])
  {
    PrefixStep(s, k);
  }

  /** Exactly one of three conditions holds. */
  predicate ExactlyOne(a: bool, b: bool, c: bool) {
    if a then !b && !c else b != c
  }

  /** The multiset of a filter grows by the last element exactly when that element is kept. */
  lemma FilterSnocMultiset<T>(s: seq<T>, keep: T -> bool)
    requires s != []
    ensures multiset(Filter(s, keep)) ==
      multiset(Filter(s[..|s| - 1], keep)) + (if keep(s[|s| - 1]) then multiset{s[|s| - 1]} else multiset{})
  {
    var init := Filter(s[..|s| - 1], keep);
    var x := s[|s| - 1];
    if keep(x) {
      assert Filter(s, keep) == init + [x];
    } else {
      assert Filter(s, keep) == init;
    }
  }

  /** The multiset of a non-empty sequence is that of its prefix plus its last element. */
  lemma SnocMultiset<T>(s: seq<T>)
    requires s != []
    ensures multiset(s) == multiset(s[..|s| - 1]) + multiset{s[|s| - 1]}
  {
    assert s == s[..|s| - 1] + [s[|s| - 1]];
  }

  /** Counting step of a three-way split: an element that joins exactly one run joins the union once. */
  lemma CountsStep<T>(a: multiset<T>, b: multiset<T>, c: multiset<T>, x: T, ka: bool, kb: bool, kc: bool)
    requires ExactlyOne(ka, kb, kc)
    ensures (a + (if ka then multiset{x} else multiset{})) + (b + (if kb then multiset{x} else multiset{}))
          + (c + (if kc then multiset{x} else multiset{})) == a + b + c + multiset{x}
  {
  }

  /** Three runs whose conditions pick out exactly one run per element hold each element once between them. */
  lemma {:induction false} PartitionCounts<T>(s: seq<T>, p: T -> bool, q: T -> bool, r: T -> bool)
    requires forall k :: 0 <= k < |s| ==> ExactlyOne(p(s[k]), q(s[k]), r(s[k]))
    ensures multiset(Filter(s, p)) + multiset(Filter(s, q)) + multiset(Filter(s, r)) == multiset(s)
    decreases |s|
  {
    if s != [] {
      var n := |s| - 1;
      var init := s[..n];
      var x := s[n];
      assert forall k :: 0 <= k < n ==> init[k] == s[k];
      PartitionCounts(init, p, q, r);
      FilterSnocMultiset(s, p);
      FilterSnocMultiset(s, q);
      FilterSnocMultiset(s, r);
      CountsStep(multiset(Filter(init, p)), multiset(Filter(init, q)), multiset(Filter(init, r)), x, p(x), q(x), r(x));
      SnocMultiset(s);
    }
  }

  /** Splitting a sequence into three runs by conditions that pick out exactly one run per element rearranges it. */
  lemma PartitionPermutation<T>(s: seq<T>, p: T -> bool, q: T -> bool, r: T -> bool)
    requires forall k :: 0 <= k < |s| ==> ExactlyOne(p(s[k]), q(s[k]), r(s[k]))
    ensures multiset(Filter(s, p) + Filter(s, q) + Filter(s, r)) == multiset(s)
  {
    PartitionCounts(s, p, q, r);
  }

  lemma SnocPrefix<T>(s: seq<T>, x: T)
    ensures (s + [x])[..|s|] == s && (s + [x])[|s|] == x
  {
  }

  /**
   * A flag read along `xs`: it starts off, an element passing `on` sets it, one
   * passing `off` (and not `on`) clears it, and any other element leaves it.
   */
  function Latch<T>(xs: seq<T>, on: T -> bool, off: T -> bool): bool
    decreases |xs|
  {
    if xs == [] then false
    else
      var x := xs[|xs| - 1];
      if on(x) then true else if off(x) then false else Latch(xs[..|xs| - 1], on, off)
  }

  /** An element that neither sets nor clears the flag. */
  predicate Idle<T>(x: T, on: T -> bool, off: T -> bool) {
    !on(x) && !off(x)
  }

  /** Some element set the flag and every element after it leaves the flag alone. */
  ghost predicate SwitchedOnLast<T>(xs: seq<T>, on: T -> bool, off: T -> bool) {
    exists j :: 0 <= j < |xs| && on(xs[j]) && forall m :: j < m < |xs| ==> Idle(xs[m], on, off)
  }

  /** The flag is set at the end exactly when the last element that touched it set it. */
  lemma {:induction false} LatchIsLastSwitch<T>(xs: seq<T>, on: T -> bool, off: T -> bool)
    ensures Latch(xs, on, off) <==> SwitchedOnLast(xs, on, off)
    decreases |xs|
  {
    if xs != [] {
      var n := |xs| - 1;
      var init := xs[..n];
      var x := xs[n];
      LatchIsLastSwitch(init, on, off);
      assert Latch(xs, on, off) == if on(x) then true else if off(x) then false else Latch(init, on, off);
      if on(x) {
        assert SwitchedOnLast(xs, on, off);
      } else if off(x) {
        forall j | 0 <= j < |xs| && on(xs[j])
          ensures !Idle(xs[n], on, off) && j < n
        {
        }
      } else {
        assert forall i :: 0 <= i < n ==> init[i] == xs[i];
        if SwitchedOnLast(init, on, off) {
          var j :| 0 <= j < |init| && on(init[j]) && forall m :: j < m < |init| ==> Idle(init[m], on, off);
          assert on(xs[j]);
          assert forall m :: j < m < |xs| ==> Idle(xs[m], on, off);
        }
        if SwitchedOnLast(xs, on, off) {
          var j :| 0 <= j < |xs| && on(xs[j]) && forall m :: j < m < |xs| ==> Idle(xs[m], on, off);
          assert j < n;
          assert on(init[j]);
          assert forall m :: j < m < |init| ==> Idle(init[m], on, off);
        }
      }
    }
  }

  /** One more element moves the flag by that element. */
  lemma LatchStep<T>(xs: seq<T>, k: nat, on: T -> bool, off: T -> bool)
    requires k < |xs|
    ensures Latch(xs[..k + 1], on, off) ==
      if on(xs[k]) then true else if off(xs[k]) then false else Latch(xs[..k], on, off)
  {
    PrefixStep(xs, k);
  }
}
