// Sequence combinators shared by the model: flattening, filtering and
// grouping by a string key, the counterparts of JavaScript's `flat`,
// `filter` and lodash's `groupBy`, each with the facts the rest of the
// model relies on.
module SeqUtil {
  import opened Wrappers

  /** `xss.flat()`: the inner sequences concatenated in order. */
  function Flatten<T>(xss: seq<seq<T>>): (r: seq<T>)
  {
    if xss == [] then [] else xss[0] + Flatten(xss[1..])
  }

  /** Appending two elements one at a time is appending the pair. */
  lemma AppendTwo<T>(s: seq<T>, a: T, b: T)
    ensures s + [a] + [b] == s + [a, b]
  {
  }

  /** Concatenations that agree, with equally long tails, agree part by part. */
  lemma AppendCancel<T>(a: seq<T>, x: seq<T>, b: seq<T>, y: seq<T>)
    requires a + x == b + y && |x| == |y|
    ensures a == b && x == y
  {
    assert a == (a + x)[..|a|];
    assert b == (b + y)[..|b|];
    assert x == (a + x)[|a|..];
    assert y == (b + y)[|b|..];
  }

  lemma {:induction false} FlattenAppend<T>(a: seq<seq<T>>, b: seq<seq<T>>)
    ensures Flatten(a + b) == Flatten(a) + Flatten(b)
  {
    if a == [] {
      assert a + b == b;
    } else {
      assert (a + b)[1..] == a[1..] + b;
      FlattenAppend(a[1..], b);
    }
  }

  lemma {:induction false} FlattenMember<T>(xss: seq<seq<T>>, x: T)
    ensures x in Flatten(xss) <==> exists i :: 0 <= i < |xss| && x in xss[i]
  {
    if xss != [] {
      FlattenMember(xss[1..], x);
      if x in Flatten(xss[1..]) {
        var i :| 0 <= i < |xss[1..]| && x in xss[1..][i];
        assert x in xss[i + 1];
      }
      if exists i :: 0 <= i < |xss| && x in xss[i] {
        var i :| 0 <= i < |xss| && x in xss[i];
        if i > 0 { assert x in xss[1..][i - 1]; }
      }
    }
  }

  /** `xs.filter(p)`: the elements satisfying p, in their original order. */
  function Filter<T>(xs: seq<T>, p: T -> bool): (r: seq<T>)
    ensures |r| <= |xs|
    ensures forall x :: x in r ==> x in xs && p(x)
  {
    if xs == [] then []
    else (if p(xs[0]) then [xs[0]] else []) + Filter(xs[1..], p)
  }

  lemma {:induction false} FilterAppend<T>(a: seq<T>, b: seq<T>, p: T -> bool)
    ensures Filter(a + b, p) == Filter(a, p) + Filter(b, p)
  {
    if a == [] {
      assert a + b == b;
    } else {
      assert (a + b)[1..] == a[1..] + b;
      FilterAppend(a[1..], b, p);
    }
  }

  lemma {:induction false} FilterMember<T>(xs: seq<T>, p: T -> bool, x: T)
    ensures x in Filter(xs, p) <==> x in xs && p(x)
  {
    if xs != [] {
      FilterMember(xs[1..], p, x);
      assert xs == [xs[0]] + xs[1..];
    }
  }

  lemma {:induction false} FilterKeepsAll<T>(xs: seq<T>, p: T -> bool)
    requires forall i :: 0 <= i < |xs| ==> p(xs[i])
    ensures Filter(xs, p) == xs
  {
    if xs != [] {
      FilterKeepsAll(xs[1..], p);
    }
  }

  /** Filtering out exactly the element at position k removes that position. */
  lemma {:induction false} FilterDropsOne<T>(xs: seq<T>, p: T -> bool, k: nat)
    requires k < |xs| && !p(xs[k])
    requires forall i :: 0 <= i < |xs| && i != k ==> p(xs[i])
    ensures Filter(xs, p) == xs[..k] + xs[k + 1..]
  {
    var tail := xs[1..];
    if k == 0 {
      forall i | 0 <= i < |tail| ensures p(tail[i]) {
        assert tail[i] == xs[i + 1];
      }
      FilterKeepsAll(tail, p);
    } else {
      forall i | 0 <= i < |tail| && i != k - 1 ensures p(tail[i]) {
        assert tail[i] == xs[i + 1];
      }
      FilterDropsOne(tail, p, k - 1);
      assert xs[..k] == [xs[0]] + tail[..k - 1];
      assert xs[k + 1..] == tail[k..];
    }
  }

  /** Moving an element from the end to the middle keeps the multiset. */
  lemma MultisetMoveLast<T>(a: seq<T>, b: seq<T>, x: T)
    ensures multiset(a + b + [x]) == multiset(a + [x] + b)
  {
    calc {
      multiset(a + b + [x]);
      multiset(a) + multiset(b) + multiset([x]);
      multiset(a) + multiset([x]) + multiset(b);
      multiset(a + [x] + b);
    }
  }

  /** `xs.map(f)`. */
  function Map<T, U>(xs: seq<T>, f: T -> U): (r: seq<U>)
    ensures |r| == |xs| && forall i :: 0 <= i < |xs| ==> r[i] == f(xs[i])
  {
    seq(|xs|, i requires 0 <= i < |xs| => f(xs[i]))
  }

  /** a is obtained from b by deleting elements: order is never changed. */
  predicate IsSubsequence<T(==)>(a: seq<T>, b: seq<T>)
  {
    if a == [] then true
    else if b == [] then false
    else (a[0] == b[0] && IsSubsequence(a[1..], b[1..])) || IsSubsequence(a, b[1..])
  }

  /** Every element of a subsequence is an element of the whole. */
  lemma {:induction false} SubsequenceMember<T>(a: seq<T>, b: seq<T>)
    requires IsSubsequence(a, b)
    ensures forall x :: x in a ==> x in b
  {
    if a != [] && b != [] {
      if a[0] == b[0] && IsSubsequence(a[1..], b[1..]) {
        SubsequenceMember(a[1..], b[1..]);
        assert a == [a[0]] + a[1..];
        assert b == [b[0]] + b[1..];
      } else {
        SubsequenceMember(a, b[1..]);
        assert b == [b[0]] + b[1..];
      }
    }
  }

  lemma {:induction false} FilterIsSubsequence<T>(xs: seq<T>, p: T -> bool)
    ensures IsSubsequence(Filter(xs, p), xs)
  {
    if xs != [] {
      FilterIsSubsequence(xs[1..], p);
      var rest := Filter(xs[1..], p);
      if p(xs[0]) {
        assert Filter(xs, p) == [xs[0]] + rest;
        assert ([xs[0]] + rest)[1..] == rest;
      } else {
        assert Filter(xs, p) == rest;
      }
    }
  }

  /**
   * The elements of xs whose key is k, in input order: the group lodash's
   * `groupBy` files under k.
   */
  function Group<T>(xs: seq<T>, key: T -> string, k: string): (r: seq<T>)
    ensures |r| <= |xs|
  {
    if xs == [] then []
    else Group(xs[..|xs| - 1], key, k) + (if key(xs[|xs| - 1]) == k then [xs[|xs| - 1]] else [])
  }

  /**
   * lodash `groupBy`: one pass over xs, appending each element to the array
   * stored under its key (creating the array on first use).
   */
  function GroupBy<T>(xs: seq<T>, key: T -> string): (m: map<string, seq<T>>)
  {
    if xs == [] then map[]
    else
      var m := GroupBy(xs[..|xs| - 1], key);
      var x := xs[|xs| - 1];
      var k := key(x);
      m[k := (if k in m then m[k] else []) + [x]]
  }

  /**
   * GroupBy files every element under exactly its own key, keeps arrival
   * order within each key, and creates a key only when some element has it.
   */
  lemma {:induction false} GroupByCharacterization<T>(xs: seq<T>, key: T -> string, k: string)
    ensures k in GroupBy(xs, key) <==> exists i :: 0 <= i < |xs| && key(xs[i]) == k
    ensures k in GroupBy(xs, key) ==> GroupBy(xs, key)[k] == Group(xs, key, k) && |Group(xs, key, k)| > 0
    ensures k !in GroupBy(xs, key) ==> Group(xs, key, k) == []
  {
    if xs != [] {
      var init := xs[..|xs| - 1];
      GroupByCharacterization(init, key, k);
      if exists i :: 0 <= i < |init| && key(init[i]) == k {
        var i :| 0 <= i < |init| && key(init[i]) == k;
        assert key(xs[i]) == k;
      }
      if exists i :: 0 <= i < |xs| && key(xs[i]) == k {
        var i :| 0 <= i < |xs| && key(xs[i]) == k;
        if i < |init| { assert key(init[i]) == k; }
      }
    }
  }

  /** Group commutes with concatenation. */
  lemma {:induction false} GroupAppend<T>(a: seq<T>, b: seq<T>, key: T -> string, k: string)
    ensures Group(a + b, key, k) == Group(a, key, k) + Group(b, key, k)
    decreases |b|
  {
    if b == [] {
      assert a + b == a;
    } else {
      var bi := b[..|b| - 1];
      assert (a + b)[..|a + b| - 1] == a + bi;
      assert (a + b)[|a + b| - 1] == b[|b| - 1];
      GroupAppend(a, bi, key, k);
    }
  }

  lemma {:induction false} GroupMember<T>(xs: seq<T>, key: T -> string, k: string, x: T)
    ensures x in Group(xs, key, k) <==> x in xs && key(x) == k
  {
    if xs != [] {
      var init := xs[..|xs| - 1];
      GroupMember(init, key, k, x);
      assert xs == init + [xs[|xs| - 1]];
    }
  }

  /** An element occurs in its own group as often as in the whole sequence, and in no other group. */
  lemma {:induction false} GroupCount<T>(xs: seq<T>, key: T -> string, k: string, x: T)
    ensures multiset(Group(xs, key, k))[x] == if key(x) == k then multiset(xs)[x] else 0
  {
    if xs != [] {
      var init := xs[..|xs| - 1];
      GroupCount(init, key, k, x);
      assert xs == init + [xs[|xs| - 1]];
    }
  }

  /** A group is the filter of its key, so it keeps the input order. */
  lemma {:induction false} GroupIsFilter<T>(xs: seq<T>, key: T -> string, k: string, p: T -> bool)
    requires forall x :: p(x) == (key(x) == k)
    ensures Group(xs, key, k) == Filter(xs, p)
  {
    if xs != [] {
      var init := xs[..|xs| - 1];
      var last := xs[|xs| - 1];
      GroupIsFilter(init, key, k, p);
      assert xs == init + [last];
      FilterAppend(init, [last], p);
      assert Filter([last], p) == (if p(last) then [last] else []) + Filter([], p);
    }
  }

  /** The keys of xs in order of first appearance, each once. */
  function DistinctKeys<T>(xs: seq<T>, key: T -> string): (ks: seq<string>)
  {
    if xs == [] then []
    else
      var ks := DistinctKeys(xs[..|xs| - 1], key);
      var k := key(xs[|xs| - 1]);
      if k in ks then ks else ks + [k]
  }

  predicate NoDuplicates<T(==)>(s: seq<T>)
  {
    forall i, j :: 0 <= i < j < |s| ==> s[i] != s[j]
  }

  /** DistinctKeys lists exactly the keys GroupBy creates, without repetition. */
  lemma {:induction false} DistinctKeysAreGroupKeys<T>(xs: seq<T>, key: T -> string)
    ensures NoDuplicates(DistinctKeys(xs, key))
    ensures forall k :: k in DistinctKeys(xs, key) <==> k in GroupBy(xs, key)
  {
    if xs != [] {
      DistinctKeysAreGroupKeys(xs[..|xs| - 1], key);
    }
  }

  /** `xs.reverse()` on a copy. */
  function Reverse<T>(xs: seq<T>): (r: seq<T>)
    ensures |r| == |xs| && forall i :: 0 <= i < |xs| ==> r[i] == xs[|xs| - 1 - i]
  {
    if xs == [] then [] else [xs[|xs| - 1]] + Reverse(xs[..|xs| - 1])
  }

  /** `xs.find(p)`: the first element that satisfies p. */
  function FindFirst<T>(xs: seq<T>, p: T -> bool): Option<T>
  {
    if xs == [] then None else if p(xs[0]) then Some(xs[0]) else FindFirst(xs[1..], p)
  }

  /**
   * `FindFirst` finds the element at the first index satisfying p, and finds
   * nothing exactly when no element does.
   */
  lemma {:induction false} FindFirstSpec<T>(xs: seq<T>, p: T -> bool)
    ensures FindFirst(xs, p).None? <==> forall i :: 0 <= i < |xs| ==> !p(xs[i])
    ensures FindFirst(xs, p).Some? ==>
      exists i :: 0 <= i < |xs| && xs[i] == FindFirst(xs, p).value && p(xs[i]) &&
        forall j :: 0 <= j < i ==> !p(xs[j])
  {
    if xs != [] && !p(xs[0]) {
      var ys := xs[1..];
      FindFirstSpec(ys, p);
      assert forall i :: 0 <= i < |ys| ==> ys[i] == xs[i + 1];
      if FindFirst(ys, p).Some? {
        var i :| 0 <= i < |ys| && ys[i] == FindFirst(ys, p).value && p(ys[i]) &&
          forall j :: 0 <= j < i ==> !p(ys[j]);
        assert xs[i + 1] == FindFirst(xs, p).value;
        assert forall j :: 0 <= j < i + 1 ==> !p(xs[j]) by {
          forall j | 0 <= j < i + 1 ensures !p(xs[j]) {
            if j > 0 { assert xs[j] == ys[j - 1]; }
          }
        }
      } else {
        forall i | 0 <= i < |xs| ensures !p(xs[i]) {
          if i > 0 { assert xs[i] == ys[i - 1]; }
        }
      }
    } else if xs != [] {
      assert xs[0] == FindFirst(xs, p).value;
    }
  }

  /** The last element that satisfies p. */
  function FindLast<T>(xs: seq<T>, p: T -> bool): Option<T>
  {
    if xs == [] then None
    else if p(xs[|xs| - 1]) then Some(xs[|xs| - 1])
    else FindLast(xs[..|xs| - 1], p)
  }

  function Both<T>(q: T -> bool, p: T -> bool): T -> bool
  {
    x => q(x) && p(x)
  }

  /** Finding in the reversed filtered copy is finding the last element that passes both tests. */
  lemma {:induction false} FindFirstReverseFilter<T>(xs: seq<T>, q: T -> bool, p: T -> bool)
    ensures FindFirst(Reverse(Filter(xs, q)), p) == FindLast(xs, Both(q, p))
  {
    if xs != [] {
      var ys := xs[..|xs| - 1];
      var x := xs[|xs| - 1];
      assert xs == ys + [x];
      FilterAppend(ys, [x], q);
      assert [x][1..] == [];
      assert Filter([x], q) == if q(x) then [x] else [];
      FindFirstReverseFilter(ys, q, p);
      var f := Filter(xs, q);
      if q(x) {
        assert f == Filter(ys, q) + [x];
        assert f[..|f| - 1] == Filter(ys, q);
        assert Reverse(f) == [x] + Reverse(Filter(ys, q));
        assert Reverse(f)[1..] == Reverse(Filter(ys, q));
      } else {
        assert f == Filter(ys, q);
      }
    }
  }

  /**
   * `FindLast` finds the element at the last index satisfying p, and finds
   * nothing exactly when no element does.
   */
  lemma {:induction false} FindLastSpec<T>(xs: seq<T>, p: T -> bool)
    ensures FindLast(xs, p).None? <==> forall i :: 0 <= i < |xs| ==> !p(xs[i])
    ensures FindLast(xs, p).Some? ==>
      exists i :: 0 <= i < |xs| && xs[i] == FindLast(xs, p).value && p(xs[i]) &&
        forall j :: i < j < |xs| ==> !p(xs[j])
  {
    if xs != [] {
      var ys := xs[..|xs| - 1];
      FindLastSpec(ys, p);
      if !p(xs[|xs| - 1]) {
        assert FindLast(xs, p) == FindLast(ys, p);
        if FindLast(ys, p).Some? {
          var i :| 0 <= i < |ys| && ys[i] == FindLast(ys, p).value && p(ys[i]) &&
            forall j :: i < j < |ys| ==> !p(ys[j]);
          forall j | i < j < |xs|
            ensures !p(xs[j])
          {
            if j < |ys| {
              assert xs[j] == ys[j];
            }
          }
          assert xs[i] == ys[i];
        } else {
          forall k | 0 <= k < |xs|
            ensures !p(xs[k])
          {
            if k < |ys| {
              assert xs[k] == ys[k];
            }
          }
        }
      } else {
        assert FindLast(xs, p) == Some(xs[|xs| - 1]);
      }
    }
  }
}
