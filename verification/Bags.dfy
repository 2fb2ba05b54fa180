/** Bags of branch names: how lists of work are split without losing or doubling a branch. */
module Bags {
  import opened Wrappers

  /** No name twice, said of the bag. */
  ghost predicate AtMostOnce(bag: multiset<string>) {
    forall n :: bag[n] <= 1
  }

  lemma {:induction false} DistinctBag(names: seq<string>)
    ensures Distinct(names) <==> AtMostOnce(multiset(names))
  {
    if names != [] {
      var front, last := names[..|names| - 1], names[|names| - 1];
      assert names == front + [last];
      DistinctBag(front);
      if Distinct(names) {
        assert last !in front;
        assert last !in multiset(front);
        assert forall n :: multiset(names)[n] == multiset(front)[n] + (if n == last then 1 else 0);
      }
      if AtMostOnce(multiset(names)) {
        assert forall n :: multiset(front)[n] <= multiset(names)[n];
        assert multiset(front)[last] == 0;
        assert last !in front;
        forall i, j | 0 <= i < j < |names| ensures names[i] != names[j] {
          if j == |names| - 1 { assert names[i] == front[i]; }
        }
      }
    }
  }

  /** Part of a bag of distinct names is distinct. */
  lemma PartDistinct(names: seq<string>, bag: multiset<string>)
    requires multiset(names) <= bag && AtMostOnce(bag)
    ensures Distinct(names)
  {
    assert forall n :: multiset(names)[n] <= bag[n];
    DistinctBag(names);
  }

  /** Two parts of a bag of distinct names have no name in common. */
  lemma PartsApart(a: seq<string>, b: seq<string>, bag: multiset<string>, n: string)
    requires multiset(a) + multiset(b) <= bag && AtMostOnce(bag)
    ensures !(n in a && n in b)
  {
    assert (multiset(a) + multiset(b))[n] <= bag[n] <= 1;
    assert n in a <==> n in multiset(a);
    assert n in b <==> n in multiset(b);
  }

  /** Distinct names drawn from a list are no more than the list is long. */
  lemma {:induction false} NoMoreThan(a: seq<string>, b: seq<string>)
    requires Distinct(a) && forall n | n in a :: n in b
    ensures |a| <= |b|
  {
    if a != [] {
      assert a[0] in a;
      var k :| 0 <= k < |b| && b[k] == a[0];
      var rest := b[..k] + b[k + 1..];
      forall n | n in a[1..] ensures n in rest {
        assert n in a;
        var j :| 0 <= j < |b| && b[j] == n;
        assert n != a[0];
        assert if j < k then rest[j] == n else rest[j - 1] == n;
      }
      NoMoreThan(a[1..], rest);
    }
  }
}
