/** List helpers used by several components. */
module Lists {

  /** Each value occurs at most once in `xs`. */
  ghost predicate NoDuplicates(xs: seq<string>) {
    forall x :: multiset(xs)[x] <= 1
  }

  /**
   * `xs.filter(x => x !== item)`: every occurrence of `item` is dropped,
   * every other element is kept, in order.
   */
  function Remove(xs: seq<string>, item: string): (r: seq<string>)
    ensures item !in r
    ensures forall x :: x != item ==> multiset(r)[x] == multiset(xs)[x]
    ensures |r| == |xs| - multiset(xs)[item]
  {
    if xs == [] then []
    else
      assert xs == [xs[0]] + xs[1..];
      if xs[0] == item then Remove(xs[1..], item)
      else [xs[0]] + Remove(xs[1..], item)
  }

  /** Filtering distributes over concatenation, so the kept elements stay in their order. */
  lemma {:induction false} RemoveAppend(a: seq<string>, b: seq<string>, item: string)
    ensures Remove(a + b, item) == Remove(a, item) + Remove(b, item)
  {
    if a == [] {
      assert a + b == b;
    } else {
      assert (a + b)[0] == a[0];
      assert (a + b)[1..] == a[1..] + b;
      RemoveAppend(a[1..], b, item);
    }
  }

  /** Removing an item that is absent leaves the list as it was. */
  lemma {:induction false} RemoveAbsent(xs: seq<string>, item: string)
    requires item !in xs
    ensures Remove(xs, item) == xs
  {
    if xs != [] {
      assert xs[0] != item;
      assert item !in xs[1..] by {
        forall k | 0 <= k < |xs[1..]| ensures xs[1..][k] != item {
          assert xs[1..][k] == xs[k + 1];
        }
      }
      RemoveAbsent(xs[1..], item);
      assert xs == [xs[0]] + xs[1..];
    }
  }

  /** Removal keeps a duplicate-free list duplicate-free. */
  lemma RemoveNoDuplicates(xs: seq<string>, item: string)
    requires NoDuplicates(xs)
    ensures NoDuplicates(Remove(xs, item))
  {
    var r := Remove(xs, item);
    forall x ensures multiset(r)[x] <= 1 {
      if x == item {
        assert x !in r;
      } else {
        assert multiset(r)[x] == multiset(xs)[x];
      }
    }
  }
}
