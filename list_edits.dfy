/** The two list edits the form's handlers are made of: dropping every item
    with a given id (`filter(x => x.id !== id)`) and rewriting every item with a
    given id (`map(x => x.id === id ? f(x) : x)`). Items are keyed by a function
    that reads their id. */
module ListEdits {
  import opened Totals

  /** The number of items whose id is `id`. */
  function Count<T>(xs: seq<T>, key: T -> string, id: string): (n: nat)
    ensures n <= |xs|
    ensures n == 0 <==> forall i :: 0 <= i < |xs| ==> key(xs[i]) != id
    decreases |xs|
  {
    if |xs| == 0 then 0 else (if key(xs[0]) == id then 1 else 0) + Count(xs[1..], key, id)
  }

  /** The items are keyed by pairwise distinct ids. */
  predicate UniqueIds<T>(xs: seq<T>, key: T -> string)
  {
    forall i, j :: 0 <= i < j < |xs| ==> key(xs[i]) != key(xs[j])
  }

  /** Every item whose id is not `id`, in their original order. */
  function Without<T>(xs: seq<T>, key: T -> string, id: string): (r: seq<T>)
    ensures |r| == |xs| - Count(xs, key, id)
    ensures forall i :: 0 <= i < |r| ==> key(r[i]) != id
    ensures forall i :: 0 <= i < |xs| && key(xs[i]) != id ==> xs[i] in r
    ensures forall x :: x in r ==> x in xs
    decreases |xs|
  {
    if |xs| == 0 then []
    else
      var rest := Without(xs[1..], key, id);
      assert forall i :: 1 <= i < |xs| ==> xs[i] == xs[1..][i - 1];
      if key(xs[0]) != id then [xs[0]] + rest else rest
  }

  /** Every item whose id is `id`, in their original order: what `Without` drops. */
  function Only<T>(xs: seq<T>, key: T -> string, id: string): (r: seq<T>)
    ensures |r| == Count(xs, key, id)
    ensures forall i :: 0 <= i < |r| ==> key(r[i]) == id
    ensures forall x :: x in r ==> x in xs
    decreases |xs|
  {
    if |xs| == 0 then []
    else
      var rest := Only(xs[1..], key, id);
      assert forall x :: x in xs[1..] ==> x in xs;
      if key(xs[0]) == id then [xs[0]] + rest else rest
  }

  /** Items whose id is `id` are replaced by `f` of themselves, the others kept,
      each in its place. */
  function UpdateWhere<T>(xs: seq<T>, key: T -> string, id: string, f: T -> T): (r: seq<T>)
    ensures |r| == |xs|
    ensures forall i :: 0 <= i < |xs| ==> r[i] == if key(xs[i]) == id then f(xs[i]) else xs[i]
    decreases |xs|
  {
    if |xs| == 0 then []
    else
      var rest := UpdateWhere(xs[1..], key, id, f);
      assert forall i :: 1 <= i < |xs| ==> rest[i - 1] == (if key(xs[i]) == id then f(xs[i]) else xs[i]);
      [if key(xs[0]) == id then f(xs[0]) else xs[0]] + rest
  }

  /** Dropping distributes over concatenation, so the kept items stay in order. */
  lemma {:induction false} WithoutAppend<T>(a: seq<T>, b: seq<T>, key: T -> string, id: string)
    ensures Without(a + b, key, id) == Without(a, key, id) + Without(b, key, id)
    decreases |a|
  {
    if |a| > 0 {
      assert (a + b)[0] == a[0];
      assert (a + b)[1..] == a[1..] + b;
      WithoutAppend(a[1..], b, key, id);
    } else {
      assert a + b == b;
    }
  }

  /** On one item the filter keeps it exactly when its id differs; with
      `WithoutAppend` this fixes the result item by item, in order. */
  lemma WithoutOne<T>(x: T, key: T -> string, id: string)
    ensures Without([x], key, id) == if key(x) != id then [x] else []
  {
    assert [x][1..] == [];
  }

  /** On one item the dropped part is the item exactly when its id matches. */
  lemma OnlyOne<T>(x: T, key: T -> string, id: string)
    ensures Only([x], key, id) == if key(x) == id then [x] else []
  {
    assert [x][1..] == [];
  }

  /** The dropped items of a concatenation are those of each part, in order. */
  lemma {:induction false} OnlyAppend<T>(a: seq<T>, b: seq<T>, key: T -> string, id: string)
    ensures Only(a + b, key, id) == Only(a, key, id) + Only(b, key, id)
    decreases |a|
  {
    if |a| > 0 {
      assert (a + b)[0] == a[0];
      assert (a + b)[1..] == a[1..] + b;
      OnlyAppend(a[1..], b, key, id);
    } else {
      assert a + b == b;
    }
  }

  /** Putting one more item on either side of a split adds it to the whole. */
  lemma MultisetStep<T>(x: T, tail: seq<T>, kept: seq<T>, dropped: seq<T>, kept': seq<T>, dropped': seq<T>)
    requires multiset(kept) + multiset(dropped) == multiset(tail)
    requires (kept' == [x] + kept && dropped' == dropped) || (kept' == kept && dropped' == [x] + dropped)
    ensures multiset(kept') + multiset(dropped') == multiset([x] + tail)
  {
  }

  /** The kept and the dropped items together are the list's items, each as
      often as it occurs in the list. */
  lemma {:induction false} WithoutOnlyPartition<T>(xs: seq<T>, key: T -> string, id: string)
    ensures multiset(Without(xs, key, id)) + multiset(Only(xs, key, id)) == multiset(xs)
    decreases |xs|
  {
    if |xs| > 0 {
      var x, tail := xs[0], xs[1..];
      WithoutOnlyPartition(tail, key, id);
      assert xs == [x] + tail;
      var kept, dropped := Without(tail, key, id), Only(tail, key, id);
      if key(x) != id {
        assert Without(xs, key, id) == [x] + kept && Only(xs, key, id) == dropped;
        MultisetStep(x, tail, kept, dropped, [x] + kept, dropped);
      } else {
        assert Without(xs, key, id) == kept && Only(xs, key, id) == [x] + dropped;
        MultisetStep(x, tail, kept, dropped, kept, [x] + dropped);
      }
    }
  }

  /** With no item of that id nothing is dropped. */
  lemma {:induction false} WithoutAbsent<T>(xs: seq<T>, key: T -> string, id: string)
    requires forall i :: 0 <= i < |xs| ==> key(xs[i]) != id
    ensures Without(xs, key, id) == xs
    decreases |xs|
  {
    if |xs| > 0 {
      assert forall i :: 0 <= i < |xs| - 1 ==> key(xs[1..][i]) != id by {
        assert forall i :: 0 <= i < |xs| - 1 ==> xs[1..][i] == xs[i + 1];
      }
      WithoutAbsent(xs[1..], key, id);
      assert xs == [xs[0]] + xs[1..];
    }
  }

  /** With unique ids at most one item carries any given id. */
  lemma {:induction false} CountUnique<T>(xs: seq<T>, key: T -> string, id: string)
    requires UniqueIds(xs, key)
    ensures Count(xs, key, id) <= 1
    decreases |xs|
  {
    if |xs| > 0 {
      assert UniqueIds(xs[1..], key) by {
        assert forall i :: 0 <= i < |xs| - 1 ==> xs[1..][i] == xs[i + 1];
      }
      CountUnique(xs[1..], key, id);
      if key(xs[0]) == id {
        assert forall i :: 0 <= i < |xs| - 1 ==> key(xs[1..][i]) != id by {
          assert forall i :: 0 <= i < |xs| - 1 ==> xs[1..][i] == xs[i + 1];
        }
      }
    }
  }

  /** A sum over the list is the sum over the kept items plus the sum over the dropped ones. */
  lemma {:induction false} SumSplit<T>(xs: seq<T>, key: T -> string, id: string, f: T -> int)
    ensures Sum(xs, f) == Sum(Without(xs, key, id), f) + Sum(Only(xs, key, id), f)
    decreases |xs|
  {
    if |xs| > 0 {
      SumSplit(xs[1..], key, id, f);
      if key(xs[0]) == id {
        SumAppend([xs[0]], Only(xs[1..], key, id), f);
      } else {
        SumAppend([xs[0]], Without(xs[1..], key, id), f);
      }
    }
  }

  /** An update that leaves `g` unchanged on every item leaves the sum of `g` unchanged. */
  lemma {:induction false} SumUpdateInvariant<T>(xs: seq<T>, key: T -> string, id: string, f: T -> T, g: T -> int)
    requires forall x :: g(f(x)) == g(x)
    ensures Sum(UpdateWhere(xs, key, id, f), g) == Sum(xs, g)
    decreases |xs|
  {
    if |xs| > 0 {
      var r := UpdateWhere(xs, key, id, f);
      assert r[1..] == UpdateWhere(xs[1..], key, id, f);
      SumUpdateInvariant(xs[1..], key, id, f, g);
    }
  }

  /** With unique ids, updating by the id of item `k` rewrites item `k` alone. */
  lemma UpdateUnique<T>(xs: seq<T>, key: T -> string, k: nat, f: T -> T)
    requires UniqueIds(xs, key) && k < |xs|
    ensures UpdateWhere(xs, key, key(xs[k]), f) == xs[k := f(xs[k])]
  {
    var r := UpdateWhere(xs, key, key(xs[k]), f);
    forall i | 0 <= i < |xs|
      ensures r[i] == xs[k := f(xs[k])][i]
    {
      if i != k {
        assert key(xs[i]) != key(xs[k]) by {
          if i < k {
            assert key(xs[i]) != key(xs[k]);
          } else {
            assert key(xs[k]) != key(xs[i]);
          }
        }
      }
    }
  }

  /** Replacing item `k` by `y` changes a sum by `g(y) - g(xs[k])`. */
  lemma {:induction false} SumReplace<T>(xs: seq<T>, k: nat, y: T, g: T -> int)
    requires k < |xs|
    ensures Sum(xs[k := y], g) == Sum(xs, g) - g(xs[k]) + g(y)
    decreases k
  {
    if k > 0 {
      assert xs[k := y][1..] == xs[1..][k - 1 := y];
      SumReplace(xs[1..], k - 1, y, g);
    } else {
      assert xs[k := y][1..] == xs[1..];
    }
  }
}
