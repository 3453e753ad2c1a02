// Sorting by name: the lexicographic order of strings, and the uniqueness of sorted lists.
module NameOrder {

  predicate Less(a: string, b: string) {
    b != [] && (a == [] || a[0] < b[0] || (a[0] == b[0] && Less(a[1..], b[1..])))
  }

  /** The strings agree up to `k`, and there the first one ends or has the smaller character. */
  ghost predicate DifferAt(a: string, b: string, k: nat) {
    k <= |a| && k < |b| && (forall j :: 0 <= j < k ==> a[j] == b[j]) && (k == |a| || a[k] < b[k])
  }

  /** The order is that of the first difference; a proper beginning comes first. */
  lemma {:induction false} LessIff(a: string, b: string)
    ensures Less(a, b) <==> exists k: nat :: DifferAt(a, b, k)
  {
    if a == [] || b == [] || a[0] != b[0] {
      if b != [] && (a == [] || a[0] < b[0]) {
        assert DifferAt(a, b, 0);
      }
    } else {
      LessIff(a[1..], b[1..]);
      if k: nat :| DifferAt(a[1..], b[1..], k) {
        assert forall j :: 0 < j <= k ==> a[j] == a[1..][j - 1] && b[j] == b[1..][j - 1];
        assert DifferAt(a, b, k + 1);
      }
      if k: nat :| DifferAt(a, b, k) {
        assert DifferAt(a[1..], b[1..], k - 1);
      }
    }
  }

  lemma {:induction false} LessIsTotal(a: string, b: string)
    ensures Less(a, b) || Less(b, a) || a == b
  {
    if a != [] && b != [] && a[0] == b[0] {
      LessIsTotal(a[1..], b[1..]);
      if a[1..] == b[1..] {
        assert a == [a[0]] + a[1..] && b == [b[0]] + b[1..];
      }
    }
  }

  lemma {:induction false} LessIsStrict(a: string)
    ensures !Less(a, a)
  {
    if a != [] { LessIsStrict(a[1..]); }
  }

  lemma {:induction false} LessIsTransitive(a: string, b: string, c: string)
    requires Less(a, b) && Less(b, c)
    ensures Less(a, c)
  {
    if a != [] && a[0] == b[0] && b[0] == c[0] {
      LessIsTransitive(a[1..], b[1..], c[1..]);
    }
  }

  /** Each item comes before the next by its key. */
  ghost predicate Sorted<T(!new)>(items: seq<T>, key: T -> string) {
    forall i, j :: 0 <= i < j < |items| ==> Less(key(items[i]), key(items[j]))
  }

  function Elements<T>(items: seq<T>): (s: set<T>) {
    set x | x in items
  }

  /** The least key of a sorted list is the first one. */
  lemma HeadIsLeast<T(!new)>(items: seq<T>, key: T -> string, x: T)
    requires Sorted(items, key) && items != [] && x in items
    ensures x == items[0] || Less(key(items[0]), key(x))
  {
  }

  lemma SortedKeysDiffer<T(!new)>(items: seq<T>, key: T -> string, i: nat, j: nat)
    requires Sorted(items, key) && i < j < |items|
    ensures key(items[i]) != key(items[j])
  {
    LessIsStrict(key(items[i]));
  }

  lemma HasElements<T(!new)>(items: seq<T>)
    requires items != []
    ensures Elements(items) != {}
  {
    assert items[0] in Elements(items);
  }

  /** A sorted list is determined by its elements. */
  lemma {:induction false} SortedIsUnique<T(!new)>(a: seq<T>, b: seq<T>, key: T -> string)
    requires Sorted(a, key) && Sorted(b, key) && Elements(a) == Elements(b)
    ensures a == b
  {
    if a == [] {
      if b != [] { HasElements(b); }
    } else {
      assert a[0] in Elements(b);
      assert b[0] in Elements(a);
      SameHead(a, b, key);
      TailElements(a, key);
      TailElements(b, key);
      SortedIsUnique(a[1..], b[1..], key);
      assert a == [a[0]] + a[1..] && b == [b[0]] + b[1..];
    }
  }

  lemma SameHead<T(!new)>(a: seq<T>, b: seq<T>, key: T -> string)
    requires Sorted(a, key) && Sorted(b, key) && a != [] && b != [] && a[0] in b && b[0] in a
    ensures a[0] == b[0]
  {
    HeadIsLeast(a, key, b[0]);
    HeadIsLeast(b, key, a[0]);
    if a[0] != b[0] {
      LessIsTransitive(key(a[0]), key(b[0]), key(a[0]));
      LessIsStrict(key(a[0]));
    }
  }

  lemma TailElements<T(!new)>(items: seq<T>, key: T -> string)
    requires Sorted(items, key) && items != []
    ensures Elements(items[1..]) == Elements(items) - {items[0]}
  {
    forall i | 0 < i < |items| ensures items[i] != items[0] {
      LessIsStrict(key(items[0]));
    }
  }

  /** Puts an item with a new key into its place. */
  function Insert<T(!new)>(items: seq<T>, key: T -> string, x: T): (r: seq<T>) {
    if items == [] then [x]
    else if Less(key(x), key(items[0])) then [x] + items
    else [items[0]] + Insert(items[1..], key, x)
  }

  lemma {:induction false} InsertSorts<T(!new)>(items: seq<T>, key: T -> string, x: T)
    requires Sorted(items, key) && forall y :: y in items ==> key(y) != key(x)
    ensures Sorted(Insert(items, key, x), key)
    ensures Elements(Insert(items, key, x)) == Elements(items) + {x}
  {
    if items != [] {
      if Less(key(x), key(items[0])) {
        forall j | 0 < j < |items| ensures Less(key(x), key(items[j])) {
          LessIsTransitive(key(x), key(items[0]), key(items[j]));
        }
      } else {
        LessIsTotal(key(x), key(items[0]));
        assert items[0] in items;
        InsertSorts(items[1..], key, x);
        InsertBehind(items, key, x);
      }
    }
  }

  lemma InsertBehind<T(!new)>(items: seq<T>, key: T -> string, x: T)
    requires Sorted(items, key) && items != [] && Less(key(items[0]), key(x))
    requires Sorted(Insert(items[1..], key, x), key)
    requires Elements(Insert(items[1..], key, x)) == Elements(items[1..]) + {x}
    ensures Sorted([items[0]] + Insert(items[1..], key, x), key)
    ensures Elements([items[0]] + Insert(items[1..], key, x)) == Elements(items) + {x}
  {
    var tail := Insert(items[1..], key, x);
    forall j | 0 <= j < |tail| ensures Less(key(items[0]), key(tail[j])) {
      assert tail[j] in Elements(tail);
      if tail[j] != x {
        assert tail[j] in items[1..];
      }
    }
    ElementsCons(items[0], tail);
    ElementsCons(items[0], items[1..]);
    assert items == [items[0]] + items[1..];
  }

  lemma ElementsCons<T(!new)>(x: T, items: seq<T>)
    ensures Elements([x] + items) == {x} + Elements(items)
  {
    assert forall y :: y in [x] + items <==> y == x || y in items;
  }

  function Sum<T>(items: seq<T>, size: T -> nat): (n: nat) {
    if items == [] then 0 else Sum(items[..|items| - 1], size) + size(items[|items| - 1])
  }

  lemma SumSnoc<T>(items: seq<T>, x: T, size: T -> nat)
    ensures Sum(items + [x], size) == Sum(items, size) + size(x)
  {
    assert (items + [x])[..|items|] == items;
  }

  lemma {:induction false} SumConcat<T>(a: seq<T>, b: seq<T>, size: T -> nat)
    ensures Sum(a + b, size) == Sum(a, size) + Sum(b, size)
    decreases |b|
  {
    if b == [] {
      assert a + b == a;
    } else {
      assert (a + b)[..|a + b| - 1] == a + b[..|b| - 1];
      SumConcat(a, b[..|b| - 1], size);
    }
  }

  lemma TakeOut<T>(items: seq<T>, k: nat, size: T -> nat)
    requires k < |items|
    ensures var without := items[..k] + items[k + 1..];
            && multiset(items) == multiset(without) + multiset{items[k]}
            && Sum(items, size) == Sum(without, size) + size(items[k])
  {
    var before, x, behind := items[..k], items[k], items[k + 1..];
    assert items == before + [x] + behind;
    SumConcat(before + [x], behind, size);
    assert (before + [x])[..k] == before;
    SumConcat(before, behind, size);
  }

  /** A sum does not depend on the order. */
  lemma {:induction false} SumOfPermutation<T>(a: seq<T>, b: seq<T>, size: T -> nat)
    requires multiset(a) == multiset(b)
    ensures Sum(a, size) == Sum(b, size)
    decreases |a|
  {
    if a == [] {
      assert |multiset(b)| == 0;
    } else {
      var rest, last := a[..|a| - 1], a[|a| - 1];
      assert a == rest + [last];
      assert last in multiset(b);
      var k :| 0 <= k < |b| && b[k] == last;
      TakeOut(b, k, size);
      var without := b[..k] + b[k + 1..];
      assert multiset(rest) == multiset(a) - multiset{last};
      assert multiset(without) == multiset(b) - multiset{last};
      SumOfPermutation(rest, without, size);
    }
  }

  ghost predicate Distinct<T(!new)>(items: seq<T>) {
    forall i, j :: 0 <= i < j < |items| ==> items[i] != items[j]
  }

  /** Lists without repetition that have the same elements are permutations of each other. */
  lemma {:induction false} DistinctMultiset<T(!new)>(items: seq<T>)
    requires Distinct(items)
    ensures multiset(items) == multiset(Elements(items))
  {
    if items != [] {
      var rest, last := items[..|items| - 1], items[|items| - 1];
      DistinctMultiset(rest);
      assert items == rest + [last];
      assert Elements(items) == Elements(rest) + {last};
      assert last !in Elements(rest);
    }
  }
}
