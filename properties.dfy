/** A fixed list of configuration properties (Properties): their keys, in list order or
    sorted in Java's natural string order, and the list itself. */
module ConfigurationProperties {

  /** A configuration property, reduced to its key, which is all this list reads of it. */
  datatype Property = Property(key: string)
  {
    function GetKey(): string { key }
  }

  /** The natural string order, String.compareTo(a, b) <= 0: lexicographic order on
      characters, a proper prefix before the longer string. Characters here are code
      points, where compareTo compares UTF-16 code units. */
  predicate LessOrEqual(a: string, b: string) {
    if a == [] then true
    else if b == [] then false
    else if a[0] != b[0] then a[0] < b[0]
    else LessOrEqual(a[1..], b[1..])
  }

  lemma {:induction false} LessOrEqualTotal(a: string, b: string)
    ensures LessOrEqual(a, b) || LessOrEqual(b, a)
  {
    if a != [] && b != [] && a[0] == b[0] {
      LessOrEqualTotal(a[1..], b[1..]);
    }
  }

  lemma {:induction false} LessOrEqualTransitive(a: string, b: string, c: string)
    requires LessOrEqual(a, b) && LessOrEqual(b, c)
    ensures LessOrEqual(a, c)
  {
    if a != [] && b != [] && c != [] && a[0] == b[0] && b[0] == c[0] {
      LessOrEqualTransitive(a[1..], b[1..], c[1..]);
    }
  }

  lemma {:induction false} LessOrEqualAntisymmetric(a: string, b: string)
    requires LessOrEqual(a, b) && LessOrEqual(b, a)
    ensures a == b
  {
    if a != [] && b != [] {
      LessOrEqualAntisymmetric(a[1..], b[1..]);
      assert a == [a[0]] + a[1..] && b == [b[0]] + b[1..];
    }
  }

  lemma LessOrEqualReflexive(a: string)
    ensures LessOrEqual(a, a)
  {
    LessOrEqualTotal(a, a);
  }

  predicate Sorted(s: seq<string>) {
    forall i, j :: 0 <= i < j < |s| ==> LessOrEqual(s[i], s[j])
  }

  /** Inserts `x` before the first element it does not follow. */
  function Insert(x: string, s: seq<string>): seq<string> {
    if s == [] then [x]
    else if LessOrEqual(x, s[0]) then [x] + s
    else [s[0]] + Insert(x, s[1..])
  }

  /** The keys sorted by insertion, one key at a time from the end. */
  function InsertionSort(s: seq<string>): seq<string> {
    if s == [] then [] else Insert(s[0], InsertionSort(s[1..]))
  }

  lemma {:induction false} InsertPermutes(x: string, s: seq<string>)
    ensures multiset(Insert(x, s)) == multiset(s) + multiset{x}
  {
    if s != [] && !LessOrEqual(x, s[0]) {
      InsertPermutes(x, s[1..]);
      assert s == [s[0]] + s[1..];
    }
  }

  /** `y` comes before or equals every element of `s`. */
  predicate AllAtLeast(y: string, s: seq<string>) {
    forall k :: 0 <= k < |s| ==> LessOrEqual(y, s[k])
  }

  lemma SortedCons(h: string, t: seq<string>)
    requires AllAtLeast(h, t) && Sorted(t)
    ensures Sorted([h] + t)
  {
    var r := [h] + t;
    forall i, j | 0 <= i < j < |r|
      ensures LessOrEqual(r[i], r[j])
    {
      assert r[j] == t[j - 1];
      if i > 0 {
        assert r[i] == t[i - 1];
      }
    }
  }

  lemma {:induction false} InsertAtLeast(y: string, x: string, s: seq<string>)
    requires LessOrEqual(y, x) && AllAtLeast(y, s)
    ensures AllAtLeast(y, Insert(x, s))
  {
    if s != [] && !LessOrEqual(x, s[0]) {
      assert AllAtLeast(y, s[1..]) by {
        forall k | 0 <= k < |s[1..]| ensures LessOrEqual(y, s[1..][k]) {
          assert s[1..][k] == s[k + 1];
        }
      }
      InsertAtLeast(y, x, s[1..]);
      var r := Insert(x, s);
      forall k | 0 <= k < |r| ensures LessOrEqual(y, r[k]) {
        if k > 0 {
          assert r[k] == Insert(x, s[1..])[k - 1];
        }
      }
    } else if s != [] {
      var r := Insert(x, s);
      forall k | 0 <= k < |r| ensures LessOrEqual(y, r[k]) {
        if k > 0 {
          assert r[k] == s[k - 1];
        }
      }
    }
  }

  lemma {:induction false} InsertSorted(x: string, s: seq<string>)
    requires Sorted(s)
    ensures Sorted(Insert(x, s))
  {
    if s == [] {
    } else if LessOrEqual(x, s[0]) {
      forall k | 0 <= k < |s| ensures LessOrEqual(x, s[k]) {
        if k > 0 {
          LessOrEqualTransitive(x, s[0], s[k]);
        }
      }
      SortedCons(x, s);
    } else {
      var t := s[1..];
      assert Sorted(t) by {
        forall i, j | 0 <= i < j < |t| ensures LessOrEqual(t[i], t[j]) {
          assert t[i] == s[i + 1] && t[j] == s[j + 1];
        }
      }
      assert AllAtLeast(s[0], t) by {
        forall k | 0 <= k < |t| ensures LessOrEqual(s[0], t[k]) {
          assert t[k] == s[k + 1];
        }
      }
      InsertSorted(x, t);
      LessOrEqualTotal(x, s[0]);
      InsertAtLeast(s[0], x, t);
      SortedCons(s[0], Insert(x, t));
    }
  }

  /** The sort yields a sorted permutation of its input: the same keys, duplicates kept. */
  lemma {:induction false} InsertionSortCorrect(s: seq<string>)
    ensures Sorted(InsertionSort(s))
    ensures multiset(InsertionSort(s)) == multiset(s)
  {
    if s != [] {
      InsertionSortCorrect(s[1..]);
      InsertSorted(s[0], InsertionSort(s[1..]));
      InsertPermutes(s[0], InsertionSort(s[1..]));
      assert s == [s[0]] + s[1..];
    }
  }

  lemma SortedTail(s: seq<string>)
    requires Sorted(s) && s != []
    ensures Sorted(s[1..])
  {
    var t := s[1..];
    forall p, q | 0 <= p < q < |t| ensures LessOrEqual(t[p], t[q]) {
      assert t[p] == s[p + 1] && t[q] == s[q + 1];
    }
  }

  /** The head of a sorted list comes before or equals each of its elements. */
  lemma SortedHeadIsLeast(s: seq<string>, x: string)
    requires Sorted(s) && x in s
    ensures LessOrEqual(s[0], x)
  {
    var i :| 0 <= i < |s| && s[i] == x;
    if i == 0 {
      LessOrEqualReflexive(x);
    }
  }

  /** Two permutations of each other with the same head have permuted tails. */
  lemma SameHeadSameTail(a: seq<string>, b: seq<string>)
    requires a != [] && b != [] && a[0] == b[0] && multiset(a) == multiset(b)
    ensures multiset(a[1..]) == multiset(b[1..])
  {
    assert a == [a[0]] + a[1..] && b == [b[0]] + b[1..];
    assert multiset(a[1..]) == multiset(a) - multiset{a[0]};
    assert multiset(b[1..]) == multiset(b) - multiset{b[0]};
  }

  /** A sorted permutation is unique, so any correct sort (such as Java's stable sort)
      gives the same list as this one. */
  lemma {:induction false} SortedPermutationUnique(a: seq<string>, b: seq<string>)
    requires Sorted(a) && Sorted(b) && multiset(a) == multiset(b)
    ensures a == b
    decreases |a|
  {
    if a != [] {
      assert |b| == |multiset(b)| == |a|;
      assert a[0] in multiset(b) && b[0] in multiset(a);
      SortedHeadIsLeast(b, a[0]);
      SortedHeadIsLeast(a, b[0]);
      LessOrEqualAntisymmetric(a[0], b[0]);
      assert a == [a[0]] + a[1..] && b == [b[0]] + b[1..];
      SameHeadSameTail(a, b);
      SortedTail(a);
      SortedTail(b);
      SortedPermutationUnique(a[1..], b[1..]);
    }
  }

  /** Properties: an immutable list of properties. */
  datatype Properties = Properties(properties: seq<Property>)
  {
    function GetPropertyKeys(): (keys: seq<string>)
      ensures |keys| == |properties|
      ensures forall i :: 0 <= i < |properties| ==> keys[i] == properties[i].GetKey()
    {
      seq(|properties|, i requires 0 <= i < |properties| => properties[i].GetKey())
    }

    function GetSortedPropertyKeys(): seq<string> {
      InsertionSort(GetPropertyKeys())
    }

    function GetProperties(): seq<Property> {
      properties
    }
  }

  /** The sorted keys are in ascending order and are the same keys as the list's,
      each as many times as it occurs. */
  lemma SortedPropertyKeysSortedPermutation(p: Properties)
    ensures Sorted(p.GetSortedPropertyKeys())
    ensures multiset(p.GetSortedPropertyKeys()) == multiset(p.GetPropertyKeys())
    ensures |p.GetSortedPropertyKeys()| == |p.GetProperties()|
  {
    InsertionSortCorrect(p.GetPropertyKeys());
    assert |multiset(p.GetSortedPropertyKeys())| == |multiset(p.GetPropertyKeys())|;
  }

  /** `getProperties` returns the list given to the constructor. */
  lemma GetPropertiesReturnsConstructorList(properties: seq<Property>)
    ensures Properties(properties).GetProperties() == properties
  {
  }
}
