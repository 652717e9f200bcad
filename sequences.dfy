/** Sequence facts used across the model: duplicate-free insertion order (a
    LinkedHashSet built from a list), removal of a set of elements,
    order-preserving sub-sequences, and the steps of a sequence that are carried
    out when a step may throw. */
module Sequences {

  predicate NoDuplicates<T(==)>(s: seq<T>) {
    forall i, j :: 0 <= i < j < |s| ==> s[i] != s[j]
  }

  /** Regrouping a concatenation, for logs that grow by one segment at a time. */
  lemma ConcatAssociative<T>(a: seq<T>, b: seq<T>, c: seq<T>)
    ensures (a + b) + c == a + (b + c)
  {
  }

  /** `b` is obtained from `a` by deleting elements, keeping the order of the rest. */
  predicate IsSubsequence<T(==)>(b: seq<T>, a: seq<T>)
    decreases |a|
  {
    if b == [] then true
    else if a == [] then false
    else (b[0] == a[0] && IsSubsequence(b[1..], a[1..])) || IsSubsequence(b, a[1..])
  }

  /** Deleting elements twice is deleting elements once. */
  lemma {:induction false} SubsequenceTransitive<T>(c: seq<T>, b: seq<T>, a: seq<T>)
    requires IsSubsequence(c, b) && IsSubsequence(b, a)
    ensures IsSubsequence(c, a)
    decreases |a|
  {
    if c != [] {
      assert b != [] && a != [];
      if b[0] == a[0] && IsSubsequence(b[1..], a[1..]) {
        if c[0] == b[0] && IsSubsequence(c[1..], b[1..]) {
          SubsequenceTransitive(c[1..], b[1..], a[1..]);
        } else {
          SubsequenceTransitive(c, b[1..], a[1..]);
        }
      } else {
        SubsequenceTransitive(c, b, a[1..]);
      }
    }
  }

  /** The elements of `s` in the order of their first occurrence: the iteration order
      of a LinkedHashSet to which the elements of `s` were added one by one. */
  function Distinct<T(==)>(s: seq<T>): seq<T>
  {
    if s == [] then []
    else
      var d := Distinct(s[..|s| - 1]);
      if s[|s| - 1] in d then d else d + [s[|s| - 1]]
  }

  /** Adding one element to the set built so far: the step a loop over `s` takes. */
  lemma DistinctSnoc<T>(s: seq<T>, x: T)
    ensures Distinct(s + [x]) == if x in Distinct(s) then Distinct(s) else Distinct(s) + [x]
  {
    assert (s + [x])[..|s|] == s;
  }

  lemma {:induction false} DistinctMembers<T>(s: seq<T>)
    ensures forall x :: x in Distinct(s) <==> x in s
  {
    if s != [] {
      DistinctMembers(s[..|s| - 1]);
      assert s == s[..|s| - 1] + [s[|s| - 1]];
    }
  }

  lemma DistinctMember<T>(s: seq<T>, x: T)
    requires x in Distinct(s)
    ensures x in s
  {
    DistinctMembers(s);
  }

  lemma {:induction false} DistinctNoDuplicates<T>(s: seq<T>)
    ensures NoDuplicates(Distinct(s))
  {
    if s != [] {
      DistinctNoDuplicates(s[..|s| - 1]);
    }
  }

  /** The index at which `x` first occurs in `s`. */
  function FirstIndex<T(==)>(s: seq<T>, x: T): (k: nat)
    requires x in s
    ensures k < |s| && s[k] == x && x !in s[..k]
  {
    if s[0] == x then 0
    else
      var k := 1 + FirstIndex(s[1..], x);
      assert s[..k] == [s[0]] + s[1..][..k - 1];
      k
  }

  /** A first occurrence is characterised by its two properties. */
  lemma FirstIndexUnique<T>(s: seq<T>, x: T, k: nat)
    requires k < |s| && s[k] == x && x !in s[..k]
    ensures FirstIndex(s, x) == k
  {
    var m := FirstIndex(s, x);
  }

  /** Appending an element does not move the first occurrence of an element already present. */
  lemma FirstIndexSnoc<T>(s: seq<T>, x: T, y: T)
    requires y in s
    ensures FirstIndex(s + [x], y) == FirstIndex(s, y)
  {
    var k := FirstIndex(s, y);
    assert (s + [x])[..k] == s[..k];
    FirstIndexUnique(s + [x], y, k);
  }

  /** Distinct keeps the elements in the order in which they first occur in `s`. */
  lemma {:induction false} DistinctKeepsFirstOccurrenceOrder<T>(s: seq<T>, i: nat, j: nat)
    requires i < j < |Distinct(s)|
    ensures Distinct(s)[i] in s && Distinct(s)[j] in s
    ensures FirstIndex(s, Distinct(s)[i]) < FirstIndex(s, Distinct(s)[j])
  {
    DistinctMembers(s);
    assert Distinct(s)[i] in Distinct(s) && Distinct(s)[j] in Distinct(s);
    var p, x := s[..|s| - 1], s[|s| - 1];
    assert s == p + [x];
    var d := Distinct(p);
    DistinctMembers(p);
    if j < |d| {
      assert Distinct(s)[i] == d[i] && Distinct(s)[j] == d[j];
      DistinctKeepsFirstOccurrenceOrder(p, i, j);
      FirstIndexSnoc(p, x, d[i]);
      FirstIndexSnoc(p, x, d[j]);
    } else {
      assert x !in d && Distinct(s) == d + [x] && Distinct(s)[j] == x;
      var y := d[i];
      DistinctMember(p, y);
      FirstIndexSnoc(p, x, y);
      assert s[..|p|] == p;
      FirstIndexUnique(s, x, |p|);
    }
  }

  /** Every element of `d` occurs in `s`, and `d` lists them in the order of their
      first occurrence in `s`. */
  predicate InFirstOccurrenceOrder<T(==)>(d: seq<T>, s: seq<T>) {
    forall i, j :: 0 <= i < j < |d| ==>
      && d[i] in s && d[j] in s
      && FirstIndex(s, d[i]) < FirstIndex(s, d[j])
  }

  lemma DistinctInFirstOccurrenceOrder<T>(s: seq<T>)
    ensures InFirstOccurrenceOrder(Distinct(s), s)
  {
    forall i, j | 0 <= i < j < |Distinct(s)|
      ensures Distinct(s)[i] in s && Distinct(s)[j] in s
      ensures FirstIndex(s, Distinct(s)[i]) < FirstIndex(s, Distinct(s)[j])
    {
      DistinctKeepsFirstOccurrenceOrder(s, i, j);
    }
  }

  /** Java's `removeAll`: drops every element of `removed`, keeping the order of the rest. */
  function RemoveAll<T(==,!new)>(s: seq<T>, removed: set<T>): (r: seq<T>)
    ensures forall x :: x in r <==> x in s && x !in removed
    ensures IsSubsequence(r, s)
    ensures NoDuplicates(s) ==> NoDuplicates(r)
  {
    if s == [] then []
    else if s[0] in removed then RemoveAll(s[1..], removed)
    else [s[0]] + RemoveAll(s[1..], removed)
  }

  // ---------------------------------------------------------------------------
  // Steps that may throw

  /** Some element of `s` satisfies `p`. */
  predicate AnyHolds<T>(s: seq<T>, p: T -> bool) {
    exists i :: 0 <= i < |s| && p(s[i])
  }

  /** The steps of `s` that are carried out when the steps satisfying `p` throw and a
      throw ends the sequence: every step up to and including the first that throws. */
  function UpToFirst<T>(s: seq<T>, p: T -> bool): seq<T> {
    if s == [] then []
    else if p(s[0]) then [s[0]]
    else [s[0]] + UpToFirst(s[1..], p)
  }

  /** The steps carried out are a prefix of the steps planned; all but the last completed
      normally; the last threw iff some planned step throws, and otherwise every planned
      step was carried out. */
  lemma {:induction false} UpToFirstStops<T>(s: seq<T>, p: T -> bool)
    ensures var r := UpToFirst(s, p);
      && |r| <= |s| && r == s[..|r|]
      && (forall k :: 0 <= k < |r| - 1 ==> !p(r[k]))
      && (AnyHolds(s, p) <==> r != [] && p(r[|r| - 1]))
      && (!AnyHolds(s, p) ==> r == s)
  {
    if s != [] && !p(s[0]) {
      var rest := UpToFirst(s[1..], p);
      UpToFirstStops(s[1..], p);
      assert UpToFirst(s, p) == [s[0]] + rest;
      assert s[..1 + |rest|] == [s[0]] + s[1..][..|rest|];
      if AnyHolds(s, p) {
        var i :| 0 <= i < |s| && p(s[i]);
        assert s[1..][i - 1] == s[i];
      }
      if AnyHolds(s[1..], p) {
        var i :| 0 <= i < |s[1..]| && p(s[1..][i]);
        assert s[i + 1] == s[1..][i];
      }
    }
  }

  /** When no step throws, every step is carried out. */
  lemma UpToFirstComplete<T>(s: seq<T>, p: T -> bool)
    requires !AnyHolds(s, p)
    ensures UpToFirst(s, p) == s
  {
    UpToFirstStops(s, p);
  }

  /** Some step of a non-empty sequence throws iff its first does or one of the rest does. */
  lemma AnyHoldsCons<T>(a: seq<T>, p: T -> bool)
    requires a != []
    ensures AnyHolds(a, p) <==> p(a[0]) || AnyHolds(a[1..], p)
  {
    if AnyHolds(a[1..], p) {
      var i :| 0 <= i < |a[1..]| && p(a[1..][i]);
      assert a[i + 1] == a[1..][i];
    }
    if AnyHolds(a, p) && !p(a[0]) {
      var i :| 0 <= i < |a| && p(a[i]);
      assert a[1..][i - 1] == a[i];
    }
  }

  /** Carrying out `a + rest`: when `a` throws, `rest` is never started; otherwise all
      of `a` is carried out and `rest` follows. */
  lemma {:induction false} UpToFirstConcat<T>(a: seq<T>, rest: seq<T>, p: T -> bool)
    ensures UpToFirst(a + rest, p) == if AnyHolds(a, p) then UpToFirst(a, p) else a + UpToFirst(rest, p)
    decreases |a|
  {
    if a == [] {
      assert a + rest == rest;
    } else {
      assert (a + rest)[0] == a[0] && (a + rest)[1..] == a[1..] + rest;
      AnyHoldsCons(a, p);
      if !p(a[0]) {
        UpToFirstConcat(a[1..], rest, p);
        assert [a[0]] + (a[1..] + UpToFirst(rest, p)) == a + UpToFirst(rest, p);
      }
    }
  }

  /** The same, after a log. */
  lemma UpToFirstStep<T>(log: seq<T>, a: seq<T>, rest: seq<T>, p: T -> bool)
    ensures log + UpToFirst(a + rest, p) ==
      if AnyHolds(a, p) then log + UpToFirst(a, p) else (log + a) + UpToFirst(rest, p)
    ensures AnyHolds(a + rest, p) <==> AnyHolds(a, p) || AnyHolds(rest, p)
  {
    UpToFirstConcat(a, rest, p);
    AnyHoldsConcat(a, rest, p);
    ConcatAssociative(log, a, UpToFirst(rest, p));
  }

  /** The steps of `a + rest` carried out are steps of `a` or steps of `rest` carried out. */
  lemma UpToFirstMembers<T>(a: seq<T>, rest: seq<T>, p: T -> bool)
    ensures forall x :: x in UpToFirst(a + rest, p) ==> x in a || x in UpToFirst(rest, p)
    ensures AnyHolds(rest, p) ==> AnyHolds(a + rest, p)
  {
    UpToFirstConcat(a, rest, p);
    AnyHoldsConcat(a, rest, p);
    if AnyHolds(a, p) {
      UpToFirstPrefix(a, p);
    }
  }

  /** When `a` throws, the steps of `a + rest` carried out are all steps of `a`. */
  lemma UpToFirstWithin<T>(a: seq<T>, rest: seq<T>, p: T -> bool)
    requires AnyHolds(a, p)
    ensures forall x :: x in UpToFirst(a + rest, p) ==> x in a
    ensures AnyHolds(a + rest, p)
  {
    UpToFirstConcat(a, rest, p);
    AnyHoldsConcat(a, rest, p);
    UpToFirstPrefix(a, p);
  }

  /** The steps carried out are steps planned. */
  lemma UpToFirstPrefix<T>(s: seq<T>, p: T -> bool)
    ensures forall x :: x in UpToFirst(s, p) ==> x in s
  {
    UpToFirstStops(s, p);
    var r := UpToFirst(s, p);
    assert forall k :: 0 <= k < |r| ==> r[k] == s[k];
  }

  /** After `before`, the steps `done` of `planned` were carried out without a throw,
      and `remaining` are still to come. */
  predicate CarriedOut<T(==)>(before: seq<T>, planned: seq<T>, done: seq<T>, remaining: seq<T>, log: seq<T>, p: T -> bool) {
    planned == done + remaining && !AnyHolds(done, p) && log == before + done
  }

  lemma CarryOutStart<T>(before: seq<T>, planned: seq<T>, p: T -> bool)
    ensures CarriedOut(before, planned, [], planned, before, p)
  {
    assert [] + planned == planned && before + [] == before;
  }

  /** Some element of a concatenation satisfies `p` iff some element of one of its parts does. */
  lemma AnyHoldsConcat<T>(a: seq<T>, b: seq<T>, p: T -> bool)
    ensures AnyHolds(a + b, p) <==> AnyHolds(a, p) || AnyHolds(b, p)
  {
    if AnyHolds(a + b, p) {
      var k :| 0 <= k < |a + b| && p((a + b)[k]);
      if k < |a| {
        assert a[k] == (a + b)[k];
      } else {
        assert b[k - |a|] == (a + b)[k];
      }
    }
    if AnyHolds(a, p) {
      var k :| 0 <= k < |a| && p(a[k]);
      assert (a + b)[k] == a[k];
    }
    if AnyHolds(b, p) {
      var k :| 0 <= k < |b| && p(b[k]);
      assert (a + b)[|a| + k] == b[k];
    }
  }

  /** Carrying out the next segment `seg` of what remains, and `seg` throws: the log is
      complete and the whole plan throws. */
  lemma CarryOutThrow<T>(before: seq<T>, planned: seq<T>, done: seq<T>, seg: seq<T>, rest: seq<T>,
                         log: seq<T>, after: seq<T>, p: T -> bool)
    requires CarriedOut(before, planned, done, seg + rest, log, p)
    requires after == log + UpToFirst(seg, p) && AnyHolds(seg, p)
    ensures after == before + UpToFirst(planned, p)
    ensures AnyHolds(planned, p)
  {
    UpToFirstStep(before, done, seg + rest, p);
    UpToFirstStep(log, seg, rest, p);
  }

  lemma NoneHoldsConcat<T>(a: seq<T>, b: seq<T>, p: T -> bool)
    requires !AnyHolds(a, p) && !AnyHolds(b, p)
    ensures !AnyHolds(a + b, p)
  {
    AnyHoldsConcat(a, b, p);
  }

  /** A segment in which nothing throws is carried out whole, extending the log. */
  lemma LogAfterComplete<T>(before: seq<T>, done: seq<T>, seg: seq<T>, log: seq<T>, after: seq<T>, p: T -> bool)
    requires log == before + done && after == log + UpToFirst(seg, p) && !AnyHolds(seg, p)
    ensures after == before + (done + seg)
  {
    UpToFirstComplete(seg, p);
    assert after == (before + done) + seg;
  }

  /** Carrying out the next segment `seg` of what remains, and `seg` completes: it is done. */
  lemma CarryOutNormal<T>(before: seq<T>, planned: seq<T>, done: seq<T>, seg: seq<T>, rest: seq<T>,
                          log: seq<T>, after: seq<T>, p: T -> bool)
    requires CarriedOut(before, planned, done, seg + rest, log, p)
    requires after == log + UpToFirst(seg, p) && !AnyHolds(seg, p)
    ensures CarriedOut(before, planned, done + seg, rest, after, p)
  {
    NoneHoldsConcat(done, seg, p);
    LogAfterComplete(before, done, seg, log, after, p);
    ConcatAssociative(done, seg, rest);
  }

  /** Carrying out the next segment `seg` of what remains: when it throws, the log is
      complete and the whole plan throws; otherwise `seg` is done. */
  lemma CarryOutStep<T>(before: seq<T>, planned: seq<T>, done: seq<T>, seg: seq<T>, rest: seq<T>,
                        log: seq<T>, after: seq<T>, p: T -> bool)
    requires CarriedOut(before, planned, done, seg + rest, log, p)
    requires after == log + UpToFirst(seg, p)
    ensures AnyHolds(seg, p) ==> after == before + UpToFirst(planned, p) && AnyHolds(planned, p)
    ensures !AnyHolds(seg, p) ==> CarriedOut(before, planned, done + seg, rest, after, p)
  {
    if AnyHolds(seg, p) {
      CarryOutThrow(before, planned, done, seg, rest, log, after, p);
    } else {
      CarryOutNormal(before, planned, done, seg, rest, log, after, p);
    }
  }

  /** Carrying out the last segment: the log is complete, and the plan throws iff that
      segment does. */
  lemma CarryOutLast<T>(before: seq<T>, planned: seq<T>, done: seq<T>, seg: seq<T>,
                        log: seq<T>, after: seq<T>, p: T -> bool)
    requires CarriedOut(before, planned, done, seg, log, p)
    requires after == log + UpToFirst(seg, p)
    ensures after == before + UpToFirst(planned, p)
    ensures AnyHolds(planned, p) <==> AnyHolds(seg, p)
  {
    assert seg + [] == seg;
    CarryOutStep(before, planned, done, seg, [], log, after, p);
    if !AnyHolds(seg, p) {
      UpToFirstStops(planned, p);
      assert done + seg == planned;
    }
  }

  /** A single step is carried out, and throws iff it satisfies `p`. */
  lemma UpToFirstSingle<T>(x: T, p: T -> bool)
    ensures UpToFirst([x], p) == [x]
    ensures AnyHolds([x], p) <==> p(x)
  {
    assert [x][1..] == [];
    assert [x][0] == x;
  }

  /** A segment of at most one step is carried out whole, and throws iff its step does. */
  lemma UpToFirstAtMostOne<T>(s: seq<T>, p: T -> bool)
    requires |s| <= 1
    ensures UpToFirst(s, p) == s
    ensures AnyHolds(s, p) <==> s != [] && p(s[0])
  {
    if s != [] {
      UpToFirstSingle(s[0], p);
      assert s == [s[0]];
    }
  }

  /** Nothing planned, nothing carried out. */
  lemma UpToFirstEmpty<T>(p: T -> bool)
    ensures UpToFirst([], p) == [] && !AnyHolds([], p)
  {
  }
}
