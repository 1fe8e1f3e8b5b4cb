/**
 * Byte strings and the listing of a string set.
 *
 * The fixture keeps its payloads in `sets.String` from k8s.io/apimachinery.
 * A Go string is a sequence of bytes, and `sets.String.List()` returns the
 * members of the set sorted by Go's string order: bytewise lexicographic,
 * a proper prefix first. That library is not part of this model; only the
 * two operations the fixture uses are: `Insert`, which is set union with a
 * singleton, and `List`, modelled here.
 */
module StringSet {
  newtype uint8 = x: int | 0 <= x < 256

  /** A Go string (or the `[]byte` it was converted from). */
  type Bytes = seq<uint8>

  /** Go's `a < b` on strings. */
  predicate Less(a: Bytes, b: Bytes)
    decreases |a|
  {
    if |a| == 0 then |b| > 0
    else if |b| == 0 then false
    else a[0] < b[0] || (a[0] == b[0] && Less(a[1..], b[1..]))
  }

  lemma {:induction false} LessIrreflexive(a: Bytes)
    ensures !Less(a, a)
    decreases |a|
  {
    if |a| > 0 {
      LessIrreflexive(a[1..]);
    }
  }

  lemma {:induction false} LessTransitive(a: Bytes, b: Bytes, c: Bytes)
    requires Less(a, b) && Less(b, c)
    ensures Less(a, c)
    decreases |a|
  {
    if |a| > 0 && a[0] == b[0] && b[0] == c[0] {
      LessTransitive(a[1..], b[1..], c[1..]);
    }
  }

  lemma {:induction false} LessTotal(a: Bytes, b: Bytes)
    ensures a == b || Less(a, b) || Less(b, a)
    decreases |a|
  {
    if |a| > 0 && |b| > 0 && a[0] == b[0] {
      LessTotal(a[1..], b[1..]);
      if a[1..] == b[1..] {
        assert a == [a[0]] + a[1..] && b == [b[0]] + b[1..];
      }
    }
  }

  /** Every element is below every later one: sorted and without duplicates. */
  predicate StrictlySorted(l: seq<Bytes>)
  {
    forall i, j :: 0 <= i < j < |l| ==> Less(l[i], l[j])
  }

  /** `l` is what `List()` returns for the set `s`. */
  predicate IsListOf(l: seq<Bytes>, s: set<Bytes>)
  {
    StrictlySorted(l) && (forall x :: x in l ==> x in s) && (forall x :: x in s ==> x in l)
  }

  /** The head of a listing is the least member of the set. */
  lemma HeadIsLeast(l: seq<Bytes>, s: set<Bytes>)
    requires IsListOf(l, s) && |l| > 0
    ensures forall x :: x in s && x != l[0] ==> Less(l[0], x)
  {
  }

  /** Dropping the head of a listing lists the rest of the set. */
  lemma TailIsListOf(l: seq<Bytes>, s: set<Bytes>)
    requires IsListOf(l, s) && |l| > 0
    ensures IsListOf(l[1..], s - {l[0]})
  {
    forall x
      ensures x in l[1..] <==> x in s - {l[0]}
    {
      if x in l[1..] {
        var k :| 1 <= k < |l| && l[k] == x;
        assert Less(l[0], l[k]);
        LessIrreflexive(x);
      }
      if x in s - {l[0]} {
        var k :| 0 <= k < |l| && l[k] == x;
        assert l[1..][k - 1] == x;
      }
    }
  }

  /** A listing holds each member of the set exactly once. */
  lemma {:induction false} ListCardinality(l: seq<Bytes>, s: set<Bytes>)
    requires IsListOf(l, s)
    ensures |l| == |s|
    ensures forall i, j :: 0 <= i < j < |l| ==> l[i] != l[j]
    decreases |l|
  {
    forall i, j | 0 <= i < j < |l|
      ensures l[i] != l[j]
    {
      LessIrreflexive(l[i]);
    }
    if |l| > 0 {
      assert l[0] in s;
      TailIsListOf(l, s);
      ListCardinality(l[1..], s - {l[0]});
    }
  }

  /** A set has only one listing, so `List()` is deterministic. */
  lemma {:induction false} ListUnique(l1: seq<Bytes>, l2: seq<Bytes>, s: set<Bytes>)
    requires IsListOf(l1, s) && IsListOf(l2, s)
    ensures l1 == l2
    decreases |l1|
  {
    ListCardinality(l1, s);
    ListCardinality(l2, s);
    if |l1| > 0 {
      assert l1[0] in s && l2[0] in s;
      HeadIsLeast(l1, s);
      HeadIsLeast(l2, s);
      if l1[0] != l2[0] {
        LessTransitive(l1[0], l2[0], l1[0]);
        LessIrreflexive(l1[0]);
        assert false;
      }
      TailIsListOf(l1, s);
      TailIsListOf(l2, s);
      ListUnique(l1[1..], l2[1..], s - {l1[0]});
      assert l1 == [l1[0]] + l1[1..] && l2 == [l2[0]] + l2[1..];
    }
  }

  /** The least member of a non-empty set. */
  method Least(s: set<Bytes>) returns (m: Bytes)
    requires s != {}
    ensures m in s
    ensures forall x :: x in s && x != m ==> Less(m, x)
  {
    m :| m in s;
    var rest := s - {m};
    while rest != {}
      invariant m in s && m !in rest && rest <= s
      invariant forall x :: x in s && x !in rest && x != m ==> Less(m, x)
      decreases rest
    {
      var y :| y in rest;
      LessTotal(m, y);
      if Less(y, m) {
        forall x | x in s && x !in rest && x != y
          ensures Less(y, x)
        {
          if x != m {
            LessTransitive(y, m, x);
          }
        }
        m := y;
      }
      rest := rest - {y};
    }
  }

  /** `sets.String.List()`: the members of `s`, sorted, each once. */
  method List(s: set<Bytes>) returns (l: seq<Bytes>)
    ensures IsListOf(l, s)
    ensures |l| == |s|
  {
    l := [];
    var rest := s;
    while rest != {}
      invariant rest <= s
      invariant StrictlySorted(l)
      invariant forall x :: x in l <==> x in s && x !in rest
      invariant forall i, x :: 0 <= i < |l| && x in rest ==> Less(l[i], x)
      decreases rest
    {
      var m := Least(rest);
      l := l + [m];
      rest := rest - {m};
    }
    ListCardinality(l, s);
  }
}
