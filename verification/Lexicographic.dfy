/** The order in which BoltDB keeps its keys: byte strings compared
    lexicographically. A Go string is a sequence of bytes, so one `char` here
    stands for one byte. */
module Lexicographic {

  predicate Less(a: string, b: string) {
    b != [] && (a == [] || a[0] < b[0] || (a[0] == b[0] && Less(a[1..], b[1..])))
  }

  lemma {:induction false} Irreflexive(a: string)
    ensures !Less(a, a)
  {
    if a != [] {
      Irreflexive(a[1..]);
    }
  }

  lemma {:induction false} Transitive(a: string, b: string, c: string)
    requires Less(a, b) && Less(b, c)
    ensures Less(a, c)
  {
    if a != [] && a[0] == b[0] == c[0] {
      Transitive(a[1..], b[1..], c[1..]);
    }
  }

  lemma {:induction false} Asymmetric(a: string, b: string)
    requires Less(a, b)
    ensures !Less(b, a) && a != b
  {
    if Less(b, a) {
      Transitive(a, b, a);
    }
    Irreflexive(a);
  }

  lemma {:induction false} Total(a: string, b: string)
    ensures a == b || Less(a, b) || Less(b, a)
  {
    if a != [] && b != [] && a[0] == b[0] {
      Total(a[1..], b[1..]);
      assert a == [a[0]] + a[1..] && b == [b[0]] + b[1..];
    }
  }

  /** A common prefix does not change how two strings compare. */
  lemma {:induction false} CommonPrefix(p: string, a: string, b: string)
    ensures Less(p + a, p + b) <==> Less(a, b)
  {
    if p == [] {
      assert p + a == a && p + b == b;
    } else {
      assert (p + a)[1..] == p[1..] + a && (p + b)[1..] == p[1..] + b;
      CommonPrefix(p[1..], a, b);
    }
  }

  /** The first position where two strings differ decides. */
  lemma {:induction false} FirstDifference(a: string, b: string, i: nat)
    requires i < |a| && i < |b| && a[..i] == b[..i] && a[i] != b[i]
    ensures Less(a, b) <==> a[i] < b[i]
  {
    assert a == a[..i] + a[i..] && b == b[..i] + b[i..];
    CommonPrefix(a[..i], a[i..], b[i..]);
  }

  /** A string comes before every proper extension of it. */
  lemma {:induction false} ProperPrefixLess(p: string, a: string)
    requires p <= a && p != a
    ensures Less(p, a)
  {
    assert p + [] == p && a == p + a[|p|..];
    CommonPrefix(p, [], a[|p|..]);
  }

  /** Two strings of one length that differ do so at some first position. */
  lemma {:induction false} DifferAt(a: string, b: string) returns (i: nat)
    requires |a| == |b| && a != b
    ensures i < |a| && a[..i] == b[..i] && a[i] != b[i]
  {
    i := 0;
    while i < |a| && a[i] == b[i]
      invariant i <= |a| && a[..i] == b[..i]
    {
      assert a[..i+1] == a[..i] + [a[i]] && b[..i+1] == b[..i] + [b[i]];
      i := i + 1;
    }
    assert a == a[..|a|] && b == b[..|a|];
  }

  /** Everything between two strings with a common prefix has that prefix. */
  lemma {:induction false} PrefixIsConvex(p: string, a: string, b: string, c: string)
    requires p <= a && p <= c
    requires Less(a, b) && Less(b, c)
    ensures p <= b
  {
    if p != [] {
      assert a[0] == p[0] == c[0];
      assert b[0] == p[0];
      PrefixIsConvex(p[1..], a[1..], b[1..], c[1..]);
      assert b == [b[0]] + b[1..] && p == [p[0]] + p[1..];
    }
  }
}
