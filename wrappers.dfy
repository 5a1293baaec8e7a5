/** Failure-compatible result types shared by both engine generations. */
module Wrappers {

  /** A value that may be absent; `None` stands for a Java `null`. */
  datatype Option<+T> = None | Some(value: T)

  /** The result of a Java call that returns a value or throws a checked exception. */
  datatype Result<+T, +E> = Success(value: T) | Failure(error: E)

  /** The result of a `void` Java call that may throw. */
  datatype Outcome<+E> = Pass | Fail(error: E)

  /** True when no two positions of `s` hold the same element (a list built from a set). */
  predicate NoDuplicates<T(==)>(s: seq<T>)
  {
    forall i, j :: 0 <= i < j < |s| ==> s[i] != s[j]
  }

  /** A list without repetitions has exactly as many entries as it has distinct elements. */
  lemma {:induction false} DistinctLength<T>(s: seq<T>)
    requires NoDuplicates(s)
    ensures |set x | x in s| == |s|
  {
    if s != [] {
      assert NoDuplicates(s[1..]) by {
        forall i, j | 0 <= i < j < |s[1..]| ensures s[1..][i] != s[1..][j] {
          assert s[1..][i] == s[i + 1] && s[1..][j] == s[j + 1];
        }
      }
      DistinctLength(s[1..]);
      assert (set x | x in s) == {s[0]} + (set x | x in s[1..]);
      assert s[0] !in (set x | x in s[1..]);
    }
  }

  /** A duplicate-free sequence whose only member is `x` is `[x]`. */
  lemma OnlyMember<T>(s: seq<T>, x: T)
    requires NoDuplicates(s) && x in s
    requires forall y :: y in s ==> y == x
    ensures s == [x]
  {
    DistinctLength(s);
    assert (set y | y in s) == {x};
    assert s[0] in s;
  }

  /** Appending a log in two instalments gives the same log as appending them joined. */
  lemma AppendAssociative<T>(a: seq<T>, b: seq<T>, c: seq<T>)
    ensures (a + b) + c == a + (b + c)
  {
  }
}

/** The opaque payload carried by an event and the per-transition scratch map. */
module Payloads {

  /** A Java `Object` handed through a transition: a null reference or some object. */
  datatype Payload = Null | Obj(id: nat)

  /** The string-keyed transition-context map shared by the phases of one transition. */
  type Context = map<string, Payload>
}

/** Facts about splitting strings, used by the `toString` lemmas of both generations. */
module Texts {

  /** If `a1 + r1 == a2 + r2`, neither `a` contains `c` and both `r` start with `c`, the split point is the same. */
  lemma UniqueSplit(c: char, a1: string, r1: string, a2: string, r2: string)
    requires c !in a1 && c !in a2
    requires |r1| > 0 && r1[0] == c && |r2| > 0 && r2[0] == c
    requires a1 + r1 == a2 + r2
    ensures a1 == a2 && r1 == r2
  {
    // Before its split point each string shows only non-`c` characters; at it, `c`.
    assert forall i :: 0 <= i < |a1| ==> (a1 + r1)[i] == a1[i] != c;
    assert forall i :: 0 <= i < |a2| ==> (a2 + r2)[i] == a2[i] != c;
    assert (a1 + r1)[|a1|] == c && (a2 + r2)[|a2|] == c;
    assert |a1| == |a2|;
    assert a1 == (a1 + r1)[..|a1|];
    assert a2 == (a2 + r2)[..|a2|];
    assert r1 == (a1 + r1)[|a1|..];
    assert r2 == (a2 + r2)[|a2|..];
  }
}
