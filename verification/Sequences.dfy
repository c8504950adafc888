/** Sequences without repeats, and filtering in order. */
module Sequences {

  ghost predicate NoRepeats<T>(s: seq<T>) {
    forall i, j :: 0 <= i < j < |s| ==> s[i] != s[j]
  }

  /** The elements of `s` that are not `bad`, in the same order. */
  function Reject<T>(s: seq<T>, bad: T -> bool): seq<T> {
    if s == [] then [] else (if bad(s[0]) then [] else [s[0]]) + Reject(s[1..], bad)
  }

  lemma {:induction false} RejectAppend<T>(a: seq<T>, b: seq<T>, bad: T -> bool)
    ensures Reject(a + b, bad) == Reject(a, bad) + Reject(b, bad)
  {
    if a == [] {
      assert a + b == b;
    } else {
      assert (a + b)[1..] == a[1..] + b;
      RejectAppend(a[1..], b, bad);
    }
  }

  lemma {:induction false} RejectShortens<T>(s: seq<T>, bad: T -> bool)
    ensures |Reject(s, bad)| <= |s|
  {
    if s != [] { RejectShortens(s[1..], bad); }
  }

  lemma {:induction false} RejectMembers<T(!new)>(s: seq<T>, bad: T -> bool)
    ensures forall x :: x in Reject(s, bad) <==> x in s && !bad(x)
  {
    if s != [] {
      assert s == [s[0]] + s[1..];
      RejectMembers(s[1..], bad);
    }
  }

  lemma {:induction false} RejectNoRepeats<T(!new)>(s: seq<T>, bad: T -> bool)
    requires NoRepeats(s)
    ensures NoRepeats(Reject(s, bad))
  {
    if s != [] {
      RejectNoRepeats(s[1..], bad);
      RejectMembers(s[1..], bad);
      if !bad(s[0]) {
        var r := Reject(s[1..], bad);
        forall j | 0 <= j < |r| ensures r[j] != s[0] { assert r[j] in s[1..]; }
        assert Reject(s, bad) == [s[0]] + r;
      }
    }
  }
}
