/**
 * The part of java.util.List that the float manager relies on when it evicts a
 * box: remove(Object), which drops the first element equal to its argument.
 * Boxes do not override equals, so equality is reference identity.
 */
module Lists {

  /** No element occurs twice. */
  ghost predicate NoDuplicates<T>(s: seq<T>)
  {
    forall i, j :: 0 <= i < j < |s| ==> s[i] != s[j]
  }

  /** Appending an element that is not there keeps the list free of duplicates. */
  lemma AppendAbsent<T>(s: seq<T>, x: T)
    requires NoDuplicates(s) && x !in s
    ensures NoDuplicates(s + [x])
  {
    var r := s + [x];
    forall i, j | 0 <= i < j < |r| ensures r[i] != r[j] {
      if j == |s| {
        assert r[i] == s[i];
      } else {
        assert r[i] == s[i] && r[j] == s[j];
      }
    }
  }

  /** Appending is associative; stated once so that long proofs need not rediscover it. */
  lemma ConcatAssociative<T>(a: seq<T>, b: seq<T>, c: seq<T>)
    ensures (a + b) + c == a + (b + c)
  {
  }

  /** List.remove(Object): the list without the first occurrence of x (unchanged if x is absent). */
  function RemoveFirst<T(==)>(s: seq<T>, x: T): seq<T>
  {
    if s == [] then []
    else if s[0] == x then s[1..]
    else [s[0]] + RemoveFirst(s[1..], x)
  }

  /** As a bag, the result is the list with one copy of x taken out (none if there is none). */
  lemma {:induction false} RemoveFirstMultiset<T>(s: seq<T>, x: T)
    ensures multiset(RemoveFirst(s, x)) == multiset(s) - multiset{x}
  {
    if s != [] {
      assert s == [s[0]] + s[1..];
      if s[0] != x {
        RemoveFirstMultiset(s[1..], x);
      }
    }
  }

  /** Removing an element that is not there changes nothing. */
  lemma {:induction false} RemoveFirstAbsent<T>(s: seq<T>, x: T)
    requires x !in s
    ensures RemoveFirst(s, x) == s
  {
    if s != [] {
      assert x !in s[1..] by { assert forall y :: y in s[1..] ==> y in s; }
      RemoveFirstAbsent(s[1..], x);
      assert s == [s[0]] + s[1..];
    }
  }

  /** The result keeps every other element, in order: it is s with the element at the first occurrence cut out. */
  lemma {:induction false} RemoveFirstCutsFirstOccurrence<T>(s: seq<T>, x: T, i: nat)
    requires i < |s| && s[i] == x && x !in s[..i]
    ensures RemoveFirst(s, x) == s[..i] + s[i + 1..]
  {
    if i > 0 {
      assert s[0] in s[..i];
      assert s[1..][..i - 1] == s[1..i];
      assert x !in s[1..][..i - 1] by { assert forall y :: y in s[1..i] ==> y in s[..i]; }
      RemoveFirstCutsFirstOccurrence(s[1..], x, i - 1);
      assert s[1..][i..] == s[i + 1..];
      assert s[..i] == [s[0]] + s[1..i];
    }
  }

  /** On a list without duplicates, the element is gone afterwards and every other element stays. */
  lemma {:induction false} RemoveFirstOfDistinct<T>(s: seq<T>, x: T)
    requires NoDuplicates(s)
    ensures NoDuplicates(RemoveFirst(s, x))
    ensures forall y :: y in RemoveFirst(s, x) <==> y in s && y != x
  {
    if s != [] {
      var tail := s[1..];
      assert NoDuplicates(tail) by {
        forall i, j | 0 <= i < j < |tail| ensures tail[i] != tail[j] {
          assert tail[i] == s[i + 1] && tail[j] == s[j + 1];
        }
      }
      assert s[0] !in tail by {
        forall j | 0 <= j < |tail| ensures tail[j] != s[0] {
          assert tail[j] == s[j + 1];
        }
      }
      assert s == [s[0]] + tail;
      if s[0] != x {
        RemoveFirstOfDistinct(tail, x);
        var r := RemoveFirst(s, x);
        assert r == [s[0]] + RemoveFirst(tail, x);
        assert NoDuplicates(r) by {
          forall i, j | 0 <= i < j < |r| ensures r[i] != r[j] {
            if i == 0 {
              assert r[j] in RemoveFirst(tail, x);
            } else {
              assert r[i] == RemoveFirst(tail, x)[i - 1] && r[j] == RemoveFirst(tail, x)[j - 1];
            }
          }
        }
      }
    }
  }

  /** The membership half of RemoveFirstOfDistinct for one given element. */
  lemma RemoveFirstMember<T>(s: seq<T>, x: T, y: T)
    requires NoDuplicates(s)
    ensures y in RemoveFirst(s, x) <==> y in s && y != x
  {
    RemoveFirstOfDistinct(s, x);
  }

  /** On a list without duplicates, a second removal of the same element is a no-op. */
  lemma RemoveFirstIdempotent<T>(s: seq<T>, x: T)
    requires NoDuplicates(s)
    ensures RemoveFirst(RemoveFirst(s, x), x) == RemoveFirst(s, x)
  {
    RemoveFirstOfDistinct(s, x);
    RemoveFirstAbsent(RemoveFirst(s, x), x);
  }
}
