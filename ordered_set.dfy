/** JavaScript's `Set` as the bus uses it for handler registries: a collection
    without duplicates that remembers insertion order. It is modelled as a
    sequence; `Add` and `Delete` are `set.add` and `set.delete`. */
module OrderedSet {

  /** No element occurs twice: what a `Set` guarantees by construction. */
  ghost predicate NoDup<T>(s: seq<T>)
  {
    forall i, j :: 0 <= i < j < |s| ==> s[i] != s[j]
  }

  /** The mathematical set of elements, ignoring order. */
  ghost function Elements<T>(s: seq<T>): set<T>
  {
    set x | x in s
  }

  /** `set.add(x)`: afterwards x is a member and nothing else joined; the
      members already there keep their places, x goes last when it is new,
      and a set that already holds x is unchanged. */
  function Add<T(==, !new)>(s: seq<T>, x: T): (r: seq<T>)
    ensures forall y :: y in r <==> y in s || y == x
    ensures s <= r && |r| <= |s| + 1
    ensures x in s ==> r == s
    ensures NoDup(s) ==> NoDup(r)
  {
    if x in s then s else s + [x]
  }

  /** `set.delete(x)`: exactly the members other than x remain; nothing
      happens when x is absent (DeleteAbsent), and the others keep their
      order (DeleteAt). */
  function Delete<T(==, !new)>(s: seq<T>, x: T): (r: seq<T>)
    ensures forall y :: y in r <==> y in s && y != x
    ensures |r| <= |s|
  {
    if s == [] then []
    else if s[0] == x then Delete(s[1..], x)
    else [s[0]] + Delete(s[1..], x)
  }

  /** Deleting an absent element changes nothing. */
  lemma {:induction false} DeleteAbsent<T(!new)>(s: seq<T>, x: T)
    requires x !in s
    ensures Delete(s, x) == s
  {
    if s != [] {
      DeleteAbsent(s[1..], x);
      assert s == [s[0]] + s[1..];
    }
  }

  /** Deleting keeps a duplicate-free collection duplicate-free. */
  lemma {:induction false} DeleteNoDup<T(!new)>(s: seq<T>, x: T)
    ensures NoDup(s) ==> NoDup(Delete(s, x))
  {
    if s != [] && NoDup(s) {
      HeadNotInTail(s);
      DeleteNoDup(s[1..], x);
      if s[0] != x {
        var rest := Delete(s[1..], x);
        forall i, j | 0 <= i < j < |[s[0]] + rest| ensures ([s[0]] + rest)[i] != ([s[0]] + rest)[j] {
          if i == 0 {
            assert ([s[0]] + rest)[j] == rest[j - 1];
          } else {
            assert ([s[0]] + rest)[i] == rest[i - 1] && ([s[0]] + rest)[j] == rest[j - 1];
          }
        }
      }
    }
  }

  /** The first element of a duplicate-free sequence does not recur, and the
      rest is duplicate-free too. */
  lemma HeadNotInTail<T>(s: seq<T>)
    requires NoDup(s) && s != []
    ensures s[0] !in s[1..] && NoDup(s[1..])
  {
    forall k | 0 <= k < |s[1..]| ensures s[1..][k] != s[0] {
      assert s[1..][k] == s[k + 1];
    }
    forall i, j | 0 <= i < j < |s[1..]| ensures s[1..][i] != s[1..][j] {
      assert s[1..][i] == s[i + 1] && s[1..][j] == s[j + 1];
    }
  }

  /** In a duplicate-free collection, deleting the member at position k
      closes the gap: the members before and after it keep their order. */
  lemma {:induction false} DeleteAt<T(!new)>(s: seq<T>, k: nat)
    requires NoDup(s) && k < |s|
    ensures Delete(s, s[k]) == s[..k] + s[k + 1..]
  {
    HeadNotInTail(s);
    if k == 0 {
      DeleteAbsent(s[1..], s[0]);
    } else {
      assert s[1..][k - 1] == s[k];
      DeleteAt(s[1..], k - 1);
      assert s[0] != s[k];
      assert s[..k] == [s[0]] + s[1..][..k - 1];
      assert s[k + 1..] == s[1..][k..];
    }
  }

  /** In a duplicate-free collection, deleting a present element shrinks it by one. */
  lemma {:induction false} DeleteShrinks<T(!new)>(s: seq<T>, x: T)
    requires NoDup(s) && x in s
    ensures |Delete(s, x)| == |s| - 1
  {
    var k :| 0 <= k < |s| && s[k] == x;
    DeleteAt(s, k);
  }

  /** A duplicate-free sequence has as many distinct elements as entries:
      its length is the `size` of the `Set` it models. */
  lemma {:induction false} DistinctCount<T>(s: seq<T>)
    requires NoDup(s)
    ensures |Elements(s)| == |s|
  {
    if s != [] {
      HeadNotInTail(s);
      DistinctCount(s[1..]);
      assert Elements(s) == {s[0]} + Elements(s[1..]) by {
        forall y ensures y in Elements(s) <==> y == s[0] || y in Elements(s[1..]) {
          if y in s && y != s[0] {
            var k :| 0 <= k < |s| && s[k] == y;
            assert s[1..][k - 1] == y;
          }
        }
      }
    }
  }
}
