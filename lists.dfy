/** The array operations the pages apply to lists of numeric ids: `includes`,
    `filter(y => y !== x)` and "append if absent". */
module Lists {

  /** No element occurs twice. */
  predicate NoDup(xs: seq<int>) {
    forall i, j :: 0 <= i < j < |xs| ==> xs[i] != xs[j]
  }

  /** `xs.filter(y => y !== x)`: every occurrence of `x` dropped, the rest kept in order. */
  function Remove(xs: seq<int>, x: int): (r: seq<int>)
    ensures |r| <= |xs| && x !in r
    ensures forall y :: y != x ==> (y in r <==> y in xs)
  {
    if xs == [] then []
    else (if xs[0] == x then [] else [xs[0]]) + Remove(xs[1..], x)
  }

  /** Removing an element that is absent changes nothing. */
  lemma {:induction false} RemoveAbsent(xs: seq<int>, x: int)
    requires x !in xs
    ensures Remove(xs, x) == xs
  {
    if xs != [] {
      RemoveAbsent(xs[1..], x);
    }
  }

  /** Removing from a list without duplicates keeps it without duplicates. */
  lemma {:induction false} RemoveNoDup(xs: seq<int>, x: int)
    requires NoDup(xs)
    ensures NoDup(Remove(xs, x))
  {
    if xs != [] {
      assert NoDup(xs[1..]) by {
        forall i, j | 0 <= i < j < |xs| - 1 ensures xs[1..][i] != xs[1..][j] {
          assert xs[1..][i] == xs[i + 1] && xs[1..][j] == xs[j + 1];
        }
      }
      RemoveNoDup(xs[1..], x);
      var rest := Remove(xs[1..], x);
      if xs[0] != x {
        assert xs[0] !in xs[1..] by {
          forall k | 0 <= k < |xs| - 1 ensures xs[1..][k] != xs[0] {
            assert xs[1..][k] == xs[k + 1];
          }
        }
        assert xs[0] !in rest;
        var r := [xs[0]] + rest;
        forall i, j | 0 <= i < j < |r| ensures r[i] != r[j] {
          if i == 0 {
            assert r[j] == rest[j - 1];
          } else {
            assert r[i] == rest[i - 1] && r[j] == rest[j - 1];
          }
        }
      }
    }
  }

  /** `filter` works piece by piece. */
  lemma {:induction false} RemoveConcat(a: seq<int>, b: seq<int>, x: int)
    ensures Remove(a + b, x) == Remove(a, x) + Remove(b, x)
  {
    if a == [] {
      assert a + b == b;
    } else {
      assert (a + b)[1..] == a[1..] + b;
      RemoveConcat(a[1..], b, x);
    }
  }

  /** Appending an element that is absent keeps the list without duplicates. */
  lemma AppendFreshNoDup(xs: seq<int>, x: int)
    requires NoDup(xs) && x !in xs
    ensures NoDup(xs + [x])
  {
    var r := xs + [x];
    forall i, j | 0 <= i < j < |r| ensures r[i] != r[j] {
      if j == |xs| {
        assert r[i] == xs[i];
      } else {
        assert r[i] == xs[i] && r[j] == xs[j];
      }
    }
  }

  /** `if (!xs.includes(x)) xs = [...xs, x]`. */
  function AddIfAbsent(xs: seq<int>, x: int): (r: seq<int>)
    ensures x in r && forall y :: y in r <==> y in xs || y == x
    ensures x in xs ==> r == xs
    ensures x !in xs ==> r == xs + [x]
  {
    if x in xs then xs else xs + [x]
  }

  /** Adding keeps the list without duplicates, and adding twice is adding once. */
  lemma AddIfAbsentProperties(xs: seq<int>, x: int)
    ensures NoDup(xs) ==> NoDup(AddIfAbsent(xs, x))
    ensures AddIfAbsent(AddIfAbsent(xs, x), x) == AddIfAbsent(xs, x)
  {
    if NoDup(xs) && x !in xs {
      AppendFreshNoDup(xs, x);
    }
  }
}
