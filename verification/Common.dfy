/** Small vocabulary shared by every component model. */
module Common {
  datatype Option<+T> = None | Some(value: T)

  function Min(a: nat, b: nat): nat { if a <= b then a else b }

  ghost predicate Distinct<T>(s: seq<T>) {
    forall i, j :: 0 <= i < j < |s| ==> s[i] != s[j]
  }

  // ----- subsequences -----

  ghost predicate Subsequence<T>(a: seq<T>, b: seq<T>) {
    a == [] || (b != [] && ((a[0] == b[0] && Subsequence(a[1..], b[1..])) || Subsequence(a, b[1..])))
  }

  lemma {:induction false} SubsequenceGrows<T>(a: seq<T>, b: seq<T>, x: T)
    requires Subsequence(a, b)
    ensures Subsequence(a, b + [x]) && Subsequence(a + [x], b + [x])
    decreases |b|
  {
    if b == [] {
      assert a == [] && (a + [x])[1..] == [] && (b + [x])[1..] == [];
    } else {
      assert (b + [x])[1..] == b[1..] + [x];
      if a == [] {
        SubsequenceGrows(a, b[1..], x);
      } else if a[0] == b[0] && Subsequence(a[1..], b[1..]) {
        assert (a + [x])[1..] == a[1..] + [x];
        SubsequenceGrows(a[1..], b[1..], x);
      } else {
        SubsequenceGrows(a, b[1..], x);
      }
    }
  }

  lemma {:induction false} SubsequencePrefix<T>(a: seq<T>, c: seq<T>, b: seq<T>)
    requires Subsequence(a + c, b)
    ensures Subsequence(a, b)
    decreases |b|
  {
    if a != [] {
      if (a + c)[0] == b[0] && Subsequence((a + c)[1..], b[1..]) {
        assert (a + c)[1..] == a[1..] + c;
        SubsequencePrefix(a[1..], c, b[1..]);
      } else {
        SubsequencePrefix(a, c, b[1..]);
      }
    }
  }

  // ----- removal by swapping in the last element -----

  lemma {:induction false} SwapRemoved<T>(s: seq<T>, i: nat)
    requires Distinct(s) && i < |s|
    ensures var r := s[i := s[|s| - 1]][..|s| - 1]; Distinct(r) && forall x :: x in r <==> x in s && x != s[i]
  {
    var r := s[i := s[|s| - 1]][..|s| - 1];
    forall x | x in s && x != s[i] ensures x in r {
      var k :| 0 <= k < |s| && s[k] == x;
      if k == |s| - 1 { assert r[i] == x; } else { assert r[k] == x; }
    }
  }
}
