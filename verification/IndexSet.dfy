/** Insertion-ordered sets of identifiers, as sequences without repetition. */
module IndexSet {
  predicate Distinct(s: seq<nat>) {
    forall i, j :: 0 <= i < j < |s| ==> s[i] != s[j]
  }

  function Insert(s: seq<nat>, x: nat): (r: seq<nat>)
    ensures forall y :: y in r <==> y in s || y == x
    ensures Distinct(s) ==> Distinct(r)
  {
    if x in s then s else s + [x]
  }

  /** Removes `x` and keeps the order of the rest. */
  function Remove(s: seq<nat>, x: nat): (r: seq<nat>)
    ensures forall y :: y in r <==> y in s && y != x
    ensures |r| <= |s|
    ensures Distinct(s) ==> Distinct(r)
    ensures x !in s ==> r == s
  {
    if s == [] then []
    else if s[0] == x then Remove(s[1..], x)
    else
      var rest := Remove(s[1..], x);
      assert Distinct(s) ==> s[0] !in s[1..];
      [s[0]] + rest
  }

  /** Members that stay keep their order. */
  lemma {:induction false} RemoveKeepsOrder(s: seq<nat>, x: nat, i: nat, j: nat) returns (k: nat, l: nat)
    requires i < j < |Remove(s, x)|
    ensures k < l < |s| && s[k] == Remove(s, x)[i] && s[l] == Remove(s, x)[j]
  {
    if s[0] == x {
      k, l := RemoveKeepsOrder(s[1..], x, i, j);
      k, l := k + 1, l + 1;
    } else if i == 0 {
      var r := Remove(s[1..], x);
      assert r[j - 1] in r;
      var m :| 0 <= m < |s[1..]| && s[1..][m] == r[j - 1];
      k, l := 0, m + 1;
    } else {
      k, l := RemoveKeepsOrder(s[1..], x, i - 1, j - 1);
      k, l := k + 1, l + 1;
    }
  }
}
