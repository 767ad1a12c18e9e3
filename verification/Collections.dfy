/** Small vocabulary shared by every module: optional values and sums over sequences. */
module Collections {

  datatype Option<+T> = None | Some(value: T)

  function Min(a: int, b: int): int {
    if a <= b then a else b
  }

  function Max(a: int, b: int): int {
    if a >= b then a else b
  }

  /** The total weight of a sequence. */
  function SumBy<T>(s: seq<T>, weight: T -> nat): nat {
    if s == [] then 0 else weight(s[0]) + SumBy(s[1..], weight)
  }

  lemma {:induction false} SumByUpdate<T>(s: seq<T>, weight: T -> nat, i: nat, x: T)
    requires i < |s|
    ensures SumBy(s[i := x], weight) + weight(s[i]) == SumBy(s, weight) + weight(x)
  {
    var t := s[i := x];
    if i == 0 {
      assert t[1..] == s[1..];
    } else {
      assert t[1..] == s[1..][i - 1 := x];
      SumByUpdate(s[1..], weight, i - 1, x);
    }
  }

  lemma {:induction false} SumByMonotone<T>(s: seq<T>, t: seq<T>, weight: T -> nat)
    requires |s| == |t|
    requires forall i :: 0 <= i < |s| ==> weight(s[i]) <= weight(t[i])
    ensures SumBy(s, weight) <= SumBy(t, weight)
  {
    if s != [] {
      SumByMonotone(s[1..], t[1..], weight);
    }
  }

  lemma {:induction false} SumByAtLeast<T>(s: seq<T>, weight: T -> nat, i: nat)
    requires i < |s|
    ensures weight(s[i]) <= SumBy(s, weight)
  {
    if i > 0 {
      SumByAtLeast(s[1..], weight, i - 1);
    }
  }

  lemma {:induction false} SumByZero<T>(s: seq<T>, weight: T -> nat)
    ensures SumBy(s, weight) == 0 <==> forall i :: 0 <= i < |s| ==> weight(s[i]) == 0
  {
    if s != [] {
      SumByZero(s[1..], weight);
      assert forall i :: 0 < i < |s| ==> s[i] == s[1..][i - 1];
      assert forall i :: 0 <= i < |s| - 1 ==> s[1..][i] == s[i + 1];
    }
  }

  lemma {:induction false} SumByAppend<T>(s: seq<T>, t: seq<T>, weight: T -> nat)
    ensures SumBy(s + t, weight) == SumBy(s, weight) + SumBy(t, weight)
  {
    if s == [] {
      assert s + t == t;
    } else {
      assert (s + t)[1..] == s[1..] + t;
      SumByAppend(s[1..], t, weight);
    }
  }
}
