/** The token budget (context/budget.py): what `pack` is meant to compute, and what follows from it. */
module Budget {
  import opened Collections

  datatype Tier = MustHave | High | Normal | Opportunistic

  datatype BudgetItem = BudgetItem(key: string, text: string, tier: Tier)

  /** Any token estimator. */
  type Estimator = string -> nat

  function Rank(t: Tier): nat {
    match t
    case MustHave => 0
    case High => 1
    case Normal => 2
    case Opportunistic => 3
  }

  /** `CharsPerTokenEstimator.estimate` */
  function Estimate(charsPerToken: int, text: string): (n: nat)
    ensures text != "" ==> n >= 1
  {
    if text == "" then 0 else Max(1, |text| / Max(1, charsPerToken))
  }

  /** `ContextBudget`, with the checks its constructor makes. */
  datatype ContextBudget = ContextBudget(modelWindow: int, reservedOutput: int, safetyMargin: real) {
    predicate Valid() {
      0 < modelWindow && 0 <= reservedOutput < modelWindow && 0.0 <= safetyMargin < 1.0
    }

    /** `budget_tokens`: what is left for context after the reserved output and the safety margin. */
    function BudgetTokens(): nat
      requires Valid()
    {
      var usable := modelWindow - reservedOutput;
      Max(0, ((usable as real) * (1.0 - safetyMargin)).Floor)
    }
  }

  function Tokens(items: seq<BudgetItem>, est: Estimator): (t: seq<nat>)
    ensures |t| == |items|
  {
    seq<nat>(|items|, i requires 0 <= i < |items| => est(items[i].text))
  }

  predicate InBounds(s: seq<int>, n: nat) {
    forall k :: 0 <= k < |s| ==> 0 <= s[k] < n
  }

  function TokensAt(toks: seq<nat>, i: int): nat {
    if 0 <= i < |toks| then toks[i] else 0
  }

  /** The total over the items at these positions. */
  function SumAt(toks: seq<nat>, order: seq<int>): nat {
    if order == [] then 0 else TokensAt(toks, order[0]) + SumAt(toks, order[1..])
  }

  function Total(toks: seq<nat>): nat {
    SumBy(toks, (n: nat) => n)
  }

  // ---- the sacrifice order --------------------------------------------------------------------

  /** `i` is given up before `j`: lower tier, then more tokens, then later in the input. */
  predicate Sooner(items: seq<BudgetItem>, toks: seq<nat>, i: int, j: int)
    requires |items| == |toks| && 0 <= i < |items| && 0 <= j < |items|
  {
    || Rank(items[i].tier) > Rank(items[j].tier)
    || (Rank(items[i].tier) == Rank(items[j].tier) && (toks[i] > toks[j] || (toks[i] == toks[j] && i > j)))
  }

  predicate Ordered(items: seq<BudgetItem>, toks: seq<nat>, order: seq<int>)
    requires |items| == |toks| && InBounds(order, |items|)
  {
    forall a, b :: 0 <= a < b < |order| ==>
      Sooner(items, toks, order[a], order[b])
  }

  /** All items that may be dropped, in the order in which they would be. */
  predicate IsSacrificeOrder(items: seq<BudgetItem>, toks: seq<nat>, order: seq<int>)
    requires |items| == |toks|
  {
    && InBounds(order, |items|) && Ordered(items, toks, order)
    && forall i :: 0 <= i < |items| ==> (i in order <==> items[i].tier != MustHave)
  }

  /** Inserting into an ordered list. */
  function Insert(items: seq<BudgetItem>, toks: seq<nat>, x: int, s: seq<int>): (r: seq<int>)
    requires |items| == |toks| && 0 <= x < |items| && InBounds(s, |items|)
    ensures InBounds(r, |items|) && forall i :: i in r <==> i == x || i in s
  {
    if s == [] then [x]
    else
      assert s[0] in s && forall i :: i in s <==> i == s[0] || i in s[1..];
      if Sooner(items, toks, x, s[0]) then [x] + s
      else [s[0]] + Insert(items, toks, x, s[1..])
  }

  /** `sorted(...)` by the sacrifice order. */
  function Sort(items: seq<BudgetItem>, toks: seq<nat>, s: seq<int>): (r: seq<int>)
    requires |items| == |toks| && InBounds(s, |items|)
    ensures InBounds(r, |items|) && forall i :: i in r <==> i in s
  {
    if s == [] then []
    else
      assert s[0] in s && forall i :: i in s <==> i == s[0] || i in s[1..];
      Insert(items, toks, s[0], Sort(items, toks, s[1..]))
  }

  lemma OrderedCons(items: seq<BudgetItem>, toks: seq<nat>, x: int, s: seq<int>)
    requires |items| == |toks| && 0 <= x < |items| && InBounds(s, |items|) && Ordered(items, toks, s)
    requires forall i | i in s :: Sooner(items, toks, x, i)
    ensures InBounds([x] + s, |items|) && Ordered(items, toks, [x] + s)
  {
    var r := [x] + s;
    assert forall b :: 0 < b < |r| ==> r[b] == s[b - 1] && r[b] in s;
  }

  lemma {:induction false} InsertOrdered(items: seq<BudgetItem>, toks: seq<nat>, x: int, s: seq<int>)
    requires |items| == |toks| && 0 <= x < |items| && InBounds(s, |items|) && Ordered(items, toks, s) && x !in s
    ensures Ordered(items, toks, Insert(items, toks, x, s))
  {
    if s == [] {
    } else {
      OrderedTail(items, toks, s);
      if Sooner(items, toks, x, s[0]) {
        forall i | i in s ensures Sooner(items, toks, x, i) {
          var k :| 0 <= k < |s| && s[k] == i;
        }
        OrderedCons(items, toks, x, s);
      } else {
        InsertOrdered(items, toks, x, s[1..]);
        forall i | i in s[1..] ensures Sooner(items, toks, s[0], i) {
          var k :| 0 <= k < |s[1..]| && s[1..][k] == i;
          assert s[k + 1] == i;
        }
        OrderedCons(items, toks, s[0], Insert(items, toks, x, s[1..]));
      }
    }
  }

  predicate Distinct(s: seq<int>) {
    forall a, b :: 0 <= a < b < |s| ==> s[a] != s[b]
  }

  lemma {:induction false} SortOrdered(items: seq<BudgetItem>, toks: seq<nat>, s: seq<int>)
    requires |items| == |toks| && InBounds(s, |items|) && Distinct(s)
    ensures Ordered(items, toks, Sort(items, toks, s))
  {
    if s != [] {
      assert s[0] in s && forall i :: i in s[1..] ==> i in s;
      SortOrdered(items, toks, s[1..]);
      assert s[0] !in s[1..];
      InsertOrdered(items, toks, s[0], Sort(items, toks, s[1..]));
    }
  }

  /** The order is fully determined: there is one sacrifice order. */
  lemma {:induction false} OrderUnique(items: seq<BudgetItem>, toks: seq<nat>, a: seq<int>, b: seq<int>)
    requires |items| == |toks| && InBounds(a, |items|) && InBounds(b, |items|)
    requires Ordered(items, toks, a) && Ordered(items, toks, b)
    requires forall i :: i in a <==> i in b
    ensures a == b
  {
    assert |b| > 0 ==> b[0] in b;
    if a != [] {
      assert a[0] in a && a[0] in b;
      FirstIsSoonest(items, toks, a, b[0]);
      FirstIsSoonest(items, toks, b, a[0]);
      OrderedTail(items, toks, a);
      OrderedTail(items, toks, b);
      OrderUnique(items, toks, a[1..], b[1..]);
    }
  }

  lemma FirstIsSoonest(items: seq<BudgetItem>, toks: seq<nat>, a: seq<int>, x: int)
    requires |items| == |toks| && InBounds(a, |items|) && Ordered(items, toks, a) && x in a
    ensures x == a[0] || Sooner(items, toks, a[0], x)
  {
  }

  lemma OrderedTail(items: seq<BudgetItem>, toks: seq<nat>, a: seq<int>)
    requires |items| == |toks| && InBounds(a, |items|) && Ordered(items, toks, a) && a != []
    ensures InBounds(a[1..], |items|) && Ordered(items, toks, a[1..])
    ensures forall i :: i in a[1..] <==> i in a && i != a[0]
  {
    assert forall k :: 0 <= k < |a[1..]| ==> a[1..][k] == a[k + 1];
    forall i | i in a[1..] ensures i in a && i != a[0] {
      var k :| 0 <= k < |a[1..]| && a[1..][k] == i;
      assert a[0] in a && a[k + 1] in a;
      assert Sooner(items, toks, a[0], a[k + 1]);
    }
  }

  // ---- how many are dropped -------------------------------------------------------------------

  /** Following `order` until the rest fits: what is given up. */
  function Dropping(toks: seq<nat>, order: seq<int>, total: int, limit: int): (d: seq<int>)
  {
    if total <= limit || order == [] then []
    else [order[0]] + Dropping(toks, order[1..], total - TokensAt(toks, order[0]), limit)
  }

  /** It is the shortest prefix of `order` whose removal makes the rest fit; all of it when none does. */
  lemma {:induction false} DroppingShortest(toks: seq<nat>, order: seq<int>, total: int, limit: int)
    ensures var d := Dropping(toks, order, total, limit);
      && d <= order
      && (total - SumAt(toks, d) <= limit || d == order)
      && (forall j :: 0 <= j < |d| ==> total - SumAt(toks, order[..j]) > limit)
  {
    if !(total <= limit || order == []) {
      var rest := order[1..];
      DroppingShortest(toks, rest, total - TokensAt(toks, order[0]), limit);
      var d, e := Dropping(toks, order, total, limit), Dropping(toks, rest, total - TokensAt(toks, order[0]), limit);
      assert d[1..] == e;
      forall j | 0 <= j < |d| ensures total - SumAt(toks, order[..j]) > limit {
        if j > 0 {
          assert order[..j][1..] == rest[..j - 1];
        }
      }
    }
  }

  /** The same as a loop runs it: what is gone so far and what is left. */
  function Follow(toks: seq<nat>, order: seq<int>, limit: int, gone: seq<int>, total: int): (seq<int>, int)
    decreases |order|
  {
    if total <= limit || order == [] then (gone, total)
    else Follow(toks, order[1..], limit, gone + [order[0]], total - TokensAt(toks, order[0]))
  }

  lemma {:induction false} FollowIsDropping(toks: seq<nat>, order: seq<int>, limit: int, gone: seq<int>, total: int)
    ensures var d := Dropping(toks, order, total, limit);
      Follow(toks, order, limit, gone, total) == (gone + d, total - SumAt(toks, d))
    decreases |order|
  {
    if total <= limit || order == [] {
      assert gone + [] == gone;
    } else {
      var rest, next := order[1..], total - TokensAt(toks, order[0]);
      FollowIsDropping(toks, rest, limit, gone + [order[0]], next);
      var d := Dropping(toks, rest, next, limit);
      assert ([order[0]] + d)[1..] == d;
      assert (gone + [order[0]]) + d == gone + ([order[0]] + d);
    }
  }

  /** Following one list and then another: the second is followed from what the first leaves. */
  lemma {:induction false} FollowConcat(toks: seq<nat>, a: seq<int>, b: seq<int>, limit: int, gone: seq<int>, total: int)
    ensures var (g, t) := Follow(toks, a, limit, gone, total);
      Follow(toks, a + b, limit, gone, total) == Follow(toks, b, limit, g, t)
    decreases |a|
  {
    if a == [] {
      assert a + b == b;
    } else if total > limit {
      assert (a + b)[1..] == a[1..] + b;
      FollowConcat(toks, a[1..], b, limit, gone + [a[0]], total - TokensAt(toks, a[0]));
    }
  }

  /** A smaller budget or a larger total never drops fewer. */
  lemma {:induction false} DroppingMonotone(toks: seq<nat>, order: seq<int>, t1: int, l1: int, t2: int, l2: int)
    requires t1 - l1 <= t2 - l2
    ensures Dropping(toks, order, t1, l1) <= Dropping(toks, order, t2, l2)
  {
    if !(t1 <= l1 || order == []) {
      DroppingMonotone(toks, order[1..], t1 - TokensAt(toks, order[0]), l1, t2 - TokensAt(toks, order[0]), l2);
    }
  }

  // ---- the specification of pack --------------------------------------------------------------

  function Droppable(items: seq<BudgetItem>, n: nat): (s: seq<int>)
    requires n <= |items|
    ensures InBounds(s, |items|) && Distinct(s)
    ensures forall i :: i in s <==> 0 <= i < n && items[i].tier != MustHave
  {
    if n == 0 then [] else
      var s := Droppable(items, n - 1);
      if items[n - 1].tier != MustHave then s + [n - 1] else s
  }

  function SacrificeOrder(items: seq<BudgetItem>, toks: seq<nat>): (order: seq<int>)
    requires |items| == |toks|
    ensures InBounds(order, |items|)
  {
    Sort(items, toks, Droppable(items, |items|))
  }

  lemma SacrificeOrderIs(items: seq<BudgetItem>, toks: seq<nat>)
    requires |items| == |toks|
    ensures IsSacrificeOrder(items, toks, SacrificeOrder(items, toks))
  {
    SortOrdered(items, toks, Droppable(items, |items|));
  }

  /** The positions `pack` drops, in the order in which it drops them. */
  function Dropped(items: seq<BudgetItem>, toks: seq<nat>, limit: nat): seq<int>
    requires |items| == |toks|
  {
    Dropping(toks, SacrificeOrder(items, toks), Total(toks), limit)
  }

  /** A must_have item is never dropped; dropping goes on exactly until the rest fits or only must_have is left. */
  lemma PackSpec(items: seq<BudgetItem>, toks: seq<nat>, limit: nat)
    requires |items| == |toks|
    ensures var d, order := Dropped(items, toks, limit), SacrificeOrder(items, toks);
      && d <= order && Distinct(d) && InBounds(d, |items|)
      && (forall i :: 0 <= i < |items| && items[i].tier == MustHave ==> i !in d)
      && (Total(toks) - SumAt(toks, d) <= limit || d == order)
      && (forall j :: 0 <= j < |d| ==> Total(toks) - SumAt(toks, order[..j]) > limit)
  {
    var order := SacrificeOrder(items, toks);
    SacrificeOrderIs(items, toks);
    DroppingShortest(toks, order, Total(toks), limit);
    var d := Dropped(items, toks, limit);
    assert forall i | i in d :: i in order;
    forall a, b | 0 <= a < b < |d| ensures d[a] != d[b] {
      assert d[a] == order[a] && d[b] == order[b] && Sooner(items, toks, order[a], order[b]);
    }
  }

  /** With a larger budget, what is dropped is a prefix of what a smaller one drops. */
  lemma LargerBudgetDropsLess(items: seq<BudgetItem>, toks: seq<nat>, small: nat, large: nat)
    requires |items| == |toks| && small <= large
    ensures Dropped(items, toks, large) <= Dropped(items, toks, small)
  {
    DroppingMonotone(toks, SacrificeOrder(items, toks), Total(toks), large, Total(toks), small);
  }

  // ---- re-packing with a marker ---------------------------------------------------------------

  /** Where a position of the first list stands once a marker is put at position 1. */
  function Shift(i: int): int {
    if i == 0 then 0 else i + 1
  }

  function ShiftAll(s: seq<int>): (r: seq<int>)
    ensures |r| == |s| && forall k :: 0 <= k < |s| ==> r[k] == Shift(s[k])
  {
    seq(|s|, k requires 0 <= k < |s| => Shift(s[k]))
  }

  predicate WithMarker(items: seq<BudgetItem>, more: seq<BudgetItem>) {
    && items != [] && |more| == |items| + 1 && more[1].tier == MustHave
    && more[0] == items[0]
    && forall i :: 0 < i < |items| ==> more[i + 1] == items[i]
  }

  lemma ShiftedOrdered(items: seq<BudgetItem>, more: seq<BudgetItem>, est: Estimator, order: seq<int>)
    requires WithMarker(items, more) && InBounds(order, |items|) && Ordered(items, Tokens(items, est), order)
    ensures InBounds(ShiftAll(order), |more|) && Ordered(more, Tokens(more, est), ShiftAll(order))
  {
    var moved := ShiftAll(order);
    forall a, b | 0 <= a < b < |moved| ensures Sooner(more, Tokens(more, est), moved[a], moved[b]) {
      assert Sooner(items, Tokens(items, est), order[a], order[b]);
      assert more[moved[a]] == items[order[a]] && more[moved[b]] == items[order[b]];
    }
  }

  lemma ShiftKeepsOrder(items: seq<BudgetItem>, more: seq<BudgetItem>, est: Estimator)
    requires WithMarker(items, more)
    ensures SacrificeOrder(more, Tokens(more, est)) == ShiftAll(SacrificeOrder(items, Tokens(items, est)))
  {
    var toks, toks2 := Tokens(items, est), Tokens(more, est);
    var order, order2 := SacrificeOrder(items, toks), SacrificeOrder(more, toks2);
    var moved := ShiftAll(order);
    SacrificeOrderIs(items, toks);
    SacrificeOrderIs(more, toks2);
    ShiftedOrdered(items, more, est, order);
    forall i | i in moved ensures i in order2 {
      var k :| 0 <= k < |moved| && moved[k] == i;
      assert order[k] in order && more[i] == items[order[k]];
    }
    forall i | i in order2 ensures i in moved {
      var j := if i == 0 then 0 else i - 1;
      assert i < |more| && items[j] == more[i] && j in order;
      var k :| 0 <= k < |order| && order[k] == j;
      assert moved[k] == i;
    }
    OrderUnique(more, toks2, order2, moved);
  }

  lemma {:induction false} TotalInsert(a: seq<nat>, x: nat, b: seq<nat>)
    ensures Total(a + [x] + b) == Total(a + b) + x
  {
    var id := (n: nat) => n;
    SumByAppend(a + [x], b, id);
    SumByAppend(a, [x], id);
    SumByAppend(a, b, id);
  }

  lemma {:induction false} DroppingShift(toks: seq<nat>, toks2: seq<nat>, order: seq<int>, total: int, limit: int)
    requires forall k :: 0 <= k < |order| ==> TokensAt(toks2, Shift(order[k])) == TokensAt(toks, order[k])
    ensures Dropping(toks2, ShiftAll(order), total, limit) == ShiftAll(Dropping(toks, order, total, limit))
  {
    if !(total <= limit || order == []) {
      assert ShiftAll(order)[1..] == ShiftAll(order[1..]);
      DroppingShift(toks, toks2, order[1..], total - TokensAt(toks, order[0]), limit);
    }
  }

  lemma MarkerRaisesTotal(items: seq<BudgetItem>, more: seq<BudgetItem>, est: Estimator)
    requires WithMarker(items, more)
    ensures Total(Tokens(items, est)) <= Total(Tokens(more, est))
  {
    var toks, toks2 := Tokens(items, est), Tokens(more, est);
    assert toks2 == toks[..1] + [toks2[1]] + toks[1..];
    assert toks == toks[..1] + toks[1..];
    TotalInsert(toks[..1], toks2[1], toks[1..]);
  }

  /**
   * Re-packing with the marker added drops, in the same order, everything the first pack dropped, and
   * possibly more: the marker never hides that something was dropped.
   */
  lemma RepackStillDrops(items: seq<BudgetItem>, more: seq<BudgetItem>, est: Estimator, limit: nat)
    requires WithMarker(items, more)
    ensures ShiftAll(Dropped(items, Tokens(items, est), limit)) <= Dropped(more, Tokens(more, est), limit)
  {
    var toks, toks2 := Tokens(items, est), Tokens(more, est);
    var order := SacrificeOrder(items, toks);
    ShiftKeepsOrder(items, more, est);
    MarkerRaisesTotal(items, more, est);
    DroppingMonotone(toks, order, Total(toks), limit, Total(toks2), limit);
    DroppingShift(toks, toks2, order, Total(toks2), limit);
  }
}
