/** `ContextBudget.pack` as written (context/budget.py), and the caller that packs twice (context/facade.py). */
module Pack {
  import opened Collections
  import opened Budget
  import opened Text

  datatype DroppedItem = DroppedItem(key: string, tier: Tier, tokens: nat)

  datatype PackResult = PackResult(
    kept: seq<BudgetItem>, dropped: seq<DroppedItem>, totalTokens: nat, budgetTokens: nat, overflowed: bool)

  /** (item, target tokens) to a shorter text, or nothing. */
  type SummarizeHook = (BudgetItem, nat) -> Option<string>

  // ---- tiers in the order of sacrifice --------------------------------------------------------

  function TierAt(t: nat): (tier: Tier)
    requires t < 3
    ensures Rank(tier) == 3 - t
  {
    if t == 0 then Opportunistic else if t == 1 then Normal else High
  }

  /** The positions below `n` of a tier that are not gone yet, in input order. */
  function PositionsOf(items: seq<BudgetItem>, tier: Tier, gone: seq<int>, n: nat): (s: seq<int>)
    requires n <= |items|
    ensures InBounds(s, |items|) && Distinct(s)
    ensures forall i :: i in s <==> 0 <= i < n && items[i].tier == tier && i !in gone
  {
    if n == 0 then [] else
      var s := PositionsOf(items, tier, gone, n - 1);
      if items[n - 1].tier == tier && n - 1 !in gone then s + [n - 1] else s
  }

  function Candidates(items: seq<BudgetItem>, toks: seq<nat>, tier: Tier, gone: seq<int>): (s: seq<int>)
    requires |items| == |toks|
    ensures InBounds(s, |items|)
  {
    Sort(items, toks, PositionsOf(items, tier, gone, |items|))
  }

  lemma CandidatesAre(items: seq<BudgetItem>, toks: seq<nat>, tier: Tier, gone: seq<int>)
    requires |items| == |toks|
    ensures var s := Candidates(items, toks, tier, gone);
      && Ordered(items, toks, s)
      && forall i :: i in s <==> 0 <= i < |items| && items[i].tier == tier && i !in gone
  {
    SortOrdered(items, toks, PositionsOf(items, tier, gone, |items|));
  }

  /** The candidates of the sacrificed tiers from `t` on, tier after tier. */
  function TiersFrom(items: seq<BudgetItem>, toks: seq<nat>, t: nat): (s: seq<int>)
    requires |items| == |toks| && t <= 3
    ensures InBounds(s, |items|)
    decreases 3 - t
  {
    if t == 3 then [] else Candidates(items, toks, TierAt(t), []) + TiersFrom(items, toks, t + 1)
  }

  lemma OrderedConcat(items: seq<BudgetItem>, toks: seq<nat>, a: seq<int>, b: seq<int>)
    requires |items| == |toks| && InBounds(a, |items|) && InBounds(b, |items|)
    requires Ordered(items, toks, a) && Ordered(items, toks, b)
    requires forall x, y :: x in a && y in b ==> 0 <= x < |items| && 0 <= y < |items| && Sooner(items, toks, x, y)
    ensures Ordered(items, toks, a + b)
  {
    forall i, j | 0 <= i < j < |a + b| ensures Sooner(items, toks, (a + b)[i], (a + b)[j]) {
      if i < |a| <= j {
        assert a[i] in a && b[j - |a|] in b;
      }
    }
  }

  lemma {:induction false} TiersOrdered(items: seq<BudgetItem>, toks: seq<nat>, t: nat)
    requires |items| == |toks| && t <= 3
    ensures Ordered(items, toks, TiersFrom(items, toks, t))
    ensures forall i :: i in TiersFrom(items, toks, t) <==> 0 <= i < |items| && 1 <= Rank(items[i].tier) <= 3 - t
    decreases 3 - t
  {
    if t < 3 {
      TiersOrdered(items, toks, t + 1);
      var a, b := Candidates(items, toks, TierAt(t), []), TiersFrom(items, toks, t + 1);
      CandidatesAre(items, toks, TierAt(t), []);
      forall i ensures i in a + b <==> 0 <= i < |items| && 1 <= Rank(items[i].tier) <= 3 - t {
        if 0 <= i < |items| && Rank(items[i].tier) == 3 - t {
          assert items[i].tier == TierAt(t);
        }
      }
      OrderedConcat(items, toks, a, b);
    }
  }

  /** Tier after tier, each sorted by itself, is the sacrifice order. */
  lemma TiersMakeTheOrder(items: seq<BudgetItem>, toks: seq<nat>)
    requires |items| == |toks|
    ensures TiersFrom(items, toks, 0) == SacrificeOrder(items, toks)
  {
    TiersOrdered(items, toks, 0);
    SacrificeOrderIs(items, toks);
    OrderUnique(items, toks, TiersFrom(items, toks, 0), SacrificeOrder(items, toks));
  }

  // ---- summaries ------------------------------------------------------------------------------

  /** One must_have item under the hook: replaced by its summary when that is shorter. */
  function SummarizeOne(items: seq<BudgetItem>, est: Estimator, hook: SummarizeHook, limit: nat, i: int, total: int)
    : (r: (seq<BudgetItem>, int))
    requires 0 <= i < |items|
    ensures |r.0| == |items|
  {
    var tokens := est(items[i].text);
    match hook(items[i], Max(1, tokens - (total - limit)))
    case None => (items, total)
    case Some(text) =>
      if est(text) >= tokens then (items, total)
      else (items[i := items[i].(text := text)], total - (tokens - est(text)))
  }

  /** The items after the summarizing pass over the positions `mh`, which stops once the total fits. */
  function Summarize(items: seq<BudgetItem>, est: Estimator, hook: SummarizeHook, limit: nat,
                     mh: seq<int>, total: int): (r: seq<BudgetItem>)
    requires InBounds(mh, |items|)
    ensures |r| == |items|
    decreases |mh|
  {
    if mh == [] || total <= limit then items
    else
      var (next, left) := SummarizeOne(items, est, hook, limit, mh[0], total);
      Summarize(next, est, hook, limit, mh[1..], left)
  }

  /** Only texts of the visited positions change, and only to fewer tokens. */
  predicate Shortened(before: seq<BudgetItem>, after: seq<BudgetItem>, est: Estimator, mh: seq<int>) {
    && |after| == |before|
    && forall i :: 0 <= i < |before| ==>
         && after[i].key == before[i].key && after[i].tier == before[i].tier
         && (after[i] == before[i] || (i in mh && est(after[i].text) < est(before[i].text)))
  }

  lemma {:induction false} SummarizeShortens(items: seq<BudgetItem>, est: Estimator, hook: SummarizeHook,
                                             limit: nat, mh: seq<int>, total: int)
    requires InBounds(mh, |items|)
    ensures Shortened(items, Summarize(items, est, hook, limit, mh, total), est, mh)
    decreases |mh|
  {
    if !(mh == [] || total <= limit) {
      var (next, left) := SummarizeOne(items, est, hook, limit, mh[0], total);
      SummarizeShortens(next, est, hook, limit, mh[1..], left);
    }
  }

  // ---- the result -----------------------------------------------------------------------------

  /** The items below `n` whose position is not in `gone`, in input order. */
  function Keep(items: seq<BudgetItem>, gone: seq<int>, n: nat): seq<BudgetItem>
    requires n <= |items|
  {
    if n == 0 then []
    else Keep(items, gone, n - 1) + if n - 1 in gone then [] else [items[n - 1]]
  }

  function ReportsOf(items: seq<BudgetItem>, toks: seq<nat>, gone: seq<int>): (r: seq<DroppedItem>)
    requires |items| == |toks| && InBounds(gone, |items|)
    ensures |r| == |gone|
  {
    seq(|gone|, k requires 0 <= k < |gone| => DroppedItem(items[gone[k]].key, items[gone[k]].tier, toks[gone[k]]))
  }

  /** The tokens of what is kept. */
  function KeptTokens(items: seq<BudgetItem>, est: Estimator, gone: seq<int>, n: nat): nat
    requires n <= |items|
  {
    if n == 0 then 0
    else KeptTokens(items, est, gone, n - 1) + if n - 1 in gone then 0 else est(items[n - 1].text)
  }

  lemma {:induction false} KeptTokensAfterDrop(items: seq<BudgetItem>, est: Estimator, gone: seq<int>, x: int, n: nat)
    requires n <= |items| && x !in gone && 0 <= x < |items|
    ensures KeptTokens(items, est, gone + [x], n) == KeptTokens(items, est, gone, n) - (if x < n then est(items[x].text) else 0)
  {
    if n > 0 {
      KeptTokensAfterDrop(items, est, gone, x, n - 1);
      assert n - 1 in gone + [x] <==> n - 1 in gone || n - 1 == x;
    }
  }

  /** What is kept weighs what is not dropped. */
  lemma {:induction false} KeptTokensAre(items: seq<BudgetItem>, est: Estimator, gone: seq<int>)
    requires InBounds(gone, |items|) && Distinct(gone)
    ensures KeptTokens(items, est, gone, |items|) == Total(Tokens(items, est)) - SumAt(Tokens(items, est), gone)
  {
    if gone == [] {
      KeptTokensTotal(items, est, |items|);
      assert items[..|items|] == items;
    } else {
      var front, x := gone[..|gone| - 1], gone[|gone| - 1];
      assert gone == front + [x];
      KeptTokensAre(items, est, front);
      KeptTokensAfterDrop(items, est, front, x, |items|);
      SumAtSnoc(Tokens(items, est), front, x);
    }
  }

  lemma {:induction false} SumAtSnoc(toks: seq<nat>, s: seq<int>, x: int)
    ensures SumAt(toks, s + [x]) == SumAt(toks, s) + TokensAt(toks, x)
  {
    if s != [] {
      assert (s + [x])[1..] == s[1..] + [x];
      SumAtSnoc(toks, s[1..], x);
    }
  }

  lemma {:induction false} KeptTokensAfterUpdate(items: seq<BudgetItem>, est: Estimator, gone: seq<int>, x: int, item: BudgetItem, n: nat)
    requires n <= |items| && x !in gone && 0 <= x < |items|
    ensures KeptTokens(items[x := item], est, gone, n)
            == KeptTokens(items, est, gone, n) + (if x < n then est(item.text) - est(items[x].text) else 0)
  {
    if n > 0 {
      KeptTokensAfterUpdate(items, est, gone, x, item, n - 1);
    }
  }

  lemma {:induction false} KeptTokensTotal(items: seq<BudgetItem>, est: Estimator, n: nat)
    requires n <= |items|
    ensures KeptTokens(items, est, [], n) == Total(Tokens(items[..n], est))
  {
    if n > 0 {
      KeptTokensTotal(items, est, n - 1);
      assert Tokens(items[..n], est) == Tokens(items[..n - 1], est) + [est(items[n - 1].text)];
      SumByAppend(Tokens(items[..n - 1], est), [est(items[n - 1].text)], (k: nat) => k);
    } else {
      assert Tokens(items[..0], est) == [];
    }
  }

  lemma {:induction false} KeepMembers(items: seq<BudgetItem>, gone: seq<int>, n: nat)
    requires n <= |items|
    ensures forall it :: it in Keep(items, gone, n) <==> exists i :: 0 <= i < n && i !in gone && items[i] == it
  {
    if n > 0 {
      KeepMembers(items, gone, n - 1);
    }
  }

  // ---- pack -----------------------------------------------------------------------------------

  /** One tier of the dropping phase: candidates in order, until the rest fits. */
  method DropTier(items: seq<BudgetItem>, toks: seq<nat>, limit: nat, tier: Tier, gone: seq<int>, total: int)
    returns (gone': seq<int>, total': int)
    requires |items| == |toks|
    ensures (gone', total') == Follow(toks, Candidates(items, toks, tier, gone), limit, gone, total)
  {
    var candidates := Candidates(items, toks, tier, gone);
    gone', total' := gone, total;
    for k := 0 to |candidates|
      invariant Follow(toks, candidates[k..], limit, gone', total') == Follow(toks, candidates, limit, gone, total)
    {
      if total' <= limit {
        return;
      }
      assert candidates[k..][1..] == candidates[k + 1..];
      gone' := gone' + [candidates[k]];
      total' := total' - toks[candidates[k]];
    }
  }

  predicate RanksAbove(items: seq<BudgetItem>, gone: seq<int>, r: int) {
    forall k :: 0 <= k < |gone| ==> 0 <= gone[k] < |items| && Rank(items[gone[k]].tier) > r
  }

  /** When its turn comes, no item of a tier has been dropped yet. */
  lemma TierStillThere(items: seq<BudgetItem>, toks: seq<nat>, t: nat, gone: seq<int>)
    requires |items| == |toks| && t < 3
    requires RanksAbove(items, gone, 3 - t)
    ensures Candidates(items, toks, TierAt(t), gone) == Candidates(items, toks, TierAt(t), [])
  {
    CandidatesAre(items, toks, TierAt(t), gone);
    CandidatesAre(items, toks, TierAt(t), []);
    OrderUnique(items, toks, Candidates(items, toks, TierAt(t), gone), Candidates(items, toks, TierAt(t), []));
  }

  lemma {:induction false} FollowRanks(items: seq<BudgetItem>, toks: seq<nat>, order: seq<int>, limit: int,
                                       gone: seq<int>, total: int, r: int)
    requires RanksAbove(items, gone, r) && RanksAbove(items, order, r)
    ensures RanksAbove(items, Follow(toks, order, limit, gone, total).0, r)
    decreases |order|
  {
    if !(total <= limit || order == []) {
      FollowRanks(items, toks, order[1..], limit, gone + [order[0]], total - TokensAt(toks, order[0]), r);
    }
  }

  lemma TierRanks(items: seq<BudgetItem>, toks: seq<nat>, t: nat, limit: int, gone: seq<int>, total: int)
    requires |items| == |toks| && t < 3 && RanksAbove(items, gone, 3 - t)
    ensures RanksAbove(items, Follow(toks, Candidates(items, toks, TierAt(t), []), limit, gone, total).0, 3 - (t + 1))
  {
    var c := Candidates(items, toks, TierAt(t), []);
    CandidatesAre(items, toks, TierAt(t), []);
    forall k | 0 <= k < |c| ensures Rank(items[c[k]].tier) == 3 - t {
      assert c[k] in c;
    }
    FollowRanks(items, toks, c, limit, gone, total, 3 - (t + 1));
  }

  /** After one tier the rest of the order leads where all of it would have led. */
  lemma TierDone(items: seq<BudgetItem>, toks: seq<nat>, t: nat, limit: int, gone: seq<int>, total: int)
    requires |items| == |toks| && t < 3 && RanksAbove(items, gone, 3 - t)
    ensures var (gone', total') := Follow(toks, Candidates(items, toks, TierAt(t), gone), limit, gone, total);
      && RanksAbove(items, gone', 3 - (t + 1))
      && Follow(toks, TiersFrom(items, toks, t + 1), limit, gone', total')
         == Follow(toks, TiersFrom(items, toks, t), limit, gone, total)
  {
    TierStillThere(items, toks, t, gone);
    TierRanks(items, toks, t, limit, gone, total);
    FollowConcat(toks, Candidates(items, toks, TierAt(t), []), TiersFrom(items, toks, t + 1), limit, gone, total);
  }

  /** The dropping phase, lowest tier first: it drops exactly what the specification drops. */
  method DropPhase(items: seq<BudgetItem>, toks: seq<nat>, limit: nat) returns (gone: seq<int>, total: int)
    requires |items| == |toks|
    ensures gone == Dropped(items, toks, limit) && total == Total(toks) - SumAt(toks, gone)
  {
    gone, total := [], Total(toks);
    ghost var all := TiersFrom(items, toks, 0);
    for t := 0 to 3
      invariant RanksAbove(items, gone, 3 - t)
      invariant Follow(toks, TiersFrom(items, toks, t), limit, gone, total) == Follow(toks, all, limit, [], Total(toks))
    {
      if total <= limit {
        break;
      }
      TierDone(items, toks, t, limit, gone, total);
      gone, total := DropTier(items, toks, limit, TierAt(t), gone, total);
    }
    TiersMakeTheOrder(items, toks);
    FollowIsDropping(toks, all, limit, [], Total(toks));
  }

  /** The running total stays the tokens of what is kept. */
  lemma SummarizeOneTotal(items: seq<BudgetItem>, est: Estimator, hook: SummarizeHook, limit: nat, i: int,
                          gone: seq<int>, total: int)
    requires 0 <= i < |items| && i !in gone && total == KeptTokens(items, est, gone, |items|)
    ensures var (next, left) := SummarizeOne(items, est, hook, limit, i, total);
      left == KeptTokens(next, est, gone, |items|)
  {
    var answer := hook(items[i], Max(1, est(items[i].text) - (total - limit)));
    if answer.Some? {
      KeptTokensAfterUpdate(items, est, gone, i, items[i].(text := answer.value), |items|);
    }
  }

  /** The summarizing pass over the must_have positions `mh`, largest first. */
  method SummarizePhase(items: seq<BudgetItem>, est: Estimator, hook: SummarizeHook, limit: nat,
                        gone: seq<int>, mh: seq<int>, total: int) returns (items': seq<BudgetItem>, total': int)
    requires total == KeptTokens(items, est, gone, |items|) && InBounds(mh, |items|)
    requires forall i :: i in mh ==> i !in gone
    ensures items' == Summarize(items, est, hook, limit, mh, total)
    ensures total' == KeptTokens(items', est, gone, |items'|)
  {
    items', total' := items, total;
    for k := 0 to |mh|
      invariant |items'| == |items| && InBounds(mh[k..], |items|)
      invariant total' == KeptTokens(items', est, gone, |items'|)
      invariant Summarize(items', est, hook, limit, mh[k..], total') == Summarize(items, est, hook, limit, mh, total)
    {
      if total' <= limit {
        return;
      }
      assert mh[k] in mh && mh[k..][1..] == mh[k + 1..];
      SummarizeOneTotal(items', est, hook, limit, mh[k], gone, total');
      var (next, left) := SummarizeOne(items', est, hook, limit, mh[k], total');
      items', total' := next, left;
    }
  }

  /** The items once the dropping phase has left `gone` out and summaries have been tried on an overflow. */
  function AfterSummaries(items: seq<BudgetItem>, est: Estimator, hook: Option<SummarizeHook>, limit: nat,
                          gone: seq<int>): (r: seq<BudgetItem>)
    ensures |r| == |items|
  {
    var total := KeptTokens(items, est, gone, |items|);
    if total <= limit || hook.None? then items
    else Summarize(items, est, hook.value, limit, Candidates(items, Tokens(items, est), MustHave, gone), total)
  }

  /** What `pack` returns. */
  function Packed(items: seq<BudgetItem>, est: Estimator, hook: Option<SummarizeHook>, limit: nat): PackResult {
    PackSpec(items, Tokens(items, est), limit);
    var gone := Dropped(items, Tokens(items, est), limit);
    var after := AfterSummaries(items, est, hook, limit, gone);
    var total := KeptTokens(after, est, gone, |after|);
    PackResult(Keep(after, gone, |after|), ReportsOf(items, Tokens(items, est), gone), total, limit, total > limit)
  }

  method PackItems(items: seq<BudgetItem>, est: Estimator, hook: Option<SummarizeHook>, limit: nat)
    returns (r: PackResult)
    ensures r == Packed(items, est, hook, limit)
  {
    var toks := Tokens(items, est);
    var gone, total := DropPhase(items, toks, limit);
    PackSpec(items, toks, limit);
    KeptTokensAre(items, est, gone);
    var kept := items;
    if total > limit && hook.Some? {
      var mh := Candidates(items, toks, MustHave, gone);
      CandidatesAre(items, toks, MustHave, gone);
      kept, total := SummarizePhase(items, est, hook.value, limit, gone, mh, total);
    }
    r := PackResult(Keep(kept, gone, |items|), ReportsOf(items, toks, gone), total, limit, total > limit);
  }

  /** What is kept is never dropped, keeps its key and tier, and only a must_have item may have become shorter. */
  lemma SummariesOnlyShorten(items: seq<BudgetItem>, est: Estimator, hook: Option<SummarizeHook>, limit: nat,
                             gone: seq<int>)
    ensures var after := AfterSummaries(items, est, hook, limit, gone);
      && (hook.None? ==> after == items)
      && forall i :: 0 <= i < |items| ==>
           && after[i].key == items[i].key && after[i].tier == items[i].tier
           && (after[i] != items[i] ==> items[i].tier == MustHave && est(after[i].text) < est(items[i].text))
  {
    var total := KeptTokens(items, est, gone, |items|);
    if !(total <= limit || hook.None?) {
      var mh := Candidates(items, Tokens(items, est), MustHave, gone);
      CandidatesAre(items, Tokens(items, est), MustHave, gone);
      SummarizeShortens(items, est, hook.value, limit, mh, total);
    }
  }

  /** `pack` overflows only when it keeps must_have items alone. */
  lemma OverflowLeavesMustHave(items: seq<BudgetItem>, est: Estimator, hook: Option<SummarizeHook>, limit: nat)
    ensures var r := Packed(items, est, hook, limit);
      && (r.overflowed <==> r.totalTokens > limit)
      && (r.overflowed ==> forall it :: it in r.kept ==> it.tier == MustHave)
  {
    var toks := Tokens(items, est);
    var gone := Dropped(items, toks, limit);
    var after := AfterSummaries(items, est, hook, limit, gone);
    PackSpec(items, toks, limit);
    SacrificeOrderIs(items, toks);
    SummariesOnlyShorten(items, est, hook, limit, gone);
    KeptTokensAre(items, est, gone);
    SummariesNeverRaise(items, est, after, gone, |items|);
    KeepMembers(after, gone, |items|);
  }

  lemma {:induction false} SummariesNeverRaise(items: seq<BudgetItem>, est: Estimator, after: seq<BudgetItem>,
                                               gone: seq<int>, n: nat)
    requires n <= |items| == |after|
    requires forall i :: 0 <= i < |items| ==> est(after[i].text) <= est(items[i].text)
    ensures KeptTokens(after, est, gone, n) <= KeptTokens(items, est, gone, n)
  {
    if n > 0 {
      SummariesNeverRaise(items, est, after, gone, n - 1);
    }
  }

  /** The kept items are in input order: what is not gone stands right after those kept before it. */
  lemma {:induction false} KeepIsSubsequence(items: seq<BudgetItem>, gone: seq<int>, n: nat, i: nat)
    requires i < n <= |items| && i !in gone
    ensures |Keep(items, gone, i)| < |Keep(items, gone, n)|
    ensures Keep(items, gone, n)[|Keep(items, gone, i)|] == items[i]
  {
    if i < n - 1 {
      KeepIsSubsequence(items, gone, n - 1, i);
    }
  }

  // ---- packing twice ----------------------------------------------------------------------------

  /** The message must stay; whatever is attached is of high importance. */
  function MessageItems(message: string, attached: seq<(string, string)>): (items: seq<BudgetItem>)
    ensures |items| == 1 + |attached| && items[0].tier == MustHave
  {
    [BudgetItem("user_message", message, MustHave)]
    + seq(|attached|, k requires 0 <= k < |attached| => BudgetItem(attached[k].0, attached[k].1, High))
  }

  function Marked(items: seq<BudgetItem>, marker: string): (more: seq<BudgetItem>)
    requires items != []
    ensures WithMarker(items, more) && more[1] == BudgetItem("attached_drop_marker", marker, MustHave)
  {
    [items[0], BudgetItem("attached_drop_marker", marker, MustHave)] + items[1..]
  }

  function Texts(kept: seq<BudgetItem>): seq<string> {
    seq(|kept|, k requires 0 <= k < |kept| => kept[k].text)
  }

  function Keys(dropped: seq<DroppedItem>): (r: seq<string>)
    ensures |r| == |dropped|
  {
    seq(|dropped|, k requires 0 <= k < |dropped| => dropped[k].key)
  }

  /** What is packed in the end: with the marker exactly when the message and the attachments do not fit. */
  function FinalItems(message: string, attached: seq<(string, string)>, marker: string, est: Estimator, limit: nat)
    : (items: seq<BudgetItem>)
    ensures items != [] && items[0] == MessageItems(message, attached)[0]
  {
    var items := MessageItems(message, attached);
    if Dropped(items, Tokens(items, est), limit) == [] then items else Marked(items, marker)
  }

  /** The packing of `gather_message_context`: the text sent and the keys reported as dropped. */
  method PackMessage(message: string, attached: seq<(string, string)>, marker: string, est: Estimator,
                     hook: Option<SummarizeHook>, limit: nat)
    returns (text: string, droppedAttached: seq<string>)
    ensures attached == [] ==> text == message && droppedAttached == []
    ensures attached != [] ==>
      var r := Packed(FinalItems(message, attached, marker, est, limit), est, hook, limit);
      text == Join("\n\n", Texts(r.kept)) && droppedAttached == Keys(r.dropped)
  {
    text, droppedAttached := message, [];
    if attached != [] {
      var items := MessageItems(message, attached);
      var result := PackItems(items, est, hook, limit);
      if result.dropped != [] {
        items := Marked(items, marker);
        result := PackItems(items, est, hook, limit);
      }
      text, droppedAttached := Join("\n\n", Texts(result.kept)), Keys(result.dropped);
    }
  }

  /**
   * The marker is shown exactly when something is reported as dropped, and that is exactly when the message
   * and the attachments together exceed the budget.
   */
  lemma MarkerIffDropped(message: string, attached: seq<(string, string)>, marker: string, est: Estimator,
                         hook: Option<SummarizeHook>, limit: nat)
    requires attached != []
    ensures var items := MessageItems(message, attached);
      var final := FinalItems(message, attached, marker, est, limit);
      && (final == Marked(items, marker) <==> Packed(final, est, hook, limit).dropped != [])
      && (final == Marked(items, marker) <==> Total(Tokens(items, est)) > limit)
      && (final == items || final == Marked(items, marker))
  {
    var items := MessageItems(message, attached);
    DropsIffOver(items, Tokens(items, est), limit);
    if Total(Tokens(items, est)) > limit {
      var more := Marked(items, marker);
      RepackStillDrops(items, more, est, limit);
      assert |Dropped(more, Tokens(more, est), limit)| > 0;
    }
    assert |Marked(items, marker)| != |items|;
  }

  /** Something is dropped exactly when something can be and the total is over the limit. */
  lemma DropsIffOver(items: seq<BudgetItem>, toks: seq<nat>, limit: nat)
    requires |items| == |toks| >= 2 && items[1].tier != MustHave
    ensures Dropped(items, toks, limit) != [] <==> Total(toks) > limit
  {
    SacrificeOrderIs(items, toks);
    assert 1 in SacrificeOrder(items, toks);
  }

  /** The reports of shifted positions begin with those of the positions. */
  lemma ReportsShift(items: seq<BudgetItem>, more: seq<BudgetItem>, est: Estimator, first: seq<int>, second: seq<int>)
    requires WithMarker(items, more) && InBounds(first, |items|) && InBounds(second, |more|)
    requires |first| <= |second| && forall k :: 0 <= k < |first| ==> second[k] == Shift(first[k])
    ensures ReportsOf(items, Tokens(items, est), first) <= ReportsOf(more, Tokens(more, est), second)
  {
    var a, b := ReportsOf(items, Tokens(items, est), first), ReportsOf(more, Tokens(more, est), second);
    forall k | 0 <= k < |a| ensures a[k] == b[k] {
      assert first[k] in first && second[k] in second;
      assert more[second[k]] == items[first[k]];
    }
  }

  lemma ShiftedPrefix(first: seq<int>, second: seq<int>)
    requires ShiftAll(first) <= second
    ensures |first| <= |second| && forall k :: 0 <= k < |first| ==> second[k] == Shift(first[k])
  {
    forall k | 0 <= k < |first| ensures second[k] == Shift(first[k]) {
      assert ShiftAll(first)[k] == second[k];
    }
  }

  /** Every attachment the first pack gave up is reported by the second one, in the same order. */
  lemma SecondPackReportsFirst(items: seq<BudgetItem>, marker: string, est: Estimator,
                               hook: Option<SummarizeHook>, limit: nat)
    requires items != []
    ensures Packed(items, est, hook, limit).dropped <= Packed(Marked(items, marker), est, hook, limit).dropped
  {
    var more := Marked(items, marker);
    RepackStillDrops(items, more, est, limit);
    PackSpec(items, Tokens(items, est), limit);
    PackSpec(more, Tokens(more, est), limit);
    var first, second := Dropped(items, Tokens(items, est), limit), Dropped(more, Tokens(more, est), limit);
    ShiftedPrefix(first, second);
    ReportsShift(items, more, est, first, second);
  }

  /** The message opens the text sent, followed by the marker when there is one. */
  lemma MessageOpensText(message: string, attached: seq<(string, string)>, marker: string, est: Estimator, limit: nat)
    requires attached != []
    ensures var final := FinalItems(message, attached, marker, est, limit);
      var kept := Packed(final, est, None, limit).kept;
      && 1 <= |kept| && kept[0].text == message
      && (Total(Tokens(MessageItems(message, attached), est)) > limit ==> 2 <= |kept| && kept[1].text == marker)
  {
    var items := MessageItems(message, attached);
    var final := FinalItems(message, attached, marker, est, limit);
    MarkerIffDropped(message, attached, marker, est, None, limit);
    var gone := Dropped(final, Tokens(final, est), limit);
    PackSpec(final, Tokens(final, est), limit);
    SummariesOnlyShorten(final, est, None, limit, gone);
    KeepIsSubsequence(final, gone, |final|, 0);
    if Total(Tokens(items, est)) > limit {
      KeepIsSubsequence(final, gone, |final|, 1);
    }
    assert Keep(final, gone, 0) == [];
    assert Keep(final, gone, 1) == [final[0]];
  }
}
