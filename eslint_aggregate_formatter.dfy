/**
 * The ESLint aggregate formatter: counts the reported messages per rule id
 * in a `Map`, counts all of them in `totalErrors`, and sorts the
 * (rule, count) pairs by count, most frequent first, ties by rule id.
 * Printing the pairs and the total is left out; the method returns them.
 */
module EslintAggregate {
  import opened Lists

  datatype Message = Message(ruleId: string)

  /** One file's result: the messages ESLint reported for it. */
  datatype LintResult = LintResult(messages: seq<Message>)

  /** An entry of `Array.from(errorsPerRule)`: `[ruleId, count]`. */
  datatype Pair = Pair(ruleId: string, count: int)

  function RuleOf(p: Pair): string { p.ruleId }

  // ---------------------------------------------------------------------
  // Specification: what is counted
  // ---------------------------------------------------------------------

  function MessageRuleIds(messages: seq<Message>): (ids: seq<string>)
    ensures |ids| == |messages|
    ensures forall i :: 0 <= i < |messages| ==> ids[i] == messages[i].ruleId
  {
    seq(|messages|, i requires 0 <= i < |messages| => messages[i].ruleId)
  }

  /** The rule ids of all messages, file by file, in the order they are visited. */
  function RuleIds(results: seq<LintResult>): seq<string>
    decreases |results|
  {
    if results == [] then []
    else RuleIds(results[..|results| - 1]) + MessageRuleIds(results[|results| - 1].messages)
  }

  /** How many of `ids` are `rule`. */
  function Occurrences(ids: seq<string>, rule: string): nat
    decreases |ids|
  {
    if ids == [] then 0
    else Occurrences(ids[..|ids| - 1], rule) + (if ids[|ids| - 1] == rule then 1 else 0)
  }

  /** A rule is counted at least once exactly when some message carries it. */
  lemma {:induction false} OccurrencesPositive(ids: seq<string>, rule: string)
    ensures 0 < Occurrences(ids, rule) <==> rule in ids
    decreases |ids|
  {
    if ids != [] {
      var init := ids[..|ids| - 1];
      OccurrencesPositive(init, rule);
      assert ids == init + [ids[|ids| - 1]];
    }
  }

  /** One pair per key of `keys`, counting its occurrences in `ids`. */
  function TallyOf(keys: seq<string>, ids: seq<string>): (pairs: seq<Pair>)
    ensures |pairs| == |keys|
    ensures forall i :: 0 <= i < |keys| ==> pairs[i] == Pair(keys[i], Occurrences(ids, keys[i]))
  {
    seq(|keys|, i requires 0 <= i < |keys| => Pair(keys[i], Occurrences(ids, keys[i])))
  }

  /**
   * `Array.from(errorsPerRule)` once every id of `ids` was counted: one pair
   * per rule id, in the order the rule ids first occur (a `Map` iterates
   * its keys in insertion order).
   */
  function Tally(ids: seq<string>): seq<Pair> {
    TallyOf(UniqBy(ids, Id), ids)
  }

  function SumCounts(pairs: seq<Pair>): int
    decreases |pairs|
  {
    if pairs == [] then 0 else SumCounts(pairs[..|pairs| - 1]) + pairs[|pairs| - 1].count
  }

  lemma {:induction false} TallyOfSnocKey(keys: seq<string>, k: string, ids: seq<string>)
    ensures TallyOf(keys + [k], ids) == TallyOf(keys, ids) + [Pair(k, Occurrences(ids, k))]
  {
  }

  /** Counting one more id adds one to the sum over any duplicate-free keys that include it. */
  lemma {:induction false} TallyOfSumSnocId(keys: seq<string>, ids: seq<string>, x: string)
    requires DistinctKeys(keys, Id)
    ensures SumCounts(TallyOf(keys, ids + [x])) == SumCounts(TallyOf(keys, ids)) + (if x in keys then 1 else 0)
    decreases |keys|
  {
    if keys != [] {
      var init := keys[..|keys| - 1];
      var k := keys[|keys| - 1];
      assert keys == init + [k];
      assert DistinctKeys(init, Id) by {
        forall i, j | 0 <= i < j < |init| ensures Id(init[i]) != Id(init[j]) {
          assert Id(keys[i]) != Id(keys[j]);
        }
      }
      assert k !in init;
      TallyOfSumSnocId(init, ids, x);
      TallyOfSnocKey(init, k, ids + [x]);
      TallyOfSnocKey(init, k, ids);
      var t := TallyOf(keys, ids + [x]);
      assert t[..|t| - 1] == TallyOf(init, ids + [x]);
      var t' := TallyOf(keys, ids);
      assert t'[..|t'| - 1] == TallyOf(init, ids);
      assert (ids + [x])[..|ids + [x]| - 1] == ids;
    }
  }

  /** Summing the counts over duplicate-free keys that cover every id gives the number of ids. */
  lemma {:induction false} TallyOfSum(keys: seq<string>, ids: seq<string>)
    requires DistinctKeys(keys, Id)
    requires forall x :: x in ids ==> x in keys
    ensures SumCounts(TallyOf(keys, ids)) == |ids|
    decreases |ids|
  {
    if ids == [] {
      var t := TallyOf(keys, ids);
      assert forall i :: 0 <= i < |t| ==> t[i].count == 0;
      ZeroCountsSum(t);
    } else {
      var init := ids[..|ids| - 1];
      var x := ids[|ids| - 1];
      assert ids == init + [x];
      TallyOfSum(keys, init);
      TallyOfSumSnocId(keys, init, x);
    }
  }

  lemma {:induction false} ZeroCountsSum(pairs: seq<Pair>)
    requires forall i :: 0 <= i < |pairs| ==> pairs[i].count == 0
    ensures SumCounts(pairs) == 0
    decreases |pairs|
  {
    if pairs != [] {
      ZeroCountsSum(pairs[..|pairs| - 1]);
    }
  }

  /** The per-rule counts add up to the number of messages. */
  lemma TallySum(ids: seq<string>)
    ensures SumCounts(Tally(ids)) == |ids|
  {
    var keys := UniqBy(ids, Id);
    forall x | x in ids ensures x in keys {
      var i :| 0 <= i < |ids| && ids[i] == x;
      assert Id(ids[i]) == x;
      assert HasKey(ids, Id, x);
    }
    TallyOfSum(keys, ids);
  }

  /** Each pair of the tally counts its rule's occurrences, at least one, and no rule twice. */
  lemma TallyEntries(ids: seq<string>)
    ensures forall p :: p in Tally(ids) ==> p.ruleId in ids && p.count == Occurrences(ids, p.ruleId) && 1 <= p.count
    ensures forall rule :: rule in ids <==> HasKey(Tally(ids), RuleOf, rule)
    ensures DistinctKeys(Tally(ids), RuleOf)
  {
    var keys := UniqBy(ids, Id);
    var t := Tally(ids);
    forall p | p in t ensures p.ruleId in ids && p.count == Occurrences(ids, p.ruleId) && 1 <= p.count {
      var i :| 0 <= i < |t| && t[i] == p;
      OccurrencesPositive(ids, p.ruleId);
    }
    forall rule ensures rule in ids <==> HasKey(t, RuleOf, rule) {
      if rule in ids {
        var i :| 0 <= i < |ids| && ids[i] == rule;
        assert Id(ids[i]) == rule;
        assert HasKey(keys, Id, rule);
        var j :| 0 <= j < |keys| && Id(keys[j]) == rule;
        assert RuleOf(t[j]) == rule;
      }
    }
    forall i, j | 0 <= i < j < |t| ensures RuleOf(t[i]) != RuleOf(t[j]) {
      assert Id(keys[i]) != Id(keys[j]);
    }
  }

  // ---------------------------------------------------------------------
  // The comparator
  // ---------------------------------------------------------------------

  /** `a.localeCompare(b)`, read as plain lexicographic order on characters. */
  function LocaleCompare(a: string, b: string): (r: int)
    ensures -1 <= r <= 1
    decreases |a|
  {
    if a == [] && b == [] then 0
    else if a == [] then -1
    else if b == [] then 1
    else if a[0] < b[0] then -1
    else if a[0] > b[0] then 1
    else LocaleCompare(a[1..], b[1..])
  }

  /** Lexicographic order is antisymmetric and compares equal only on equal strings. */
  lemma {:induction false} LocaleCompareAntisymmetric(a: string, b: string)
    ensures LocaleCompare(a, b) == -LocaleCompare(b, a)
    ensures LocaleCompare(a, b) == 0 <==> a == b
    decreases |a|
  {
    if a != [] && b != [] && a[0] == b[0] {
      LocaleCompareAntisymmetric(a[1..], b[1..]);
      if a[1..] == b[1..] {
        assert a == [a[0]] + a[1..] && b == [b[0]] + b[1..];
      }
    }
  }

  lemma {:induction false} LocaleCompareTransitive(a: string, b: string, c: string)
    requires LocaleCompare(a, b) <= 0 && LocaleCompare(b, c) <= 0
    ensures LocaleCompare(a, c) <= 0
    decreases |a|
  {
    if a != [] && b != [] && c != [] && a[0] == b[0] == c[0] {
      LocaleCompareTransitive(a[1..], b[1..], c[1..]);
    }
  }

  /** The comparator given to `pairs.sort`: negative when `p` belongs before `q`. */
  function Compare(p: Pair, q: Pair): int {
    var countDiff := q.count - p.count;
    if countDiff != 0 then countDiff else LocaleCompare(p.ruleId, q.ruleId)
  }

  lemma CompareTotal(p: Pair, q: Pair)
    ensures Compare(p, q) <= 0 || Compare(q, p) <= 0
    ensures Compare(p, q) <= 0 && Compare(q, p) <= 0 ==> p == q
  {
    LocaleCompareAntisymmetric(p.ruleId, q.ruleId);
  }

  lemma CompareTransitive(p: Pair, q: Pair, s: Pair)
    requires Compare(p, q) <= 0 && Compare(q, s) <= 0
    ensures Compare(p, s) <= 0
  {
    if p.count == q.count == s.count {
      LocaleCompareTransitive(p.ruleId, q.ruleId, s.ruleId);
    }
  }

  /** No pair is placed after one the comparator puts behind it. */
  ghost predicate Sorted(s: seq<Pair>) {
    forall i, j :: 0 <= i < j < |s| ==> Compare(s[i], s[j]) <= 0
  }

  // ---------------------------------------------------------------------
  // Sorting the pairs (`Array.prototype.sort` with the comparator)
  // ---------------------------------------------------------------------

  /** The first `n` pairs of `s` are in comparator order. */
  ghost predicate SortedPrefix(s: seq<Pair>, n: nat)
    requires n <= |s|
  {
    forall i, j :: 0 <= i < j < n ==> Compare(s[i], s[j]) <= 0
  }

  method Swap(a: array<Pair>, i: nat, j: nat)
    requires i < j < a.Length
    modifies a
    ensures a[..] == old(a[..])[i := old(a[j])][j := old(a[i])]
    ensures multiset(a[..]) == old(multiset(a[..]))
  {
    a[i], a[j] := a[j], a[i];
  }

  /**
   * While `InsertLast` sinks the pair at `j`: the first `i + 1` pairs are in
   * order once the one at `j` is left out, and that one belongs before all
   * pairs after it.
   */
  ghost predicate Sinking(s: seq<Pair>, i: nat, j: nat) {
    && j <= i < |s|
    && (forall k, l :: 0 <= k < l <= i && k != j && l != j ==> Compare(s[k], s[l]) <= 0)
    && (forall l :: j < l <= i ==> Compare(s[j], s[l]) <= 0)
  }

  lemma SinkingStart(s: seq<Pair>, i: nat)
    requires i < |s| && SortedPrefix(s, i)
    ensures Sinking(s, i, i)
  {
  }

  lemma SinkingStep(s: seq<Pair>, i: nat, j: nat)
    requires Sinking(s, i, j) && 0 < j && Compare(s[j - 1], s[j]) > 0
    ensures Sinking(s[j - 1 := s[j]][j := s[j - 1]], i, j - 1)
  {
    CompareTotal(s[j - 1], s[j]);
  }

  lemma SinkingDone(s: seq<Pair>, i: nat, j: nat)
    requires Sinking(s, i, j) && (j == 0 || Compare(s[j - 1], s[j]) <= 0)
    ensures SortedPrefix(s, i + 1)
  {
    forall k | 0 <= k < j
      ensures Compare(s[k], s[j]) <= 0
    {
      if k < j - 1 {
        CompareTransitive(s[k], s[j - 1], s[j]);
      }
    }
  }

  /** Moves `a[i]` down into the sorted prefix `a[..i]`, swapping it past every pair it belongs before. */
  method InsertLast(a: array<Pair>, i: nat)
    requires i < a.Length
    requires SortedPrefix(a[..], i)
    modifies a
    ensures SortedPrefix(a[..], i + 1)
    ensures multiset(a[..]) == old(multiset(a[..]))
    ensures forall k :: i < k < a.Length ==> a[k] == old(a[k])
  {
    var j: nat := i;
    SinkingStart(a[..], i);
    while 0 < j && Compare(a[j - 1], a[j]) > 0
      invariant Sinking(a[..], i, j)
      invariant multiset(a[..]) == old(multiset(a[..]))
      invariant forall k :: i < k < a.Length ==> a[k] == old(a[k])
    {
      SinkingStep(a[..], i, j);
      Swap(a, j - 1, j);
      j := j - 1;
    }
    SinkingDone(a[..], i, j);
  }

  /**
   * `pairs.sort(comparator)` in place. The engine's algorithm is not
   * specified; this is insertion sort, and `SortedPermutationUnique` shows
   * that every sort with this comparator produces the same array here.
   */
  method SortPairs(a: array<Pair>)
    modifies a
    ensures Sorted(a[..])
    ensures multiset(a[..]) == old(multiset(a[..]))
  {
    var i := 0;
    while i < a.Length
      invariant 0 <= i <= a.Length
      invariant SortedPrefix(a[..], i)
      invariant multiset(a[..]) == old(multiset(a[..]))
    {
      InsertLast(a, i);
      i := i + 1;
    }
  }

  // ---------------------------------------------------------------------
  // What sorting keeps
  // ---------------------------------------------------------------------

  lemma {:induction false} SumCountsAppend(s: seq<Pair>, t: seq<Pair>)
    ensures SumCounts(s + t) == SumCounts(s) + SumCounts(t)
    decreases |t|
  {
    if t == [] {
      assert s + t == s;
    } else {
      SumCountsAppend(s, t[..|t| - 1]);
      assert (s + t)[..|s + t| - 1] == s + t[..|t| - 1];
    }
  }

  /** Taking one pair out of a sequence takes its count out of the sum. */
  lemma MultisetRemove(t: seq<Pair>, i: nat)
    requires i < |t|
    ensures multiset(t) == multiset(t[..i] + t[i + 1..]) + multiset{t[i]}
  {
    assert t == t[..i] + [t[i]] + t[i + 1..];
  }

  lemma SumCountsRemove(t: seq<Pair>, i: nat)
    requires i < |t|
    ensures SumCounts(t) == SumCounts(t[..i] + t[i + 1..]) + t[i].count
  {
    var a, x, b := t[..i], t[i], t[i + 1..];
    assert t[i..] == [x] + b;
    assert t == a + t[i..];
    SumCountsSplit(a, x, b);
  }

  lemma SumCountsSplit(a: seq<Pair>, x: Pair, b: seq<Pair>)
    ensures SumCounts(a + ([x] + b)) == SumCounts(a + b) + x.count
  {
    SumCountsAppend(a, [x] + b);
    SumCountsAppend(a, b);
    SumCountsAppend([x], b);
    assert [x][..0] == [];
  }

  /** Reordering the pairs does not change the sum of their counts. */
  lemma {:induction false} SumCountsPermutation(s: seq<Pair>, t: seq<Pair>)
    requires multiset(s) == multiset(t)
    ensures SumCounts(s) == SumCounts(t)
    decreases |s|
  {
    if s == [] {
      assert |t| == |multiset(t)| == 0;
    } else {
      var init := s[..|s| - 1];
      var x := s[|s| - 1];
      assert s == init + [x];
      assert multiset(s) == multiset(init) + multiset{x};
      assert x in multiset(t);
      var i :| 0 <= i < |t| && t[i] == x;
      var rest := t[..i] + t[i + 1..];
      MultisetRemove(t, i);
      SumCountsRemove(t, i);
      assert multiset(init) == multiset(s) - multiset{x};
      assert multiset(rest) == multiset(t) - multiset{x};
      SumCountsPermutation(init, rest);
    }
  }

  lemma {:induction false} DistinctRulesOccurOnce(s: seq<Pair>, x: Pair)
    requires DistinctKeys(s, RuleOf)
    ensures multiset(s)[x] <= 1
    decreases |s|
  {
    if s != [] {
      var init := s[..|s| - 1];
      var y := s[|s| - 1];
      assert s == init + [y];
      assert DistinctKeys(init, RuleOf) by {
        forall i, j | 0 <= i < j < |init| ensures RuleOf(init[i]) != RuleOf(init[j]) {
          assert RuleOf(s[i]) != RuleOf(s[j]);
        }
      }
      DistinctRulesOccurOnce(init, x);
      if y == x {
        assert x !in init by {
          forall i | 0 <= i < |init| ensures init[i] != x {
            assert RuleOf(s[i]) != RuleOf(s[|s| - 1]);
          }
        }
      }
    }
  }

  /** A reordering of the tally still has one pair per rule id. */
  lemma PermutationOfTallyDistinct(pairs: seq<Pair>, ids: seq<string>)
    requires multiset(pairs) == multiset(Tally(ids))
    ensures DistinctKeys(pairs, RuleOf)
  {
    TallyEntries(ids);
    forall i, j | 0 <= i < j < |pairs| ensures RuleOf(pairs[i]) != RuleOf(pairs[j]) {
      if RuleOf(pairs[i]) == RuleOf(pairs[j]) {
        assert pairs[i] in multiset(Tally(ids)) && pairs[j] in multiset(Tally(ids));
        var x := pairs[i];
        assert pairs == pairs[..j] + pairs[j..];
        assert x in pairs[..j] && pairs[j] in pairs[j..];
        assert multiset(pairs)[x] == multiset(pairs[..j])[x] + multiset(pairs[j..])[x];
        DistinctRulesOccurOnce(Tally(ids), x);
      }
    }
  }

  /**
   * The comparator orders all pairs strictly, so two sorted arrangements of
   * the same pairs are the same: the result does not depend on the sorting
   * algorithm.
   */
  lemma {:induction false} SortedPermutationUnique(s: seq<Pair>, t: seq<Pair>)
    requires Sorted(s) && Sorted(t) && multiset(s) == multiset(t)
    ensures s == t
    decreases |s|
  {
    if s == [] {
      assert |t| == |multiset(t)| == 0;
    } else {
      assert t != [] by {
        assert |t| == |multiset(t)| == |multiset(s)| == |s|;
      }
      SortedHeadsEqual(s, t);
      MultisetTail(s);
      MultisetTail(t);
      SortedPermutationUnique(s[1..], t[1..]);
      assert s == [s[0]] + s[1..] && t == [t[0]] + t[1..];
    }
  }

  /** Two sorted arrangements of the same pairs start with the same pair. */
  lemma SortedHeadsEqual(s: seq<Pair>, t: seq<Pair>)
    requires s != [] && t != []
    requires Sorted(s) && Sorted(t) && multiset(s) == multiset(t)
    ensures s[0] == t[0]
  {
    assert s[0] in multiset(t);
    assert t[0] in multiset(s);
    var i :| 0 <= i < |t| && t[i] == s[0];
    var k :| 0 <= k < |s| && s[k] == t[0];
    if i != 0 && k != 0 {
      assert Compare(t[0], t[i]) <= 0 && Compare(s[0], s[k]) <= 0;
      CompareTotal(s[0], t[0]);
    }
  }

  lemma MultisetTail(s: seq<Pair>)
    requires s != []
    ensures multiset(s[1..]) == multiset(s) - multiset{s[0]}
    ensures Sorted(s) ==> Sorted(s[1..])
  {
    assert s == [s[0]] + s[1..];
    assert multiset(s) == multiset{s[0]} + multiset(s[1..]);
    if Sorted(s) {
      forall i, j | 0 <= i < j < |s[1..]| ensures Compare(s[1..][i], s[1..][j]) <= 0 {
        assert s[1..][i] == s[i + 1] && s[1..][j] == s[j + 1];
      }
    }
  }

  // ---------------------------------------------------------------------
  // The formatter
  // ---------------------------------------------------------------------

  /**
   * The counting loop's invariant after visiting `seen`: `total` counts every
   * message, the map's keys in insertion order are the distinct rule ids in
   * order of first occurrence, and each maps to its number of occurrences.
   */
  ghost predicate Counted(seen: seq<string>, counts: map<string, nat>, order: seq<string>, total: nat) {
    && total == |seen|
    && order == UniqBy(seen, Id)
    && (forall k :: k in counts <==> k in seen)
    && (forall k :: k in counts ==> counts[k] == Occurrences(seen, k))
  }

  lemma OccurrencesSnoc(seen: seq<string>, rule: string, k: string)
    ensures Occurrences(seen + [rule], k) == Occurrences(seen, k) + (if rule == k then 1 else 0)
  {
    assert (seen + [rule])[..|seen + [rule]| - 1] == seen;
  }

  lemma CountedStep(seen: seq<string>, counts: map<string, nat>, order: seq<string>, total: nat, rule: string)
    requires Counted(seen, counts, order, total)
    ensures Counted(seen + [rule],
                    counts[rule := 1 + if rule in counts then counts[rule] else 0],
                    if rule in counts then order else order + [rule],
                    total + 1)
  {
    var seen' := seen + [rule];
    var counts' := counts[rule := 1 + if rule in counts then counts[rule] else 0];
    UniqBySnoc(seen, rule, Id);
    assert HasKey(seen, Id, Id(rule)) <==> rule in seen by {
      if rule in seen {
        var i :| 0 <= i < |seen| && seen[i] == rule;
        assert Id(seen[i]) == Id(rule);
      }
    }
    assert (if rule in counts then order else order + [rule]) == UniqBy(seen', Id);
    assert forall k :: k in counts' <==> k in seen';
    forall k | k in counts' ensures counts'[k] == Occurrences(seen', k) {
      OccurrencesSnoc(seen, rule, k);
      OccurrencesPositive(seen, k);
    }
  }

  /**
   * The `forEach` callback for one message: `agg.set(ruleId, 1 + (agg.get(ruleId) || 0))`
   * (a new key goes to the end of the `Map`'s insertion order) and `totalErrors++`.
   */
  method CountMessage(rule: string, counts0: map<string, nat>, order0: seq<string>, total0: nat,
                      ghost seen: seq<string>)
    returns (errorsPerRule: map<string, nat>, order: seq<string>, totalErrors: nat)
    requires Counted(seen, counts0, order0, total0)
    ensures Counted(seen + [rule], errorsPerRule, order, totalErrors)
  {
    CountedStep(seen, counts0, order0, total0, rule);
    var prior := if rule in counts0 then counts0[rule] else 0;
    order := if rule in counts0 then order0 else order0 + [rule];
    errorsPerRule := counts0[rule := 1 + prior];
    totalErrors := total0 + 1;
  }

  /**
   * The inner `forEach` over one result's messages: each message adds one
   * to its rule's entry of `errorsPerRule` (creating it at 1) and to
   * `totalErrors`.
   */
  method CountMessages(messages: seq<Message>, counts0: map<string, nat>, order0: seq<string>, total0: nat,
                       ghost seen: seq<string>)
    returns (errorsPerRule: map<string, nat>, order: seq<string>, totalErrors: nat)
    requires Counted(seen, counts0, order0, total0)
    ensures Counted(seen + MessageRuleIds(messages), errorsPerRule, order, totalErrors)
  {
    errorsPerRule, order, totalErrors := counts0, order0, total0;
    ghost var visited := seen;
    assert seen + MessageRuleIds(messages[..0]) == seen;
    for m := 0 to |messages|
      invariant visited == seen + MessageRuleIds(messages[..m])
      invariant Counted(visited, errorsPerRule, order, totalErrors)
    {
      errorsPerRule, order, totalErrors := CountMessage(messages[m].ruleId, errorsPerRule, order, totalErrors, visited);
      assert MessageRuleIds(messages[..m + 1]) == MessageRuleIds(messages[..m]) + [messages[m].ruleId];
      visited := visited + [messages[m].ruleId];
    }
    assert messages[..|messages|] == messages;
  }

  /**
   * The outer `reduce` over the results: fills the `Map` `errorsPerRule`
   * (whose insertion order `order` keeps) and counts every message in
   * `totalErrors`.
   */
  method CountPerRule(results: seq<LintResult>) returns (errorsPerRule: map<string, nat>, order: seq<string>, totalErrors: nat)
    ensures Counted(RuleIds(results), errorsPerRule, order, totalErrors)
  {
    errorsPerRule := map[];
    order := [];
    totalErrors := 0;
    for r := 0 to |results|
      invariant Counted(RuleIds(results[..r]), errorsPerRule, order, totalErrors)
    {
      errorsPerRule, order, totalErrors := CountMessages(results[r].messages, errorsPerRule, order, totalErrors, RuleIds(results[..r]));
      assert results[..r + 1][..r] == results[..r];
    }
    assert results[..|results|] == results;
  }

  /**
   * What the sorted pairs satisfy: one pair per rule id that occurs, each
   * with its number of occurrences (at least one), counts adding up to the
   * number of messages, counts non-increasing, equal counts in ascending
   * rule-id order.
   */
  lemma SortedTallyFacts(pairs: seq<Pair>, ids: seq<string>)
    requires Sorted(pairs) && multiset(pairs) == multiset(Tally(ids))
    ensures SumCounts(pairs) == |ids|
    ensures forall p :: p in pairs ==> p.count == Occurrences(ids, p.ruleId) && 1 <= p.count
    ensures forall rule :: rule in ids <==> HasKey(pairs, RuleOf, rule)
    ensures DistinctKeys(pairs, RuleOf)
    ensures forall i, j :: 0 <= i < j < |pairs| ==> pairs[i].count >= pairs[j].count
    ensures forall i, j :: 0 <= i < j < |pairs| && pairs[i].count == pairs[j].count
                           ==> LocaleCompare(pairs[i].ruleId, pairs[j].ruleId) < 0
  {
    TallySum(ids);
    SumCountsPermutation(pairs, Tally(ids));
    PermutationOfTallyEntries(pairs, ids);
    PermutationOfTallyDistinct(pairs, ids);
    SortedDistinctOrder(pairs);
  }

  /** A reordering of the tally holds the same entries as the tally. */
  lemma PermutationOfTallyEntries(pairs: seq<Pair>, ids: seq<string>)
    requires multiset(pairs) == multiset(Tally(ids))
    ensures forall p :: p in pairs ==> p.count == Occurrences(ids, p.ruleId) && 1 <= p.count
    ensures forall rule :: rule in ids <==> HasKey(pairs, RuleOf, rule)
  {
    TallyEntries(ids);
    forall p | p in pairs ensures p.count == Occurrences(ids, p.ruleId) && 1 <= p.count {
      assert p in multiset(Tally(ids));
    }
    forall rule ensures rule in ids <==> HasKey(pairs, RuleOf, rule) {
      if HasKey(pairs, RuleOf, rule) {
        var i :| 0 <= i < |pairs| && RuleOf(pairs[i]) == rule;
        assert pairs[i] in multiset(Tally(ids));
      }
      if rule in ids {
        var t := Tally(ids);
        var j :| 0 <= j < |t| && RuleOf(t[j]) == rule;
        assert t[j] in multiset(pairs);
        var i :| 0 <= i < |pairs| && pairs[i] == t[j];
        assert RuleOf(pairs[i]) == rule;
      }
    }
  }

  /**
   * In comparator order with no rule id twice, counts never increase and
   * equal counts come in ascending rule-id order.
   */
  lemma SortedDistinctOrder(pairs: seq<Pair>)
    requires Sorted(pairs) && DistinctKeys(pairs, RuleOf)
    ensures forall i, j :: 0 <= i < j < |pairs| ==> pairs[i].count >= pairs[j].count
    ensures forall i, j :: 0 <= i < j < |pairs| && pairs[i].count == pairs[j].count
                           ==> LocaleCompare(pairs[i].ruleId, pairs[j].ruleId) < 0
  {
    forall i, j | 0 <= i < j < |pairs| && pairs[i].count == pairs[j].count
      ensures LocaleCompare(pairs[i].ruleId, pairs[j].ruleId) < 0
    {
      assert RuleOf(pairs[i]) != RuleOf(pairs[j]);
      LocaleCompareAntisymmetric(pairs[i].ruleId, pairs[j].ruleId);
    }
  }

  /**
   * The exported formatter: counts messages per rule and in total, then
   * sorts the (rule, count) pairs, most frequent first and equal counts by
   * rule id.
   */
  method AggregateFormatter(results: seq<LintResult>) returns (pairs: seq<Pair>, totalErrors: nat)
    ensures totalErrors == |RuleIds(results)|
    ensures multiset(pairs) == multiset(Tally(RuleIds(results)))
    ensures Sorted(pairs)
    ensures SumCounts(pairs) == totalErrors
    ensures forall p :: p in pairs ==> p.count == Occurrences(RuleIds(results), p.ruleId) && 1 <= p.count
    ensures forall rule :: rule in RuleIds(results) <==> HasKey(pairs, RuleOf, rule)
    ensures DistinctKeys(pairs, RuleOf)
    ensures forall i, j :: 0 <= i < j < |pairs| ==> pairs[i].count >= pairs[j].count
    ensures forall i, j :: 0 <= i < j < |pairs| && pairs[i].count == pairs[j].count
                           ==> LocaleCompare(pairs[i].ruleId, pairs[j].ruleId) < 0
  {
    var errorsPerRule, order, total := CountPerRule(results);
    totalErrors := total;
    ghost var ids := RuleIds(results);
    // Array.from(errorsPerRule)
    var a := new Pair[|order|](i requires 0 <= i < |order| => Pair(order[i], errorsPerRule[order[i]]));
    assert a[..] == Tally(ids);
    SortPairs(a);
    pairs := a[..];
    SortedTallyFacts(pairs, ids);
  }
}
