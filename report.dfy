/** The summary report of a permission audit: how many players were
    audited and how many have issues, how many issues there are in all,
    how many distinct permission names occur globally, per team and per
    tournament, and the five most frequent issues. The CSV and JSON
    writers, and the joining of the summary into text, are not part of
    this model. */
module PermissionReport {
  import opened Common
  import opened Access
  import opened StableSort
  import opened PermissionAudit

  /** The figures of the summary, in the order it prints them. */
  datatype Summary = Summary(totalPlayers: nat, playersWithIssues: nat, totalIssues: nat,
                             globalCount: nat, teamCount: nat, tournamentCount: nat,
                             top: seq<(Issue, nat)>)

  // ---------------------------------------------------------------- totals

  /** `sum(len(r.issues) for r in results)`. */
  function TotalIssues(results: seq<AuditResult>): nat
  {
    if results == [] then 0 else TotalIssues(results[..|results| - 1]) + |results[|results| - 1].issues|
  }

  /** `len([r for r in results if r.issues])`. */
  function WithIssues(results: seq<AuditResult>): nat
  {
    CountIf(results, (r: AuditResult) => r.issues != [])
  }

  /** Every player with issues has at least one, so there are never more
      players with issues than issues, nor than players. */
  lemma {:induction false} WithIssuesBound(results: seq<AuditResult>)
    ensures WithIssues(results) <= TotalIssues(results)
    ensures WithIssues(results) <= |results|
  {
    if results != [] {
      var init := results[..|results| - 1];
      var last := results[|results| - 1];
      WithIssuesBound(init);
      assert results == init + [last];
      CountIfAppend(init, [last], (r: AuditResult) => r.issues != []);
    }
  }

  /** Every issue of every result, result by result. */
  function AllIssues(results: seq<AuditResult>): (all: seq<Issue>)
    ensures |all| == TotalIssues(results)
  {
    if results == [] then [] else AllIssues(results[..|results| - 1]) + results[|results| - 1].issues
  }

  // ---------------------------------------------------------------- distribution

  /** The union of the permission sets of the given keys. */
  function ValuesUnion(keys: seq<Option<Id>>, m: map<Option<Id>, set<string>>): set<string>
  {
    if keys == [] then {}
    else
      var k := keys[|keys| - 1];
      ValuesUnion(keys[..|keys| - 1], m) + if k in m then m[k] else {}
  }

  /** The permission names any result holds globally. */
  function GlobalUnion(results: seq<AuditResult>): set<string>
  {
    if results == [] then {} else GlobalUnion(results[..|results| - 1]) + results[|results| - 1].global
  }

  /** The keys of a result for one scope, and its permissions per key. */
  function KeysFor(r: AuditResult, s: ScopeType): seq<Option<Id>>
  {
    if s == TeamScope then r.teamKeys else r.tournamentKeys
  }

  function PermsFor(r: AuditResult, s: ScopeType): map<Option<Id>, set<string>>
  {
    if s == TeamScope then r.team else r.tournament
  }

  /** The permission names one result holds for some team (s = TeamScope)
      or some tournament. */
  function ScopeSet(r: AuditResult, s: ScopeType): set<string>
  {
    ValuesUnion(KeysFor(r, s), PermsFor(r, s))
  }

  /** The permission names any result holds for some team or some
      tournament. */
  function ScopeUnion(results: seq<AuditResult>, s: ScopeType): set<string>
  {
    if results == [] then {} else ScopeUnion(results[..|results| - 1], s) + ScopeSet(results[|results| - 1], s)
  }

  /** A name is in the union of the keyed sets exactly when one of them
      holds it. */
  lemma {:induction false} ValuesUnionSpec(keys: seq<Option<Id>>, m: map<Option<Id>, set<string>>, p: string)
    ensures p in ValuesUnion(keys, m) <==> exists k :: k in keys && k in m && p in m[k]
  {
    if keys != [] {
      var init := keys[..|keys| - 1];
      ValuesUnionSpec(init, m, p);
      assert keys == init + [keys[|keys| - 1]];
    }
  }

  /** The global count is over the names some result holds globally. */
  lemma {:induction false} GlobalUnionSpec(results: seq<AuditResult>, p: string)
    ensures p in GlobalUnion(results) <==> exists i :: 0 <= i < |results| && p in results[i].global
  {
    if results != [] {
      var init := results[..|results| - 1];
      GlobalUnionSpec(init, p);
      if exists i :: 0 <= i < |init| && p in init[i].global {
        var i :| 0 <= i < |init| && p in init[i].global;
        assert results[i] == init[i];
      }
      if exists i :: 0 <= i < |results| && p in results[i].global {
        var i :| 0 <= i < |results| && p in results[i].global;
        if i < |init| {
          assert init[i] == results[i];
        }
      }
    }
  }

  /** The team count is over the names some result holds for one of its
      teams; likewise for tournaments. */
  lemma {:induction false} ScopeUnionSpec(results: seq<AuditResult>, s: ScopeType, p: string)
    ensures p in ScopeUnion(results, s) <==>
      exists i :: 0 <= i < |results| && p in ScopeSet(results[i], s)
  {
    if results != [] {
      var init := results[..|results| - 1];
      var last := |results| - 1;
      ScopeUnionSpec(init, s, p);
      assert forall i :: 0 <= i < |init| ==> init[i] == results[i];
      assert p in ScopeSet(results[last], s) ==> exists i :: 0 <= i < |results| && p in ScopeSet(results[i], s);
    }
  }

  // ---------------------------------------------------------------- issue frequency

  /** `issue_counts` after counting the issues in order. */
  function Tally(issues: seq<Issue>): map<Issue, nat>
  {
    if issues == [] then map[]
    else
      var m := Tally(issues[..|issues| - 1]);
      var x := issues[|issues| - 1];
      m[x := (if x in m then m[x] else 0) + 1]
  }

  /** The keys of `issue_counts` in insertion order: each issue where it
      first occurs. */
  function FirstSeen(issues: seq<Issue>): seq<Issue>
  {
    if issues == [] then []
    else
      var order := FirstSeen(issues[..|issues| - 1]);
      var x := issues[|issues| - 1];
      if x in order then order else order + [x]
  }

  /** Each issue is counted as often as it occurs, and the insertion order
      lists each occurring issue once. */
  lemma {:induction false} TallySpec(issues: seq<Issue>, x: Issue)
    ensures x in Tally(issues) <==> x in issues
    ensures x in Tally(issues) ==> Tally(issues)[x] == multiset(issues)[x]
    ensures x in FirstSeen(issues) <==> x in issues
    ensures Distinct(FirstSeen(issues))
  {
    if issues != [] {
      var init := issues[..|issues| - 1];
      TallySpec(init, x);
      TallySpec(init, issues[|issues| - 1]);
      assert issues == init + [issues[|issues| - 1]];
    }
  }

  /** Counting one more issue: its count goes up by one, and it joins the
      insertion order when it is new. */
  lemma CountStep(seen: seq<Issue>, x: Issue)
    ensures Tally(seen + [x]) == Tally(seen)[x := (if x in Tally(seen) then Tally(seen)[x] else 0) + 1]
    ensures FirstSeen(seen + [x]) == if x in Tally(seen) then FirstSeen(seen) else FirstSeen(seen) + [x]
  {
    var a := seen + [x];
    TallySpec(seen, x);
    assert a[..|seen|] == seen && a[|seen|] == x;
  }

  /** The sum of the counts of the given keys. */
  function SumCounts(keys: seq<Issue>, m: map<Issue, nat>): nat
  {
    if keys == [] then 0
    else
      var k := keys[|keys| - 1];
      SumCounts(keys[..|keys| - 1], m) + if k in m then m[k] else 0
  }

  /** Changing the count of a key not listed changes no sum. */
  lemma {:induction false} SumIgnores(keys: seq<Issue>, m: map<Issue, nat>, x: Issue, v: nat)
    requires x !in keys
    ensures SumCounts(keys, m[x := v]) == SumCounts(keys, m)
  {
    if keys != [] {
      SumIgnores(keys[..|keys| - 1], m, x, v);
    }
  }

  /** Adding one to the count of a key listed once adds one to the sum. */
  lemma {:induction false} SumBump(keys: seq<Issue>, m: map<Issue, nat>, x: Issue)
    requires Distinct(keys) && x in keys && x in m
    ensures SumCounts(keys, m[x := m[x] + 1]) == SumCounts(keys, m) + 1
  {
    var init := keys[..|keys| - 1];
    var last := keys[|keys| - 1];
    assert keys == init + [last];
    if last == x {
      assert x !in init;
      SumIgnores(init, m, x, m[x] + 1);
    } else {
      assert Distinct(init) && x in init;
      SumBump(init, m, x);
    }
  }

  /** The issue frequencies add up to the number of issues. */
  lemma {:induction false} FrequenciesSum(issues: seq<Issue>)
    ensures SumCounts(FirstSeen(issues), Tally(issues)) == |issues|
  {
    if issues != [] {
      var init := issues[..|issues| - 1];
      var x := issues[|issues| - 1];
      var m := Tally(init);
      var order := FirstSeen(init);
      FrequenciesSum(init);
      TallySpec(init, x);
      if x in order {
        SumBump(order, m, x);
      } else {
        SumIgnores(order, m, x, 1);
        assert (order + [x])[..|order|] == order;
      }
    }
  }

  // ---------------------------------------------------------------- top issues

  /** `issue_counts.items()`. */
  function Entries(keys: seq<Issue>, m: map<Issue, nat>): (r: seq<(Issue, nat)>)
    ensures |r| == |keys|
  {
    if keys == [] then []
    else
      var k := keys[|keys| - 1];
      Entries(keys[..|keys| - 1], m) + [(k, if k in m then m[k] else 0)]
  }

  /** Each entry pairs a key with its count. */
  lemma {:induction false} EntriesAt(keys: seq<Issue>, m: map<Issue, nat>, i: nat)
    requires i < |keys|
    ensures Entries(keys, m)[i] == (keys[i], if keys[i] in m then m[keys[i]] else 0)
  {
    if i < |keys| - 1 {
      EntriesAt(keys[..|keys| - 1], m, i);
    }
  }

  /** The sort key: the count. */
  function CountKey(e: (Issue, nat)): Key
  {
    Key(e.1, 0, 0)
  }

  /** All entries, most frequent first, ties in first-occurrence order. */
  function Ranking(issues: seq<Issue>): seq<(Issue, nat)>
  {
    SortDesc(Entries(FirstSeen(issues), Tally(issues)), CountKey)
  }

  /** The first five entries of the ranking. */
  function TopIssues(issues: seq<Issue>): seq<(Issue, nat)>
  {
    var ranked := Ranking(issues);
    ranked[..if |ranked| < 5 then |ranked| else 5]
  }

  /** The ranking holds every occurring issue once with its count, in
      non-increasing count order. */
  lemma RankingSpec(issues: seq<Issue>)
    ensures var ranked := Ranking(issues);
      && |ranked| == |FirstSeen(issues)|
      && SortedDesc(ranked, CountKey)
      && multiset(ranked) == multiset(Entries(FirstSeen(issues), Tally(issues)))
      && forall e :: e in ranked ==> e.0 in issues && e.1 == multiset(issues)[e.0]
  {
    var order := FirstSeen(issues);
    var entries := Entries(order, Tally(issues));
    SortDescCorrect(entries, CountKey);
    forall e | e in Ranking(issues)
      ensures e.0 in issues && e.1 == multiset(issues)[e.0]
    {
      assert e in multiset(entries);
      var i :| 0 <= i < |entries| && entries[i] == e;
      EntriesAt(order, Tally(issues), i);
      TallySpec(issues, order[i]);
    }
  }

  /** At most five issues are listed, in non-increasing count order, each
      with its number of occurrences; no issue left out occurs more often
      than a listed one. */
  lemma TopIssuesSpec(issues: seq<Issue>)
    ensures var top := TopIssues(issues);
      && |top| == (if |FirstSeen(issues)| < 5 then |FirstSeen(issues)| else 5)
      && (forall i, j :: 0 <= i < j < |top| ==> top[i].1 >= top[j].1)
      && (forall e :: e in top ==> e.0 in issues && e.1 == multiset(issues)[e.0])
  {
    var ranked := Ranking(issues);
    var top := TopIssues(issues);
    RankingSpec(issues);
    forall i, j | 0 <= i < j < |top| ensures top[i].1 >= top[j].1 {
      assert Ge(CountKey(ranked[i]), CountKey(ranked[j]));
    }
    forall e | e in top ensures e.0 in issues && e.1 == multiset(issues)[e.0] {
      assert e in ranked;
    }
  }

  /** An occurring issue that is not listed occurs no more often than any
      listed one. */
  lemma TopIssuesOmitted(issues: seq<Issue>, x: Issue, e: (Issue, nat))
    requires x in issues && e in TopIssues(issues)
    requires forall f :: f in TopIssues(issues) ==> f.0 != x
    ensures multiset(issues)[x] <= e.1
  {
    var ranked := Ranking(issues);
    var top := TopIssues(issues);
    var order := FirstSeen(issues);
    var entries := Entries(order, Tally(issues));
    RankingSpec(issues);
    TallySpec(issues, x);
    var k :| 0 <= k < |order| && order[k] == x;
    EntriesAt(order, Tally(issues), k);
    assert entries[k] in multiset(ranked);
    var j :| 0 <= j < |ranked| && ranked[j] == entries[k];
    var i :| 0 <= i < |top| && top[i] == e;
    assert top == ranked[..|top|];
    assert ranked[j] !in top;
    assert j >= |top|;
    assert Ge(CountKey(ranked[i]), CountKey(ranked[j]));
  }

  /** The summary as `generate_summary_report` computes it. */
  function SummaryOf(results: seq<AuditResult>): Summary
  {
    Summary(|results|, WithIssues(results), TotalIssues(results), |GlobalUnion(results)|,
            |ScopeUnion(results, TeamScope)|, |ScopeUnion(results, TournamentScope)|, TopIssues(AllIssues(results)))
  }

  // ---------------------------------------------------------------- the report

  /** One inner loop of the distribution count: the union of the keyed
      sets added to `acc`. */
  method AddValues(acc: set<string>, keys: seq<Option<Id>>, m: map<Option<Id>, set<string>>)
    returns (r: set<string>)
    ensures r == acc + ValuesUnion(keys, m)
  {
    r := acc;
    var i := 0;
    while i < |keys|
      invariant 0 <= i <= |keys|
      invariant r == acc + ValuesUnion(keys[..i], m)
    {
      assert keys[..i + 1][..i] == keys[..i];
      if keys[i] in m {
        r := r + m[keys[i]];
      }
      i := i + 1;
    }
    assert keys[..i] == keys;
  }

  /** The distribution loop of `generate_summary_report`. */
  method Distribution(results: seq<AuditResult>) returns (global: set<string>, team: set<string>, tournament: set<string>)
    ensures global == GlobalUnion(results)
    ensures team == ScopeUnion(results, TeamScope) && tournament == ScopeUnion(results, TournamentScope)
  {
    global, team, tournament := {}, {}, {};
    var i := 0;
    while i < |results|
      invariant 0 <= i <= |results|
      invariant global == GlobalUnion(results[..i])
      invariant team == ScopeUnion(results[..i], TeamScope)
      invariant tournament == ScopeUnion(results[..i], TournamentScope)
    {
      var r := results[i];
      assert results[..i + 1][..i] == results[..i] && results[..i + 1][i] == r;
      global := global + r.global;
      team := AddValues(team, r.teamKeys, r.team);
      tournament := AddValues(tournament, r.tournamentKeys, r.tournament);
      i := i + 1;
    }
    assert results[..i] == results;
  }

  /** The inner loop of the frequency count: the issues of one result
      counted on top of those already seen. */
  method CountIssues(seen: seq<Issue>, counts: map<Issue, nat>, order: seq<Issue>, issues: seq<Issue>)
    returns (counts': map<Issue, nat>, order': seq<Issue>)
    requires counts == Tally(seen) && order == FirstSeen(seen)
    ensures counts' == Tally(seen + issues) && order' == FirstSeen(seen + issues)
  {
    counts', order' := counts, order;
    var j := 0;
    assert seen + issues[..0] == seen;
    while j < |issues|
      invariant 0 <= j <= |issues|
      invariant counts' == Tally(seen + issues[..j]) && order' == FirstSeen(seen + issues[..j])
    {
      var x := issues[j];
      assert seen + issues[..j + 1] == (seen + issues[..j]) + [x];
      CountStep(seen + issues[..j], x);
      order' := if x in counts' then order' else order' + [x];
      counts' := counts'[x := (if x in counts' then counts'[x] else 0) + 1];
      j := j + 1;
    }
    assert issues[..j] == issues;
  }

  /** The frequency loop of `generate_summary_report`: `issue_counts` and
      its insertion order. */
  method Frequencies(results: seq<AuditResult>) returns (counts: map<Issue, nat>, order: seq<Issue>)
    ensures counts == Tally(AllIssues(results)) && order == FirstSeen(AllIssues(results))
  {
    counts, order := map[], [];
    var i := 0;
    while i < |results|
      invariant 0 <= i <= |results|
      invariant counts == Tally(AllIssues(results[..i])) && order == FirstSeen(AllIssues(results[..i]))
    {
      assert results[..i + 1][..i] == results[..i];
      counts, order := CountIssues(AllIssues(results[..i]), counts, order, results[i].issues);
      i := i + 1;
    }
    assert results[..i] == results;
  }

  /** `generate_summary_report`: the totals, the distribution and the top
      five issues of the audit results. */
  method GenerateSummaryReport(results: seq<AuditResult>) returns (s: Summary)
    ensures s == SummaryOf(results)
  {
    var global, team, tournament := Distribution(results);
    var counts, order := Frequencies(results);
    var ranked := SortDesc(Entries(order, counts), CountKey);
    var top := ranked[..if |ranked| < 5 then |ranked| else 5];
    s := Summary(|results|, WithIssues(results), TotalIssues(results), |global|, |team|, |tournament|, top);
  }
}
