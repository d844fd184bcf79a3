/**
 * The summary that summarize-violations answers and write-violations-report
 * writes (src/tools/tools.ts:483-498, repeated at 549-564): a tally of the
 * violations by impact, built by a left fold over the list, and a condensed
 * entry per violation carrying the number of affected nodes.
 */
module Summary {
  import opened Wrappers
  import opened Schema

  /** A violation in the summary's `violations` list. */
  datatype Condensed = Condensed(
    id: string,
    description: string,
    impact: string,
    helpUrl: Option<string>,
    nodesAffected: nat)

  /** `{ totalViolations, byImpact, violations }` */
  datatype FormattedSummary = FormattedSummary(
    totalViolations: nat,
    byImpact: map<string, nat>,
    violations: seq<Condensed>)

  // ---------------------------------------------------------------------
  // The tally (the `reduce`)
  // ---------------------------------------------------------------------

  /** `acc[k] || 0`: the count kept for `k`, zero when there is none. */
  function Get(acc: map<string, nat>, k: string): nat
  {
    if k in acc then acc[k] else 0
  }

  /** `acc[k] = (acc[k] || 0) + 1` */
  function Bump(acc: map<string, nat>, k: string): (r: map<string, nat>)
    ensures r.Keys == acc.Keys + {k}
    ensures Get(r, k) == Get(acc, k) + 1
    ensures forall j :: j != k ==> Get(r, j) == Get(acc, j)
  {
    acc[k := Get(acc, k) + 1]
  }

  /** How many of `vs` have impact `k`. */
  function Occurrences(vs: seq<ViolationRecord>, k: string): nat
    decreases |vs|
  {
    if vs == [] then 0 else (if vs[0].impact == k then 1 else 0) + Occurrences(vs[1..], k)
  }

  /** The impacts that occur in `vs`. */
  function ImpactsIn(vs: seq<ViolationRecord>): set<string>
  {
    set i | 0 <= i < |vs| :: vs[i].impact
  }

  /** The fold from accumulator `acc` over `vs`, first element first. */
  function TallyFrom(acc: map<string, nat>, vs: seq<ViolationRecord>): (r: map<string, nat>)
    ensures r.Keys == acc.Keys + ImpactsIn(vs)
    ensures forall k :: Get(r, k) == Get(acc, k) + Occurrences(vs, k)
    decreases |vs|
  {
    if vs == [] then acc
    else
      assert ImpactsIn(vs) == {vs[0].impact} + ImpactsIn(vs[1..]) by {
        forall k | k in ImpactsIn(vs) ensures k in {vs[0].impact} + ImpactsIn(vs[1..]) {
          var i :| 0 <= i < |vs| && vs[i].impact == k;
          if i > 0 {
            assert vs[1..][i - 1] == vs[i];
          }
        }
        forall k | k in ImpactsIn(vs[1..]) ensures k in ImpactsIn(vs) {
          var i :| 0 <= i < |vs[1..]| && vs[1..][i].impact == k;
          assert vs[i + 1] == vs[1..][i];
        }
      }
      TallyFrom(Bump(acc, vs[0].impact), vs[1..])
  }

  /**
   * `byImpact`: a key for each impact that occurs and for no other, mapped
   * to how often it occurs.
   */
  function Tally(vs: seq<ViolationRecord>): (r: map<string, nat>)
    ensures r.Keys == ImpactsIn(vs)
    ensures forall k :: k in r ==> r[k] == Occurrences(vs, k) >= 1
  {
    var r := TallyFrom(map[], vs);
    forall k | k in r
      ensures r[k] == Occurrences(vs, k) >= 1
    {
      OccursWhenPresent(vs, k);
    }
    r
  }

  lemma {:induction false} OccursWhenPresent(vs: seq<ViolationRecord>, k: string)
    requires k in ImpactsIn(vs)
    ensures Occurrences(vs, k) >= 1
    decreases |vs|
  {
    var i :| 0 <= i < |vs| && vs[i].impact == k;
    if i > 0 {
      assert vs[1..][i - 1] == vs[i];
      OccursWhenPresent(vs[1..], k);
    }
  }

  /** The sum of the tally over the four impact names. */
  function ImpactTotal(m: map<string, nat>): nat
  {
    Get(m, "minor") + Get(m, "moderate") + Get(m, "serious") + Get(m, "critical")
  }

  lemma {:induction false} OccurrencesCoverAll(vs: seq<ViolationRecord>)
    requires forall i :: 0 <= i < |vs| ==> vs[i].impact in ImpactNames
    ensures Occurrences(vs, "minor") + Occurrences(vs, "moderate")
          + Occurrences(vs, "serious") + Occurrences(vs, "critical") == |vs|
    decreases |vs|
  {
    if vs != [] {
      assert forall i :: 0 <= i < |vs[1..]| ==> vs[1..][i] == vs[i + 1];
      OccurrencesCoverAll(vs[1..]);
    }
  }

  /**
   * For a list the schema accepts, `byImpact` has keys among the four
   * impacts only, and its values add up to the number of violations.
   */
  lemma TallySumsToTotal(vs: seq<ViolationRecord>)
    requires forall i :: 0 <= i < |vs| ==> vs[i].impact in ImpactNames
    ensures forall k :: k in Tally(vs) ==> k in ImpactNames
    ensures ImpactTotal(Tally(vs)) == |vs|
  {
    var r := Tally(vs);
    assert forall k :: Get(r, k) == Occurrences(vs, k) by {
      forall k ensures Get(r, k) == Occurrences(vs, k) {
        assert Get(TallyFrom(map[], vs), k) == Get(map[], k) + Occurrences(vs, k);
      }
    }
    OccurrencesCoverAll(vs);
  }

  lemma {:induction false} OccurrencesAppend(a: seq<ViolationRecord>, b: seq<ViolationRecord>, k: string)
    ensures Occurrences(a + b, k) == Occurrences(a, k) + Occurrences(b, k)
    decreases |a|
  {
    if a == [] {
      assert a + b == b;
    } else {
      assert (a + b)[1..] == a[1..] + b;
      OccurrencesAppend(a[1..], b, k);
    }
  }

  /** Tallying two lists one after the other adds their counts. */
  lemma TallyAppend(a: seq<ViolationRecord>, b: seq<ViolationRecord>, k: string)
    ensures Get(Tally(a + b), k) == Get(Tally(a), k) + Get(Tally(b), k)
  {
    assert Get(TallyFrom(map[], a + b), k) == Occurrences(a + b, k);
    assert Get(TallyFrom(map[], a), k) == Occurrences(a, k);
    assert Get(TallyFrom(map[], b), k) == Occurrences(b, k);
    OccurrencesAppend(a, b, k);
  }

  // ---------------------------------------------------------------------
  // The condensed list (the `map`)
  // ---------------------------------------------------------------------

  /** `violation.nodes?.length || 0` */
  function NodesAffected(v: ViolationRecord): nat
  {
    if v.nodes.Some? then |v.nodes.value| else 0
  }

  /** How a condensed entry relates to its violation. */
  predicate CondensedFrom(c: Condensed, v: ViolationRecord)
  {
    && c.id == v.id
    && c.description == v.description
    && c.impact == v.impact
    && c.helpUrl == v.helpUrl
    && c.nodesAffected == NodesAffected(v)
  }

  function Condense(v: ViolationRecord): (c: Condensed)
    ensures CondensedFrom(c, v)
  {
    Condensed(v.id, v.description, v.impact, v.helpUrl, NodesAffected(v))
  }

  /** The summary of `vs`. */
  function Summarize(vs: seq<ViolationRecord>): (s: FormattedSummary)
    ensures s.totalViolations == |vs|
    ensures s.byImpact.Keys == ImpactsIn(vs)
    ensures forall k :: k in s.byImpact ==> s.byImpact[k] == Occurrences(vs, k)
    ensures |s.violations| == |vs|
    ensures forall i :: 0 <= i < |vs| ==> CondensedFrom(s.violations[i], vs[i])
  {
    FormattedSummary(|vs|, Tally(vs), seq(|vs|, i requires 0 <= i < |vs| => Condense(vs[i])))
  }

  /** The condensed list keeps the input's order: summarising a concatenation concatenates. */
  lemma SummarizeKeepsOrder(a: seq<ViolationRecord>, b: seq<ViolationRecord>)
    ensures Summarize(a + b).violations == Summarize(a).violations + Summarize(b).violations
    ensures Summarize(a + b).totalViolations == Summarize(a).totalViolations + Summarize(b).totalViolations
  {
    var whole, left, right := Summarize(a + b).violations, Summarize(a).violations, Summarize(b).violations;
    assert |whole| == |left + right|;
    forall i | 0 <= i < |whole|
      ensures whole[i] == (left + right)[i]
    {
      CondensedUnique(whole[i], (left + right)[i], (a + b)[i]);
    }
  }

  lemma CondensedUnique(c1: Condensed, c2: Condensed, v: ViolationRecord)
    requires CondensedFrom(c1, v) && CondensedFrom(c2, v)
    ensures c1 == c2
  {
  }

  /** A worked example: two serious violations and a critical one. */
  lemma SummarizeExample(a: ViolationRecord, b: ViolationRecord, c: ViolationRecord)
    requires a.impact == "serious" && b.impact == "critical" && c.impact == "serious"
    ensures var s := Summarize([a, b, c]);
      && s.totalViolations == 3
      && s.byImpact == map["serious" := 2, "critical" := 1]
  {
    var vs := [a, b, c];
    var s := Summarize(vs);
    assert ImpactsIn(vs) == {"serious", "critical"} by {
      assert vs[0].impact == "serious" && vs[1].impact == "critical";
    }
    assert vs[1..] == [b, c] && [b, c][1..] == [c] && [c][1..] == [];
    assert Occurrences([c], "serious") == 1 && Occurrences([c], "critical") == 0;
    assert Occurrences([b, c], "serious") == 1 && Occurrences([b, c], "critical") == 1;
    assert Occurrences(vs, "serious") == 2 && Occurrences(vs, "critical") == 1;
  }

  // ---------------------------------------------------------------------
  // The summarize-violations tool
  // ---------------------------------------------------------------------

  /** What summarize-violations answers (tools.ts:477-531). */
  function SummarizeTool(input: SummaryInput): (r: Response<FormattedSummary>)
    ensures r.Payload? <==> ValidSummaryInput(input)
    ensures r.Payload? ==> r.value == Summarize(input.violations)
    ensures !r.Payload? ==> r == Rejected(SummaryIssues(input))
  {
    var issues := SummaryIssues(input);
    if issues != [] then Rejected(issues) else Payload(Summarize(input.violations))
  }
}
