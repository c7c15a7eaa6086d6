/** Rule selection (edge/agent/response/policy.go:184-317). */
module ResponsePolicy {
  import opened Common

  datatype Severity = Unrecognized(name: string) | Low | Medium | High | Critical

  datatype Status = Normal | AnomalyDetected | Mitigating | Recovered | Escalated

  /** `valid` is the outcome of the field-by-field Incident.Validate. */
  datatype Incident = Incident(id: string, node: string, severity: Severity, status: Status, metric: string, valid: bool)

  /** `body`: parameters, authorization class, cooldown, version and reason, carried through unchanged. */
  datatype Rule = Rule(id: string, priority: int, enabled: bool, metric: string, minSeverity: Severity,
                       action: string, target: string, body: int)

  datatype Error = InvalidIncident | NotActionable | AlreadyMitigating | AlreadyRecovered | AlreadyEscalated | NoRuleMatched

  datatype Decision = Decision(id: string, incident: string, node: string, rule: Rule)

  /** `idOf` is ComputeDecisionID over incident, policy name, version, action and target. */
  datatype Config = Config(name: string, version: string, idOf: (string, string, string, string, string) -> string)

  function Rank(s: Severity): int {
    match s
    case Critical => 4
    case High => 3
    case Medium => 2
    case Low => 1
    case Unrecognized(_) => 0
  }

  /** Lexicographic string order. */
  predicate Less(a: string, b: string) {
    if b == [] then false
    else if a == [] then true
    else if a[0] != b[0] then a[0] < b[0]
    else Less(a[1..], b[1..])
  }

  predicate Specific(inc: Incident, r: Rule) {
    r.metric == inc.metric && r.metric != "" && r.metric != "*"
  }

  predicate IsCandidate(inc: Incident, r: Rule) {
    r.enabled && Rank(inc.severity) >= Rank(r.minSeverity) && (r.metric == inc.metric || r.metric == "" || r.metric == "*")
  }

  /** The sort order: specific metric first, then priority, then minimum severity, then rule id. */
  predicate Better(inc: Incident, a: Rule, b: Rule) {
    if Specific(inc, a) != Specific(inc, b) then Specific(inc, a)
    else if a.priority != b.priority then a.priority > b.priority
    else if Rank(a.minSeverity) != Rank(b.minSeverity) then Rank(a.minSeverity) > Rank(b.minSeverity)
    else Less(a.id, b.id)
  }

  // ---- The order --------------------------------------------------------------

  lemma {:induction false} LessTotal(a: string, b: string)
    ensures Less(a, b) || Less(b, a) || a == b
    ensures !(Less(a, b) && Less(b, a))
  {
    if a != [] && b != [] && a[0] == b[0] {
      LessTotal(a[1..], b[1..]);
      assert a == [a[0]] + a[1..] && b == [b[0]] + b[1..];
    }
  }

  lemma {:induction false} LessTransitive(a: string, b: string, c: string)
    requires Less(a, b) && Less(b, c)
    ensures Less(a, c)
  {
    if a != [] && a[0] == b[0] && b[0] == c[0] { LessTransitive(a[1..], b[1..], c[1..]); }
  }

  /** The comparator is a strict total order on rules with distinct ids. */
  lemma {:induction false} BetterIsStrictTotalOrder(inc: Incident, a: Rule, b: Rule, c: Rule)
    ensures !Better(inc, a, a)
    ensures !(Better(inc, a, b) && Better(inc, b, a))
    ensures Better(inc, a, b) && Better(inc, b, c) ==> Better(inc, a, c)
    ensures a.id != b.id ==> Better(inc, a, b) || Better(inc, b, a)
  {
    LessTotal(a.id, a.id);
    LessTotal(a.id, b.id);
    if Less(a.id, b.id) && Less(b.id, c.id) { LessTransitive(a.id, b.id, c.id); }
  }

  /** A rule better than `b` is better than whatever is not better than `b`. */
  lemma {:induction false} BetterIsWeakOrder(inc: Incident, a: Rule, b: Rule, c: Rule)
    requires Better(inc, a, b) && !Better(inc, c, b)
    ensures Better(inc, a, c)
  {
    LessTotal(b.id, c.id);
    if Less(a.id, b.id) && Less(b.id, c.id) { LessTransitive(a.id, b.id, c.id); }
  }

  // ---- Specification ------------------------------------------------------------

  function Candidates(inc: Incident, rules: seq<Rule>): seq<Rule> {
    if rules == [] then []
    else
      var r := rules[|rules| - 1];
      Candidates(inc, rules[..|rules| - 1]) + if IsCandidate(inc, r) then [r] else []
  }

  /** Insertion after every rule that is not worse. */
  function InsertRule(inc: Incident, s: seq<Rule>, r: Rule): seq<Rule> {
    if s == [] || !Better(inc, r, s[|s| - 1]) then s + [r]
    else InsertRule(inc, s[..|s| - 1], r) + [s[|s| - 1]]
  }

  /** sort.SliceStable */
  function SortRules(inc: Incident, s: seq<Rule>): seq<Rule> {
    if s == [] then [] else InsertRule(inc, SortRules(inc, s[..|s| - 1]), s[|s| - 1])
  }

  /** The leftmost rule that no other rule beats. */
  function Best(inc: Incident, s: seq<Rule>): Rule
    requires s != []
  {
    if |s| == 1 then s[0]
    else
      var b, r := Best(inc, s[..|s| - 1]), s[|s| - 1];
      if Better(inc, r, b) then r else b
  }

  function Selected(inc: Incident, rules: seq<Rule>, fallback: Option<Rule>): Option<Rule> {
    var cs := Candidates(inc, rules);
    if cs != [] then Some(Best(inc, cs))
    else if fallback.Some? && fallback.value.enabled && Rank(inc.severity) >= Rank(fallback.value.minSeverity) then fallback
    else None
  }

  function AfterEvaluate(cfg: Config, inc: Incident, rules: seq<Rule>, fallback: Option<Rule>): Result<Decision,
          Error> {
    if !inc.valid then Err(InvalidIncident)
    else match inc.status
      case Normal => Err(NotActionable)
      case Mitigating => Err(AlreadyMitigating)
      case Recovered => Err(AlreadyRecovered)
      case Escalated => Err(AlreadyEscalated)
      case AnomalyDetected =>
        var r := Selected(inc, rules, fallback);
        if r.None? then Err(NoRuleMatched)
        else Ok(Decision(cfg.idOf(inc.id, cfg.name, cfg.version, r.value.action, r.value.target), inc.id, inc.node, r.value))
  }

  // ---- The selected rule ----------------------------------------------------------

  lemma {:induction false} CandidatesAre(inc: Incident, rules: seq<Rule>)
    ensures forall r :: r in Candidates(inc, rules) <==> r in rules && IsCandidate(inc, r)
  {
    if rules != [] {
      CandidatesAre(inc, rules[..|rules| - 1]);
      assert rules == rules[..|rules| - 1] + [rules[|rules| - 1]];
    }
  }

  /** A candidate that no candidate beats. */
  predicate Unbeaten(inc: Incident, s: seq<Rule>, r: Rule) {
    r in s && forall c :: c in s ==> !Better(inc, c, r)
  }

  lemma {:induction false} BestIsUnbeaten(inc: Incident, s: seq<Rule>)
    requires s != []
    ensures Unbeaten(inc, s, Best(inc, s))
  {
    hide Better;
    if |s| > 1 {
      var f, r := s[..|s| - 1], s[|s| - 1];
      var b := Best(inc, f);
      BestIsUnbeaten(inc, f);
      assert s == f + [r];
      forall c | c in s ensures !Better(inc, c, Best(inc, s)) {
        BetterIsStrictTotalOrder(inc, c, r, b);
        BetterIsStrictTotalOrder(inc, r, r, r);
      }
    } else {
      BetterIsStrictTotalOrder(inc, s[0], s[0], s[0]);
    }
  }

  /** Of several unbeaten rules, Best is the one that stands first. */
  lemma {:induction false} BestIsFirst(inc: Incident, s: seq<Rule>)
    requires s != [] && Unbeaten(inc, s, s[0])
    ensures Best(inc, s) == s[0]
  {
    hide Better;
    if |s| > 1 {
      var f := s[..|s| - 1];
      assert s == f + [s[|s| - 1]];
      BestIsFirst(inc, f);
    }
  }

  predicate DistinctIds(s: seq<Rule>) {
    forall i, j :: 0 <= i < j < |s| ==> s[i].id != s[j].id
  }

  /** With distinct rule ids the selected rule is the unique best one: an enabled, severity-satisfying,
      metric-matching rule that beats every other such rule. */
  lemma {:induction false} SelectedIsUniqueBest(inc: Incident, rules: seq<Rule>, fallback: Option<Rule>)
    requires DistinctIds(rules)
    ensures (exists r :: r in rules && IsCandidate(inc, r)) ==>
      var sel := Selected(inc, rules, fallback);
      sel.Some? && sel.value in rules && IsCandidate(inc, sel.value)
      && forall r :: r in rules && IsCandidate(inc, r) && r != sel.value ==> Better(inc, sel.value, r)
    ensures !(exists r :: r in rules && IsCandidate(inc, r)) ==>
      Selected(inc, rules, fallback) ==
        (if fallback.Some? && fallback.value.enabled && Rank(inc.severity) >= Rank(fallback.value.minSeverity) then fallback else None)
  {
    CandidatesAre(inc, rules);
    var cs := Candidates(inc, rules);
    forall r | r in rules && IsCandidate(inc, r) ensures cs != [] { assert r in cs; }
    if cs != [] {
      BestIsUnbeaten(inc, cs);
      var b := Best(inc, cs);
      assert b in rules;
      forall r | r in rules && IsCandidate(inc, r) && r != b ensures Better(inc, b, r) {
        assert r in cs && !Better(inc, r, b);
        DistinctRulesDiffer(rules, r, b);
        BetterIsStrictTotalOrder(inc, b, r, b);
      }
    }
  }

  lemma DistinctRulesDiffer(rules: seq<Rule>, a: Rule, b: Rule)
    requires DistinctIds(rules) && a in rules && b in rules && a != b
    ensures a.id != b.id
  {
    var i :| 0 <= i < |rules| && rules[i] == a;
    var j :| 0 <= j < |rules| && rules[j] == b;
  }

  // ---- What is selected ---------------------------------------------------------------

  /** CRITICAL over HIGH over MEDIUM over LOW over anything else. */
  predicate AtLeast(a: Severity, b: Severity) {
    match a
    case Critical => true
    case High => b != Critical
    case Medium => b != Critical && b != High
    case Low => b == Low || b.Unrecognized?
    case Unrecognized(_) => b.Unrecognized?
  }

  lemma RankOrders(a: Severity, b: Severity)
    ensures Rank(a) >= Rank(b) <==> AtLeast(a, b)
  {
  }

  /** Enabled, for the incident's severity and metric; a blank metric or "*" stands for every metric. */
  predicate Applies(inc: Incident, r: Rule) {
    r.enabled && AtLeast(inc.severity, r.minSeverity) && (r.metric == inc.metric || r.metric == "" || r.metric == "*")
  }

  predicate NamesMetric(inc: Incident, r: Rule) { r.metric == inc.metric && r.metric != "" && r.metric != "*" }

  /** `r` does not come before `sel`: a rule that names the metric goes first, then the higher priority, then the higher
      minimum severity, then the smaller id. */
  predicate NotAhead(inc: Incident, r: Rule, sel: Rule) {
    && (NamesMetric(inc, r) ==> NamesMetric(inc, sel))
    && (NamesMetric(inc, r) == NamesMetric(inc, sel) ==>
         && r.priority <= sel.priority
         && (r.priority == sel.priority ==>
              && AtLeast(sel.minSeverity, r.minSeverity)
              && (AtLeast(r.minSeverity, sel.minSeverity) ==> !Less(r.id, sel.id))))
  }

  lemma NotAheadIff(inc: Incident, r: Rule, sel: Rule)
    ensures NotAhead(inc, r, sel) <==> !Better(inc, r, sel)
  {
    RankOrders(r.minSeverity, sel.minSeverity);
    RankOrders(sel.minSeverity, r.minSeverity);
    hide Less;
  }

  /** The strings agree on their first `k` characters; then `a` ends, or has the smaller character. */
  predicate FirstDiffers(a: string, b: string, k: int) {
    0 <= k <= |a| && k < |b| && a[..k] == b[..k] && (k == |a| || a[k] < b[k])
  }

  lemma FirstDiffersRest(a: string, b: string, k: int)
    requires FirstDiffers(a, b, k)
    ensures k > 0 ==> a != [] && b != [] && a[0] == b[0] && FirstDiffers(a[1..], b[1..], k - 1)
  {
    if k > 0 {
      assert a[0] == a[..k][0] && b[0] == b[..k][0];
      assert a[1..][..k - 1] == a[..k][1..] && b[1..][..k - 1] == b[..k][1..];
    }
  }

  lemma FirstDiffersNext(a: string, b: string, k: int)
    requires a != [] && b != [] && a[0] == b[0] && FirstDiffers(a[1..], b[1..], k)
    ensures FirstDiffers(a, b, k + 1)
  {
    assert a[..k + 1] == [a[0]] + a[1..][..k] && b[..k + 1] == [b[0]] + b[1..][..k];
  }

  /** Rule ids are ordered as strings. */
  lemma {:induction false} LessIff(a: string, b: string)
    ensures Less(a, b) <==> exists k :: FirstDiffers(a, b, k)
  {
    if a != [] && b != [] && a[0] == b[0] {
      LessIff(a[1..], b[1..]);
      if k :| FirstDiffers(a[1..], b[1..], k) { FirstDiffersNext(a, b, k); }
    } else if Less(a, b) {
      assert FirstDiffers(a, b, 0);
    }
    if k :| FirstDiffers(a, b, k) { FirstDiffersRest(a, b, k); }
  }

  /** The rule selected applies, and no rule that applies goes ahead of it; when none applies it is the fallback, if that
      is enabled for the incident's severity. */
  lemma {:induction false} SelectedGoesFirst(inc: Incident, rules: seq<Rule>, fallback: Option<Rule>)
    ensures var sel := Selected(inc, rules, fallback);
      if exists r :: r in rules && Applies(inc, r) then
        sel.Some? && sel.value in rules && Applies(inc, sel.value)
        && forall r :: r in rules && Applies(inc, r) ==> NotAhead(inc, r, sel.value)
      else if fallback.Some? && fallback.value.enabled && AtLeast(inc.severity, fallback.value.minSeverity) then sel == fallback
      else sel == None
  {
    CandidatesAre(inc, rules);
    var cs := Candidates(inc, rules);
    forall r ensures IsCandidate(inc, r) <==> Applies(inc, r) { RankOrders(inc.severity, r.minSeverity); }
    if fallback.Some? { RankOrders(inc.severity, fallback.value.minSeverity); }
    if cs != [] {
      BestIsUnbeaten(inc, cs);
      assert cs[0] in cs && Applies(inc, cs[0]);
      forall r | r in rules && Applies(inc, r) ensures NotAhead(inc, r, Best(inc, cs)) {
        assert r in cs;
        NotAheadIff(inc, r, Best(inc, cs));
      }
    } else {
      forall r | r in rules ensures !Applies(inc, r) { assert IsCandidate(inc, r) ==> r in cs; }
    }
    hide Candidates, IsCandidate, Applies, NotAhead, Best, Rank;
  }

  /** Only a valid incident in ANOMALY_DETECTED gets a decision; it carries the selected rule, and an id computed from the
      incident, the policy and the rule's action and target. */
  lemma {:induction false} EvaluationDecides(cfg: Config, inc: Incident, rules: seq<Rule>, fallback: Option<Rule>)
    ensures var r := AfterEvaluate(cfg, inc, rules, fallback);
      && (!inc.valid <==> r == Err(InvalidIncident))
      && (inc.valid ==>
           && (inc.status == Normal <==> r == Err(NotActionable)) && (inc.status == Mitigating <==> r == Err(AlreadyMitigating))
           && (inc.status == Recovered <==> r == Err(AlreadyRecovered)) && (inc.status == Escalated <==> r == Err(AlreadyEscalated)))
      && (inc.valid && inc.status == AnomalyDetected ==>
           var sel := Selected(inc, rules, fallback);
           && (r == Err(NoRuleMatched) <==> sel == None)
           && (sel.Some? ==>
                r.Ok? && r.value.rule == sel.value && r.value.incident == inc.id && r.value.node == inc.node
                && r.value.id == cfg.idOf(inc.id, cfg.name, cfg.version, sel.value.action, sel.value.target)))
  {
    hide Selected;
  }

  // ---- Order independence -----------------------------------------------------------

  ghost predicate OrderIndependent(inc: Incident, rules: seq<Rule>, fallback: Option<Rule>) {
    forall other: seq<Rule> :: multiset(other) == multiset(rules) ==> Selected(inc, other, fallback) == Selected(inc, rules, fallback)
  }

  /** No two different candidates are both unbeaten. */
  predicate SingleUnbeaten(inc: Incident, rules: seq<Rule>) {
    forall a, b :: a in rules && b in rules && Unbeaten(inc, Candidates(inc, rules), a) && Unbeaten(inc, Candidates(inc, rules), b) ==> a == b
  }

  lemma PermutationKeepsUnbeaten(inc: Incident, rules: seq<Rule>, other: seq<Rule>, r: Rule)
    requires multiset(other) == multiset(rules)
    ensures Unbeaten(inc, Candidates(inc, other), r) <==> Unbeaten(inc, Candidates(inc, rules), r)
    ensures Candidates(inc, other) == [] <==> Candidates(inc, rules) == []
  {
    SameMembers(rules, other);
    CandidatesAre(inc, rules);
    CandidatesAre(inc, other);
    forall x ensures x in Candidates(inc, other) <==> x in Candidates(inc, rules) {}
    assert Candidates(inc, other) != [] ==> Candidates(inc, other)[0] in Candidates(inc, rules);
    assert Candidates(inc, rules) != [] ==> Candidates(inc, rules)[0] in Candidates(inc, other);
  }

  lemma SameMembers(a: seq<Rule>, b: seq<Rule>)
    requires multiset(a) == multiset(b)
    ensures forall x :: x in a <==> x in b
  {
    forall x ensures x in a <==> x in b {
      assert x in a <==> x in multiset(a);
      assert x in b <==> x in multiset(b);
    }
  }

  function ToFront(s: seq<Rule>, i: nat): seq<Rule>
    requires i < |s|
  {
    [s[i]] + s[..i] + s[i + 1..]
  }

  lemma ToFrontPermutes(s: seq<Rule>, i: nat)
    requires i < |s|
    ensures multiset(ToFront(s, i)) == multiset(s)
  {
    assert s == s[..i] + [s[i]] + s[i + 1..];
  }

  lemma {:induction false} FirstCandidateStays(inc: Incident, s: seq<Rule>)
    requires s != [] && IsCandidate(inc, s[0])
    ensures Candidates(inc, s) != [] && Candidates(inc, s)[0] == s[0]
  {
    if |s| > 1 { FirstCandidateStays(inc, s[..|s| - 1]); } else { assert Candidates(inc, s[..0]) == []; }
  }

  /** Put first, an unbeaten candidate is the one selected. */
  lemma {:induction false} FirstUnbeatenIsSelected(inc: Incident, rules: seq<Rule>, i: nat, fallback: Option<Rule>)
    requires i < |rules| && Unbeaten(inc, Candidates(inc, rules), rules[i])
    ensures Selected(inc, ToFront(rules, i), fallback) == Some(rules[i])
  {
    var other := ToFront(rules, i);
    ToFrontPermutes(rules, i);
    CandidatesAre(inc, rules);
    FirstCandidateStays(inc, other);
    PermutationKeepsUnbeaten(inc, rules, other, rules[i]);
    BestIsFirst(inc, Candidates(inc, other));
  }

  /** The selection depends on the order in which rules were added exactly when two different candidates are
      both unbeaten, which takes two candidates with the same rule id. */
  lemma {:induction false} OrderIndependentIff(inc: Incident, rules: seq<Rule>, fallback: Option<Rule>)
    ensures OrderIndependent(inc, rules, fallback) <==> SingleUnbeaten(inc, rules)
    ensures DistinctIds(rules) ==> SingleUnbeaten(inc, rules)
  {
    CandidatesAre(inc, rules);
    if SingleUnbeaten(inc, rules) { SingleIsIndependent(inc, rules, fallback); }
    if OrderIndependent(inc, rules, fallback) { IndependentIsSingle(inc, rules, fallback); }
    if DistinctIds(rules) { DistinctIsSingle(inc, rules); }
  }

  lemma DistinctIsSingle(inc: Incident, rules: seq<Rule>)
    requires DistinctIds(rules)
    ensures SingleUnbeaten(inc, rules)
  {
    forall a, b | a in rules && b in rules && Unbeaten(inc, Candidates(inc, rules), a) && Unbeaten(inc, Candidates(inc, rules), b)
      ensures a == b
    {
      BetterIsStrictTotalOrder(inc, a, b, a);
      if a.id == b.id {
        var i :| 0 <= i < |rules| && rules[i] == a;
        var j :| 0 <= j < |rules| && rules[j] == b;
      }
    }
  }

  lemma SingleIsIndependent(inc: Incident, rules: seq<Rule>, fallback: Option<Rule>)
    requires SingleUnbeaten(inc, rules)
    ensures OrderIndependent(inc, rules, fallback)
  {
    forall other: seq<Rule> | multiset(other) == multiset(rules)
      ensures Selected(inc, other, fallback) == Selected(inc, rules, fallback)
    {
      var cs, cs' := Candidates(inc, rules), Candidates(inc, other);
      CandidatesAre(inc, rules);
      CandidatesAre(inc, other);
      PermutationKeepsUnbeaten(inc, rules, other, if cs != [] then Best(inc, cs) else Rule("", 0, false, "", Low, "", "", 0));
      if cs != [] {
        SameMembers(rules, other);
        BestIsUnbeaten(inc, cs);
        BestIsUnbeaten(inc, cs');
        PermutationKeepsUnbeaten(inc, rules, other, Best(inc, cs'));
        assert Best(inc, cs') in rules && Best(inc, cs) in rules;
      }
    }
  }

  lemma IndependentIsSingle(inc: Incident, rules: seq<Rule>, fallback: Option<Rule>)
    requires OrderIndependent(inc, rules, fallback)
    ensures SingleUnbeaten(inc, rules)
  {
    forall a, b | a in rules && b in rules && Unbeaten(inc, Candidates(inc, rules), a) && Unbeaten(inc, Candidates(inc, rules), b)
      ensures a == b
    {
      var i :| 0 <= i < |rules| && rules[i] == a;
      var j :| 0 <= j < |rules| && rules[j] == b;
      ToFrontPermutes(rules, i);
      ToFrontPermutes(rules, j);
      FirstUnbeatenIsSelected(inc, rules, i, fallback);
      FirstUnbeatenIsSelected(inc, rules, j, fallback);
    }
  }

  /** Two rules with one id: whichever was added first is selected. */
  lemma EqualIdsDependOnOrder(inc: Incident, a: Rule, b: Rule)
    requires a == Rule("r", 1, true, "*", Low, "throttle", "x", 0) && b == a.(target := "y") && inc.severity == High
    ensures Selected(inc, [a, b], None) == Some(a) && Selected(inc, [b, a], None) == Some(b)
  {
    BetterIsStrictTotalOrder(inc, a, a, a);
    OfTwo(inc, a, b);
    OfTwo(inc, b, a);
  }

  /** Of two candidates neither of which beats the other, the first is best. */
  lemma OfTwo(inc: Incident, a: Rule, b: Rule)
    requires IsCandidate(inc, a) && IsCandidate(inc, b) && !Better(inc, b, a)
    ensures Candidates(inc, [a, b]) == [a, b] && Best(inc, [a, b]) == a
  {
    assert [a, b][..1] == [a] && [a][..0] == [];
    assert Candidates(inc, [a][..0]) == [];
    assert Candidates(inc, [a]) == [a];
  }

  // ---- The sort ---------------------------------------------------------------------

  predicate Ordered(inc: Incident, s: seq<Rule>) {
    forall i, j :: 0 <= i < j < |s| ==> !Better(inc, s[j], s[i])
  }

  lemma {:induction false} InsertAdds(inc: Incident, s: seq<Rule>, r: Rule)
    ensures multiset(InsertRule(inc, s, r)) == multiset(s) + multiset{r}
  {
    hide Better;
    if s != [] {
      assert s == s[..|s| - 1] + [s[|s| - 1]];
      InsertAdds(inc, s[..|s| - 1], r);
    }
  }

  lemma InsertMembers(inc: Incident, s: seq<Rule>, r: Rule)
    ensures forall x :: x in InsertRule(inc, s, r) ==> x in s || x == r
  {
    InsertAdds(inc, s, r);
    forall x | x in InsertRule(inc, s, r) ensures x in s || x == r {
      assert x in multiset(InsertRule(inc, s, r));
      assert x in multiset(s) ==> x in s;
    }
  }

  /** What is not better than the last of an ordered sequence is better than none of it. */
  lemma NotBetterThanAny(inc: Incident, s: seq<Rule>, r: Rule)
    requires Ordered(inc, s) && s != [] && !Better(inc, r, s[|s| - 1])
    ensures forall i :: 0 <= i < |s| ==> !Better(inc, r, s[i])
  {
    var last := s[|s| - 1];
    forall i | 0 <= i < |s| ensures !Better(inc, r, s[i]) {
      if i < |s| - 1 && Better(inc, r, s[i]) { BetterIsWeakOrder(inc, r, s[i], last); }
    }
  }

  lemma {:induction false} InsertOrders(inc: Incident, s: seq<Rule>, r: Rule)
    requires Ordered(inc, s)
    ensures Ordered(inc, InsertRule(inc, s, r))
    ensures s != [] ==> InsertRule(inc, s, r)[0] == if Better(inc, r, s[0]) then r else s[0]
  {
    if s != [] {
      var f, last := s[..|s| - 1], s[|s| - 1];
      if Better(inc, r, last) {
        InsertOrders(inc, f, r);
        InsertMembers(inc, f, r);
        BetterIsStrictTotalOrder(inc, r, last, r);
        hide Better;
        var t := InsertRule(inc, f, r);
        forall i | 0 <= i < |t| ensures !Better(inc, last, t[i]) {
          if t[i] != r { assert t[i] in f; }
        }
      } else {
        NotBetterThanAny(inc, s, r);
        hide Better;
      }
    }
  }

  /** The sort orders the candidates and puts the best one first. */
  lemma {:induction false} SortPutsBestFirst(inc: Incident, s: seq<Rule>)
    ensures Ordered(inc, SortRules(inc, s)) && multiset(SortRules(inc, s)) == multiset(s)
    ensures s != [] ==> SortRules(inc, s) != [] && SortRules(inc, s)[0] == Best(inc, s)
  {
    if s != [] {
      var f, r := s[..|s| - 1], s[|s| - 1];
      assert s == f + [r];
      SortPutsBestFirst(inc, f);
      InsertOrders(inc, SortRules(inc, f), r);
      InsertAdds(inc, SortRules(inc, f), r);
      if f != [] {
        assert SortRules(inc, f)[0] == Best(inc, f);
      }
    }
  }

  class RuleBasedPolicy {
    const cfg: Config
    var rules: seq<Rule>
    var fallback: Option<Rule>

    constructor (cfg: Config, rules: seq<Rule>, fallback: Option<Rule>)
      ensures this.cfg == cfg && this.rules == rules && this.fallback == fallback
    {
      this.cfg, this.rules, this.fallback := cfg, rules, fallback;
    }

    method AddRule(rule: Rule)
      modifies this`rules
      ensures rules == old(rules) + [rule]
    {
      rules := rules + [rule];
    }

    /** Filter, stable sort, first candidate; the fallback when there is none. */
    method Evaluate(inc: Incident) returns (r: Result<Decision, Error>)
      ensures r == AfterEvaluate(cfg, inc, rules, fallback)
    {
      if !inc.valid { return Err(InvalidIncident); }
      match inc.status {
        case Normal => return Err(NotActionable);
        case Mitigating => return Err(AlreadyMitigating);
        case Recovered => return Err(AlreadyRecovered);
        case Escalated => return Err(AlreadyEscalated);
        case AnomalyDetected =>
      }
      var candidates: seq<Rule> := [];
      for i := 0 to |rules|
        invariant candidates == Candidates(inc, rules[..i])
      {
        assert rules[..i + 1][..i] == rules[..i];
        var c := rules[i];
        if c.enabled && Rank(inc.severity) >= Rank(c.minSeverity)
           && (c.metric == inc.metric || c.metric == "" || c.metric == "*") {
          candidates := candidates + [c];
        }
      }
      assert rules[..|rules|] == rules;
      var selected: Option<Rule> := None;
      if |candidates| > 0 {
        SortPutsBestFirst(inc, candidates);
        var sorted := SortCandidates(inc, candidates);
        selected := Some(sorted[0]);
      } else if fallback.Some? && fallback.value.enabled && Rank(inc.severity) >= Rank(fallback.value.minSeverity) {
        selected := fallback;
      }
      if selected.None? { return Err(NoRuleMatched); }
      var id := cfg.idOf(inc.id, cfg.name, cfg.version, selected.value.action, selected.value.target);
      return Ok(Decision(id, inc.id, inc.node, selected.value));
    }
  }

  method SortCandidates(inc: Incident, s: seq<Rule>) returns (r: seq<Rule>)
    ensures r == SortRules(inc, s)
  {
    r := [];
    for i := 0 to |s|
      invariant r == SortRules(inc, s[..i])
    {
      assert s[..i + 1][..i] == s[..i];
      r := InsertCandidate(inc, r, s[i]);
    }
    assert s[..|s|] == s;
  }

  method InsertCandidate(inc: Incident, s: seq<Rule>, x: Rule) returns (r: seq<Rule>)
    ensures r == InsertRule(inc, s, x)
  {
    var j := |s|;
    assert s[..j] == s && InsertRule(inc, s[..j], x) + s[j..] == InsertRule(inc, s, x);
    while j > 0 && Better(inc, x, s[j - 1])
      invariant 0 <= j <= |s|
      invariant InsertRule(inc, s, x) == InsertRule(inc, s[..j], x) + s[j..]
    {
      assert s[..j][..j - 1] == s[..j - 1];
      assert InsertRule(inc, s[..j - 1], x) + [s[j - 1]] + s[j..] == InsertRule(inc, s[..j - 1], x) + s[j - 1..];
      j := j - 1;
    }
    r := s[..j] + [x] + s[j..];
  }
}
