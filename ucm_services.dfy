/** The current generation of the `cisco_ucm_services` check plugin: the
    agent section of service records, rule-based discovery, per-item state
    evaluation, the cluster check and the services summary. */
module UcmServices {
  import opened PyBase
  import opened CheckmkApi

  /** `CUCMService`: one row of the agent section. The reason code is kept
      as the string the agent sent. */
  datatype CucmService = CucmService(name: string, state: string, reasonCode: string, reasonStr: string)

  type Section = seq<CucmService>

  /** `re.match(pattern, name) is not None` (equivalently
      `re.compile(pattern).match(name)`); Python's regular expressions are
      not modelled, the check is given the matcher. */
  type Matcher = (string, string) -> bool

  // ===================== parse_cisco_ucm_services =====================

  /** The list comprehension that turns each row into a `CUCMService`. */
  function ParseCiscoUcmServices(table: StringTable): (r: Try<Section>)
    ensures r.Return? <==> RowsOfWidth(table, 4)
    ensures r.Return? ==> |r.value| == |table|
    ensures r.Return? ==> forall i :: 0 <= i < |table| ==>
      r.value[i] == CucmService(table[i][0], table[i][1], table[i][2], table[i][3])
    ensures r.Raise? ==> r.error.ValueError?
  {
    if table == [] then Return([])
    else if |table[0]| != 4 then Raise(UnpackError(|table[0]|, 4))
    else
      match ParseCiscoUcmServices(table[1..])
      case Raise(e) => Raise(e)
      case Return(rest) => Return([CucmService(table[0][0], table[0][1], table[0][2], table[0][3])] + rest)
  }

  /** The agent line a record comes from. */
  function Rows(section: Section): (table: StringTable)
    ensures |table| == |section|
  {
    seq(|section|, i requires 0 <= i < |section| =>
      [section[i].name, section[i].state, section[i].reasonCode, section[i].reasonStr])
  }

  /** Parsing the lines of a section gives back that section. */
  lemma ParseRows(section: Section)
    ensures ParseCiscoUcmServices(Rows(section)) == Return(section)
  {
    var table := Rows(section);
    assert RowsOfWidth(table, 4);
    var parsed := ParseCiscoUcmServices(table).value;
    forall i | 0 <= i < |section| ensures parsed[i] == section[i] {
      assert table[i] == [section[i].name, section[i].state, section[i].reasonCode, section[i].reasonStr];
    }
    assert parsed == section;
  }

  // ===================== discovery_cisco_ucm_services =====================

  /** One discovery rule as configured: a list of service name regexes
      (a missing list is the empty list) and an optional expected state. */
  datatype RuleGroup = RuleGroup(services: seq<string>, state: Option<string>)

  /** An expanded `(svc, state)` entry. */
  datatype Rule = Rule(pattern: Option<string>, state: Option<string>)

  /** Python truthiness of an optional string: neither None nor empty. */
  predicate Truthy(s: Option<string>) {
    s.Some? && s.value != ""
  }

  /** The entries one configured group contributes, in list order. */
  function GroupRules(g: RuleGroup): (rules: seq<Rule>)
    ensures |rules| == if |g.services| > 0 then |g.services| else 1
  {
    if |g.services| > 0 then
      seq(|g.services|, i requires 0 <= i < |g.services| => Rule(Some("~" + g.services[i]), g.state))
    else
      [Rule(None, g.state)]
  }

  /** The `rules` list, group after group. */
  function ExpandedRules(groups: seq<RuleGroup>): seq<Rule> {
    if groups == [] then []
    else ExpandedRules(groups[..|groups| - 1]) + GroupRules(groups[|groups| - 1])
  }

  /** The loop that extracts the rules from the configured groups. */
  method ExpandRules(params: seq<RuleGroup>) returns (rules: seq<Rule>)
    ensures rules == ExpandedRules(params)
  {
    rules := [];
    var i := 0;
    while i < |params|
      invariant 0 <= i <= |params|
      invariant rules == ExpandedRules(params[..i])
    {
      var svcs := params[i].services;
      var serviceState := params[i].state;
      ghost var before := rules;
      if |svcs| > 0 {
        var j := 0;
        while j < |svcs|
          invariant 0 <= j <= |svcs|
          invariant rules == before + GroupRules(params[i])[..j]
        {
          rules := rules + [Rule(Some("~" + svcs[j]), serviceState)];
          j := j + 1;
        }
      } else {
        rules := rules + [Rule(None, serviceState)];
      }
      assert params[..i + 1][..i] == params[..i];
      i := i + 1;
    }
    assert params[..i] == params;
  }

  lemma {:induction false} ExpandedRulesAppend(a: seq<RuleGroup>, b: seq<RuleGroup>)
    ensures ExpandedRules(a + b) == ExpandedRules(a) + ExpandedRules(b)
  {
    if b != [] {
      assert (a + b)[..|a + b| - 1] == a + b[..|b| - 1];
      ExpandedRulesAppend(a, b[..|b| - 1]);
    } else {
      assert a + b == a;
    }
  }

  /** Every expanded entry has no pattern or a `~`-prefixed one, so the
      branch of `add_matching_services` for a pattern without `~` is never
      taken from discovery. */
  lemma {:induction false} ExpandedRulesTilde(groups: seq<RuleGroup>)
    ensures forall r :: r in ExpandedRules(groups) ==>
      r.pattern.None? || (|r.pattern.value| > 0 && r.pattern.value[0] == '~')
  {
    if groups != [] {
      ExpandedRulesTilde(groups[..|groups| - 1]);
    }
  }

  /** The expected state of an entry accepts a record: unset or empty, or
      equal to the record's state ignoring case. */
  predicate StateAccepts(expected: Option<string>, service: CucmService) {
    !Truthy(expected) || Lower(expected.value) == Lower(service.state)
  }

  /** `add_matching_services(service, entry)`: the record's item, or
      nothing. A name without `~` is compared for equality and then, as
      written, `svc[1:]` is used as the regex. */
  function AddMatchingServices(service: CucmService, rule: Rule, matches: Matcher): (r: seq<Service>)
    ensures r == [] || r == [Service(Some(service.name))]
    ensures r != [] ==> StateAccepts(rule.state, service)
    ensures r != [] && Truthy(rule.pattern) && rule.pattern.value[0] != '~' ==>
      rule.pattern.value == service.name && matches(rule.pattern.value[1..], service.name)
  {
    if Truthy(rule.pattern) && rule.pattern.value[0] != '~' && rule.pattern.value != service.name then []
    else if Truthy(rule.pattern) && !matches(rule.pattern.value[1..], service.name) then []
    else if !StateAccepts(rule.state, service) then []
    else [Service(Some(service.name))]
  }

  /** The inner loop of discovery: one record against every rule. */
  function MatchRules(service: CucmService, rules: seq<Rule>, matches: Matcher): seq<Service> {
    if rules == [] then []
    else AddMatchingServices(service, rules[0], matches) + MatchRules(service, rules[1..], matches)
  }

  /** The outer loop of discovery: every record, in section order. */
  function DiscoverWithRules(rules: seq<Rule>, section: Section, matches: Matcher): seq<Service> {
    if section == [] then []
    else MatchRules(section[0], rules, matches) + DiscoverWithRules(rules, section[1..], matches)
  }

  /** A configured group selects a record: it has no patterns or one of its
      patterns matches at the start of the name, and its state accepts the
      record. */
  predicate GroupSelects(g: RuleGroup, service: CucmService, matches: Matcher) {
    (|g.services| == 0 || exists svc :: svc in g.services && matches(svc, service.name))
    && StateAccepts(g.state, service)
  }

  /** `discovery_cisco_ucm_services` */
  method DiscoveryCiscoUcmServices(params: seq<RuleGroup>, section: Section, matches: Matcher)
    returns (services: seq<Service>)
    ensures services == DiscoverWithRules(ExpandedRules(params), section, matches)
    ensures section == [] ==> services == []
    ensures forall x :: x in services ==> exists s :: s in section && x == Service(Some(s.name))
    ensures forall n :: Service(Some(n)) in services <==>
      exists s, g :: s in section && s.name == n && g in params && GroupSelects(g, s, matches)
  {
    var rules := ExpandRules(params);
    services := DiscoverWithRules(rules, section, matches);
    DiscoverWithRulesItems(rules, section, matches);
    forall n
      ensures Service(Some(n)) in services <==>
        exists s, g :: s in section && s.name == n && g in params && GroupSelects(g, s, matches)
    {
      DiscoveredIff(params, section, n, matches);
    }
  }

  lemma {:induction false} MatchRulesItems(service: CucmService, rules: seq<Rule>, matches: Matcher)
    ensures forall x :: x in MatchRules(service, rules, matches) ==> x == Service(Some(service.name))
    ensures MatchRules(service, rules, matches) != [] <==>
      exists r :: r in rules && AddMatchingServices(service, r, matches) != []
  {
    if rules != [] {
      MatchRulesItems(service, rules[1..], matches);
      assert forall r :: r in rules <==> r == rules[0] || r in rules[1..];
    }
  }

  /** Every discovered item is the name of a record of the section. */
  lemma {:induction false} DiscoverWithRulesItems(rules: seq<Rule>, section: Section, matches: Matcher)
    ensures forall x :: x in DiscoverWithRules(rules, section, matches) ==>
      exists s :: s in section && x == Service(Some(s.name))
  {
    if section != [] {
      MatchRulesItems(section[0], rules, matches);
      DiscoverWithRulesItems(rules, section[1..], matches);
      assert section[0] in section;
      assert forall s :: s in section[1..] ==> s in section;
    }
  }

  /** Discovery is record-major: the items of a section are those of its
      first part followed by those of the rest. */
  lemma {:induction false} DiscoverWithRulesAppend(rules: seq<Rule>, a: Section, b: Section, matches: Matcher)
    ensures DiscoverWithRules(rules, a + b, matches) ==
      DiscoverWithRules(rules, a, matches) + DiscoverWithRules(rules, b, matches)
  {
    if a != [] {
      assert (a + b)[0] == a[0];
      assert (a + b)[1..] == a[1..] + b;
      DiscoverWithRulesAppend(rules, a[1..], b, matches);
    } else {
      assert a + b == b;
    }
  }

  /** A name is discovered exactly when some record of that name matches
      some rule. */
  lemma {:induction false} DiscoveredNames(rules: seq<Rule>, section: Section, matches: Matcher, n: string)
    ensures Service(Some(n)) in DiscoverWithRules(rules, section, matches) <==>
      exists t :: t in section && t.name == n && MatchRules(t, rules, matches) != []
  {
    if section != [] {
      DiscoveredNames(rules, section[1..], matches, n);
      MatchRulesItems(section[0], rules, matches);
      var head := MatchRules(section[0], rules, matches);
      if head != [] {
        assert head[0] in head;
      }
      assert forall t :: t in section <==> t == section[0] || t in section[1..];
    }
  }

  /** One group's entries select a record exactly when the group does. */
  lemma GroupRulesSelect(g: RuleGroup, service: CucmService, matches: Matcher)
    ensures (exists r :: r in GroupRules(g) && AddMatchingServices(service, r, matches) != []) <==>
      GroupSelects(g, service, matches)
  {
    var rules := GroupRules(g);
    if |g.services| > 0 {
      forall i | 0 <= i < |g.services|
        ensures AddMatchingServices(service, rules[i], matches) != [] <==>
          matches(g.services[i], service.name) && StateAccepts(g.state, service)
      {
        var p := "~" + g.services[i];
        assert p[0] == '~' && p[1..] == g.services[i];
      }
      if GroupSelects(g, service, matches) {
        var svc :| svc in g.services && matches(svc, service.name);
        var i :| 0 <= i < |g.services| && g.services[i] == svc;
        assert rules[i] in rules;
      }
    } else {
      assert rules[0] in rules;
    }
  }

  /** The expanded entries select a record exactly when some configured
      group does. */
  lemma {:induction false} ExpandedRulesSelect(groups: seq<RuleGroup>, service: CucmService, matches: Matcher)
    ensures (exists r :: r in ExpandedRules(groups) && AddMatchingServices(service, r, matches) != []) <==>
      exists g :: g in groups && GroupSelects(g, service, matches)
  {
    if groups != [] {
      var init, last := groups[..|groups| - 1], groups[|groups| - 1];
      ExpandedRulesSelect(init, service, matches);
      GroupRulesSelect(last, service, matches);
      assert forall g :: g in groups <==> g in init || g == last;
      assert forall r :: r in ExpandedRules(groups) <==> r in ExpandedRules(init) || r in GroupRules(last);
    }
  }

  /** A name is discovered exactly when some configured group selects some
      record of that name. */
  lemma DiscoveredIff(params: seq<RuleGroup>, section: Section, n: string, matches: Matcher)
    ensures Service(Some(n)) in DiscoverWithRules(ExpandedRules(params), section, matches) <==>
      exists s, g :: s in section && s.name == n && g in params && GroupSelects(g, s, matches)
  {
    var rules := ExpandedRules(params);
    DiscoveredNames(rules, section, matches, n);
    forall t | t in section
      ensures MatchRules(t, rules, matches) != [] <==> exists g :: g in params && GroupSelects(g, t, matches)
    {
      MatchRulesItems(t, rules, matches);
      ExpandedRulesSelect(params, t, matches);
    }
  }

  /** The discovery default parameters: every record whose state is
      "Started" in any letter case. */
  const DefaultDiscoveryGroup := RuleGroup([], Some("Started"))

  lemma DefaultDiscovery(section: Section, n: string, matches: Matcher)
    ensures Service(Some(n)) in DiscoverWithRules(ExpandedRules([DefaultDiscoveryGroup]), section, matches) <==>
      exists s :: s in section && s.name == n && Lower(s.state) == "started"
  {
    DiscoveredIff([DefaultDiscoveryGroup], section, n, matches);
    assert Lower("Started") == "started";
  }

  // ===================== state evaluation =====================

  /** The check parameters; each key of the dictionary may be missing. */
  datatype CheckParams = CheckParams(
    states: Option<seq<(Option<string>, State)>>,
    elseState: Option<State>,
    additionalServicenames: Option<seq<string>>)

  function StateRules(params: CheckParams): seq<(Option<string>, State)> {
    params.states.GetOr([(Some("Started"), OK)])
  }

  function ElseState(params: CheckParams): State {
    params.elseState.GetOr(CRIT)
  }

  function AdditionalNames(params: CheckParams): seq<string> {
    params.additionalServicenames.GetOr([])
  }

  /** `_wildcard(value, reference)`: None matches anything, otherwise the
      comparison is exact and case-sensitive. */
  predicate Wildcard(value: Option<string>, reference: string): (b: bool)
    ensures value.None? ==> b
    ensures value.Some? && b ==> Lower(value.value) == Lower(reference)
  {
    value.None? || value.value == reference
  }

  /** The index of the first pair whose expected state matches, or -1. */
  function FirstMatchIndex(rules: seq<(Option<string>, State)>, reference: string): (k: int)
    ensures -1 <= k < |rules|
    ensures k >= 0 ==> Wildcard(rules[k].0, reference)
    ensures forall j :: 0 <= j < |rules| && (k < 0 || j < k) ==> !Wildcard(rules[j].0, reference)
  {
    if rules == [] then -1
    else if Wildcard(rules[0].0, reference) then 0
    else
      var k := FirstMatchIndex(rules[1..], reference);
      assert forall j :: 1 <= j < |rules| ==> rules[j] == rules[1..][j - 1];
      if k < 0 then -1 else k + 1
  }

  /** The loop of `_match_service_against_params`, returning at the first
      pair whose expected state matches. */
  function FirstMatch(rules: seq<(Option<string>, State)>, reference: string, default: State): (r: State)
    ensures var k := FirstMatchIndex(rules, reference);
      r == if k < 0 then default else rules[k].1
  {
    if rules == [] then default
    else if Wildcard(rules[0].0, reference) then rules[0].1
    else FirstMatch(rules[1..], reference, default)
  }

  /** `_match_service_against_params(params, service)`: the state of the
      first configured pair (by default `[("Started", OK)]`) whose expected
      state matches the record's state, or the `else` state (CRIT by
      default). */
  function MatchServiceAgainstParams(params: CheckParams, service: CucmService): (r: State)
    ensures var rules := StateRules(params);
      var k := FirstMatchIndex(rules, service.state);
      && (k >= 0 ==> Wildcard(rules[k].0, service.state) && r == rules[k].1)
      && (k < 0 ==> (forall j :: 0 <= j < |rules| ==> !Wildcard(rules[j].0, service.state)) && r == ElseState(params))
  {
    FirstMatch(StateRules(params), service.state, ElseState(params))
  }

  /** The state of the first pair whose expected state matches wins. */
  lemma {:induction false} FirstMatchWins(rules: seq<(Option<string>, State)>, reference: string, default: State, i: nat)
    requires i < |rules| && Wildcard(rules[i].0, reference)
    requires forall j :: 0 <= j < i ==> !Wildcard(rules[j].0, reference)
    ensures FirstMatch(rules, reference, default) == rules[i].1
  {
    if i > 0 {
      assert !Wildcard(rules[0].0, reference);
      FirstMatchWins(rules[1..], reference, default, i - 1);
    }
  }

  /** With no matching pair the `else` state is used. */
  lemma {:induction false} FirstMatchDefault(rules: seq<(Option<string>, State)>, reference: string, default: State)
    requires forall j :: 0 <= j < |rules| ==> !Wildcard(rules[j].0, reference)
    ensures FirstMatch(rules, reference, default) == default
  {
    if rules != [] {
      assert !Wildcard(rules[0].0, reference);
      FirstMatchDefault(rules[1..], reference, default);
    }
  }

  /** With the default parameters a service is OK exactly when its state
      is "Started" (case-sensitively), and CRIT otherwise. */
  lemma DefaultParamsEvaluation(service: CucmService)
    ensures MatchServiceAgainstParams(CheckParams(None, None, None), service) ==
      if service.state == "Started" then OK else CRIT
  {
    var rules := StateRules(CheckParams(None, None, None));
    if service.state != "Started" {
      FirstMatchDefault(rules, service.state, CRIT);
    }
  }

  /** The expected states are compared case-sensitively: a pair for
      "started", as the rule form offers it, does not match a record whose
      state is "Started". */
  lemma ExpectedStateCaseSensitive(service: CucmService, else_: State)
    requires service.state == "Started"
    ensures MatchServiceAgainstParams(CheckParams(Some([(Some("started"), OK)]), Some(else_), None), service) == else_
  {
    assert "started"[0] != "Started"[0];
  }

  // ===================== check_cisco_ucm_services_single =====================

  predicate Selects(item: string, names: seq<string>, service: CucmService) {
    item == service.name || service.name in names
  }

  /** The records a check for `item` looks at, in section order. */
  function Selected(item: string, names: seq<string>, section: Section): (sel: seq<CucmService>)
    ensures forall s :: s in sel ==> s in section && Selects(item, names, s)
    ensures forall s :: s in section && Selects(item, names, s) ==> s in sel
  {
    if section == [] then []
    else if Selects(item, names, section[0]) then [section[0]] + Selected(item, names, section[1..])
    else Selected(item, names, section[1..])
  }

  /** Selection keeps section order: the records selected from two parts
      are those of the first part followed by those of the second. */
  lemma {:induction false} SelectedAppend(item: string, names: seq<string>, a: Section, b: Section)
    ensures Selected(item, names, a + b) == Selected(item, names, a) + Selected(item, names, b)
  {
    if a != [] {
      assert (a + b)[1..] == a[1..] + b;
      SelectedAppend(item, names, a[1..], b);
    } else {
      assert a + b == b;
    }
  }

  /** `"name: state"`, followed by `" code: reason"` when the code is positive. */
  function ServiceSummary(service: CucmService, code: int): string {
    service.name + ": " + service.state
    + (if code > 0 then " " + service.reasonCode + ": " + service.reasonStr else "")
  }

  /** The result for one selected record whose code parsed as `code`. */
  function ServiceResult(params: CheckParams, service: CucmService, code: int): Result {
    Result(MatchServiceAgainstParams(params, service), Summary(ServiceSummary(service, code)), None)
  }

  /** `check_cisco_ucm_services_single`, consumed completely: one result per
      selected record, or the ValueError of the first selected record whose
      reason code is not an integer. */
  function CheckCiscoUcmServicesSingle(item: string, params: CheckParams, section: Section): (r: Try<seq<Result>>)
    ensures r.Raise? ==> r.error.ValueError?
    ensures r.Return? ==> |r.value| == |Selected(item, AdditionalNames(params), section)|
  {
    if section == [] then Return([])
    else
      var service := section[0];
      if Selects(item, AdditionalNames(params), service) then
        match ParseInt(service.reasonCode)
        case Raise(e) => Raise(e)
        case Return(code) =>
          match CheckCiscoUcmServicesSingle(item, params, section[1..])
          case Raise(e) => Raise(e)
          case Return(rest) => Return([ServiceResult(params, service, code)] + rest)
      else
        CheckCiscoUcmServicesSingle(item, params, section[1..])
  }

  /** The single check raises exactly when some selected record's reason
      code is not an integer. */
  lemma {:induction false} CheckSingleRaises(item: string, params: CheckParams, section: Section)
    ensures CheckCiscoUcmServicesSingle(item, params, section).Raise? <==>
      exists s :: s in Selected(item, AdditionalNames(params), section) && ParseInt(s.reasonCode).Raise?
  {
    if section != [] {
      var names := AdditionalNames(params);
      var tail := section[1..];
      var s0 := section[0];
      var sel := Selected(item, names, section);
      var selTail := Selected(item, names, tail);
      CheckSingleRaises(item, params, tail);
      if Selects(item, names, s0) {
        assert sel == [s0] + selTail;
        if ParseInt(s0.reasonCode).Raise? {
          assert CheckCiscoUcmServicesSingle(item, params, section).Raise?;
          assert s0 in sel;
        } else {
          assert CheckCiscoUcmServicesSingle(item, params, section).Raise? <==>
            CheckCiscoUcmServicesSingle(item, params, tail).Raise?;
          assert forall s :: s in sel ==> s == s0 || s in selTail;
          assert forall s :: s in selTail ==> s in sel;
        }
      } else {
        assert sel == selTail;
        assert CheckCiscoUcmServicesSingle(item, params, section) == CheckCiscoUcmServicesSingle(item, params, tail);
      }
    }
  }

  /** One result per record of `sel`, in order, or the ValueError of the
      first record whose reason code is not an integer. This restates the
      single check over the selected records only so that
      `CheckSingleIsResultsFor` and `ResultsForIndex` can reason about it
      one record at a time. */
  function ResultsFor(params: CheckParams, sel: seq<CucmService>): Try<seq<Result>> {
    if sel == [] then Return([])
    else
      match ParseInt(sel[0].reasonCode)
      case Raise(e) => Raise(e)
      case Return(code) =>
        match ResultsFor(params, sel[1..])
        case Raise(e) => Raise(e)
        case Return(rest) => Return([ServiceResult(params, sel[0], code)] + rest)
  }

  /** The single check is `ResultsFor` over the selected records. */
  lemma {:induction false} CheckSingleIsResultsFor(item: string, params: CheckParams, section: Section)
    ensures CheckCiscoUcmServicesSingle(item, params, section) ==
      ResultsFor(params, Selected(item, AdditionalNames(params), section))
  {
    if section != [] {
      var names := AdditionalNames(params);
      CheckSingleIsResultsFor(item, params, section[1..]);
      if Selects(item, names, section[0]) {
        assert ([section[0]] + Selected(item, names, section[1..]))[1..] == Selected(item, names, section[1..]);
      }
    }
  }

  /** On success the i-th result of `ResultsFor` is that of the i-th record. */
  lemma {:induction false} ResultsForIndex(params: CheckParams, sel: seq<CucmService>)
    requires ResultsFor(params, sel).Return?
    ensures |ResultsFor(params, sel).value| == |sel|
    ensures forall i :: 0 <= i < |sel| ==>
      ParseInt(sel[i].reasonCode).Return?
      && ResultsFor(params, sel).value[i] == ServiceResult(params, sel[i], ParseInt(sel[i].reasonCode).value)
  {
    if sel != [] {
      ResultsForFirst(params, sel);
      ResultsForIndex(params, sel[1..]);
      var results := ResultsFor(params, sel).value;
      var rest := ResultsFor(params, sel[1..]).value;
      forall i | 0 <= i < |sel|
        ensures ParseInt(sel[i].reasonCode).Return?
        ensures results[i] == ServiceResult(params, sel[i], ParseInt(sel[i].reasonCode).value)
      {
        if i > 0 {
          assert sel[i] == sel[1..][i - 1];
          assert results[i] == rest[i - 1];
        }
      }
    }
  }

  lemma ResultsForFirst(params: CheckParams, sel: seq<CucmService>)
    requires sel != [] && ResultsFor(params, sel).Return?
    ensures ParseInt(sel[0].reasonCode).Return? && ResultsFor(params, sel[1..]).Return?
    ensures ResultsFor(params, sel).value ==
      [ServiceResult(params, sel[0], ParseInt(sel[0].reasonCode).value)] + ResultsFor(params, sel[1..]).value
  {
  }

  /** On success the i-th result is that of the i-th selected record. */
  lemma CheckSingleResults(item: string, params: CheckParams, section: Section)
    requires CheckCiscoUcmServicesSingle(item, params, section).Return?
    ensures var results := CheckCiscoUcmServicesSingle(item, params, section).value;
      var sel := Selected(item, AdditionalNames(params), section);
      forall i :: 0 <= i < |results| ==>
        ParseInt(sel[i].reasonCode).Return? && results[i] == ServiceResult(params, sel[i], ParseInt(sel[i].reasonCode).value)
  {
    CheckSingleIsResultsFor(item, params, section);
    ResultsForIndex(params, Selected(item, AdditionalNames(params), section));
  }

  /** The summary starts with `"name: state"` and is exactly that unless
      the reason code is positive. */
  lemma SummaryShape(service: CucmService, code: int)
    ensures var prefix := service.name + ": " + service.state;
      var text := ServiceSummary(service, code);
      |text| >= |prefix| && text[..|prefix|] == prefix && (text == prefix <==> code <= 0)
  {
    var prefix := service.name + ": " + service.state;
    var text := ServiceSummary(service, code);
    if code > 0 {
      assert |text| > |prefix|;
    }
  }

  function NotFound(params: CheckParams): Result {
    Result(ElseState(params), Summary("service not found"), None)
  }

  /** `check_cisco_ucm_services`: the results for the item, or one "service
      not found" result at the `else` state. */
  function CheckCiscoUcmServices(item: string, params: CheckParams, section: Section): (r: Try<seq<Result>>)
    ensures r.Return? ==> |r.value| > 0
    ensures CheckCiscoUcmServicesSingle(item, params, section) == Return([]) ==> r == Return([NotFound(params)])
    ensures CheckCiscoUcmServicesSingle(item, params, section) != Return([]) ==> r == CheckCiscoUcmServicesSingle(item, params, section)
  {
    var results := CheckCiscoUcmServicesSingle(item, params, section);
    if results.Return? && results.value == [] then Return([NotFound(params)])
    else results
  }

  /** An item that no record carries, and no alternative name, is reported
      as not found at the `else` state (default CRIT). */
  lemma {:induction false} CheckNotFound(item: string, params: CheckParams, section: Section)
    requires forall s :: s in section ==> s.name != item && s.name !in AdditionalNames(params)
    ensures CheckCiscoUcmServices(item, params, section) == Return([NotFound(params)])
  {
    if section != [] {
      assert section[0] in section;
      CheckNotFound(item, params, section[1..]);
    }
  }

  // ===================== cluster_check_cisco_ucm_services =====================

  /** The node sections of a cluster in iteration order; a node without
      data has None. */
  type NodeSections = seq<(string, Option<Section>)>

  /** The `found` list: each node with data contributes its first result. */
  function FoundOn(item: string, params: CheckParams, nodes: NodeSections): Try<seq<(string, Result)>> {
    if nodes == [] then Return([])
    else
      match FoundOn(item, params, nodes[..|nodes| - 1])
      case Raise(e) => Raise(e)
      case Return(found) =>
        var (node, nodeSection) := nodes[|nodes| - 1];
        if nodeSection.None? then Return(found)
        else
          match CheckCiscoUcmServicesSingle(item, params, nodeSection.value)
          case Raise(e) => Raise(e)
          case Return(results) => if results == [] then Return(found) else Return(found + [(node, results[0])])
  }

  /** One more node: an exception stays, a node without data or without
      results adds nothing, and otherwise its first result is appended. */
  lemma FoundOnStep(item: string, params: CheckParams, nodes: NodeSections, i: nat)
    requires i < |nodes|
    ensures var before := FoundOn(item, params, nodes[..i]);
      var after := FoundOn(item, params, nodes[..i + 1]);
      var (node, nodeSection) := nodes[i];
      && (before.Raise? ==> after == before)
      && (before.Return? && nodeSection.None? ==> after == before)
      && (before.Return? && nodeSection.Some? ==>
            var results := CheckCiscoUcmServicesSingle(item, params, nodeSection.value);
            && (results.Raise? ==> after == Raise(results.error))
            && (results.Return? && results.value == [] ==> after == before)
            && (results.Return? && results.value != [] ==> after == Return(before.value + [(node, results.value[0])])))
  {
    assert nodes[..i + 1][..i] == nodes[..i];
  }

  lemma {:induction false} FoundOnRaiseExtends(item: string, params: CheckParams, nodes: NodeSections, n: nat, m: nat)
    requires n <= m <= |nodes|
    requires FoundOn(item, params, nodes[..n]).Raise?
    ensures FoundOn(item, params, nodes[..m]) == FoundOn(item, params, nodes[..n])
    decreases m
  {
    if m > n {
      FoundOnRaiseExtends(item, params, nodes, n, m - 1);
      FoundOnStep(item, params, nodes, m - 1);
    }
  }

  /** `found[k]` is the last entry whose state is the best of all entries. */
  predicate IsLastBest(found: seq<(string, Result)>, k: int) {
    && 0 <= k < |found|
    && (forall j :: 0 <= j < |found| ==> Rank(found[k].1.state) <= Rank(found[j].1.state))
    && (forall j :: k < j < |found| ==> found[j].1.state != found[k].1.state)
  }

  /** At most one entry is the last best one. */
  lemma LastBestUnique(found: seq<(string, Result)>, k1: int, k2: int)
    requires IsLastBest(found, k1) && IsLastBest(found, k2)
    ensures k1 == k2
  {
    RankInjective(found[k1].1.state, found[k2].1.state);
  }

  function StatesOf(found: seq<(string, Result)>): (states: seq<State>)
    ensures |states| == |found|
  {
    seq(|found|, j requires 0 <= j < |found| => found[j].1.state)
  }

  /** `[(n, r) for n, r in found if r.state == state]` */
  function WithState(found: seq<(string, Result)>, state: State): seq<(string, Result)> {
    if found == [] then []
    else
      WithState(found[..|found| - 1], state)
      + (if found[|found| - 1].1.state == state then [found[|found| - 1]] else [])
  }

  /** The index of the last entry with `state`, or -1 when there is none. */
  function LastIndexWith(found: seq<(string, Result)>, state: State): (k: int)
    ensures -1 <= k < |found|
    ensures k >= 0 ==> found[k].1.state == state
    ensures forall j :: k < j < |found| ==> found[j].1.state != state
  {
    if found == [] then -1
    else if found[|found| - 1].1.state == state then |found| - 1
    else
      var k := LastIndexWith(found[..|found| - 1], state);
      assert forall j :: k < j < |found| - 1 ==> found[..|found| - 1][j] == found[j];
      k
  }

  /** The last entry of the filtered list is the last entry with that state. */
  lemma {:induction false} LastWithState(found: seq<(string, Result)>, state: State)
    requires LastIndexWith(found, state) >= 0
    ensures var w := WithState(found, state);
      |w| > 0 && w[|w| - 1] == found[LastIndexWith(found, state)]
  {
    var last := |found| - 1;
    if found[last].1.state != state {
      LastWithState(found[..last], state);
    }
  }

  /** The last entry with the best state of all entries is the last best
      entry. */
  lemma LastBestSelected(found: seq<(string, Result)>)
    requires found != []
    ensures IsLastBest(found, LastIndexWith(found, Best(StatesOf(found))))
  {
    var bestState := Best(StatesOf(found));
    var k := LastIndexWith(found, bestState);
    var i0 :| 0 <= i0 < |found| && StatesOf(found)[i0] == bestState;
    assert found[i0].1.state == bestState;
    forall j | 0 <= j < |found| ensures Rank(found[k].1.state) <= Rank(found[j].1.state) {
      assert StatesOf(found)[j] == found[j].1.state;
    }
  }

  function RunningOn(node: string, state: State): seq<Result> {
    if node != "" && state != CRIT then [Result(state, Summary("Running on: " + node), None)] else []
  }

  /** What the cluster check yields for a non-empty `found`: the first
      result of the last node with the best state, then where it runs. */
  function BestOfCluster(found: seq<(string, Result)>): (results: seq<Result>)
    requires found != []
    ensures var k := LastIndexWith(found, Best(StatesOf(found)));
      IsLastBest(found, k) && results == [found[k].1] + RunningOn(found[k].0, found[k].1.state)
  {
    var bestState := Best(StatesOf(found));
    LastBestSelected(found);
    LastWithState(found, bestState);
    var withBest := WithState(found, bestState);
    var (bestRunningOn, bestResult) := withBest[|withBest| - 1];
    [bestResult] + RunningOn(bestRunningOn, bestState)
  }

  /** `cluster_check_cisco_ucm_services`: the result of the last node whose
      first result has the best state, with a note naming that node unless
      the state is CRIT or the node name is empty. */
  method ClusterCheckCiscoUcmServices(item: string, params: CheckParams, section: NodeSections)
    returns (r: Try<seq<Result>>)
    ensures FoundOn(item, params, section).Raise? ==> r == Raise(FoundOn(item, params, section).error)
    ensures FoundOn(item, params, section) == Return([]) ==> r == Return([NotFound(params)])
    ensures FoundOn(item, params, section).Return? && FoundOn(item, params, section).value != [] ==>
      var found := FoundOn(item, params, section).value;
      var k := LastIndexWith(found, Best(StatesOf(found)));
      IsLastBest(found, k) && r == Return([found[k].1] + RunningOn(found[k].0, found[k].1.state))
  {
    var found: seq<(string, Result)> := [];
    var i := 0;
    while i < |section|
      invariant 0 <= i <= |section|
      invariant FoundOn(item, params, section[..i]) == Return(found)
    {
      var (node, nodeSection) := section[i];
      FoundOnStep(item, params, section, i);
      if nodeSection.Some? {
        var results := CheckCiscoUcmServicesSingle(item, params, nodeSection.value);
        if results.Raise? {
          FoundOnRaiseExtends(item, params, section, i + 1, |section|);
          assert section[..|section|] == section;
          return Raise(results.error);
        }
        if results.value != [] {
          found := found + [(node, results.value[0])];
        }
      }
      i := i + 1;
    }
    assert section[..i] == section;

    if found == [] {
      return Return([NotFound(params)]);
    }

    r := Return(BestOfCluster(found));
  }

  /** The example of a three-node cluster where two nodes are OK: the third
      node's result is the one reported. */
  lemma ClusterTieGoesToLastNode(r1: Result, r2: Result, r3: Result)
    requires r1.state == OK && r2.state == WARN && r3.state == OK
    ensures IsLastBest([("n1", r1), ("n2", r2), ("n3", r3)], 2)
    ensures !IsLastBest([("n1", r1), ("n2", r2), ("n3", r3)], 0)
  {
  }

  // ===================== services summary =====================

  /** The summary parameters; each key may be missing. */
  datatype SummaryParams = SummaryParams(ignored: Option<seq<string>>, stateIfStopped: Option<State>)

  function IgnoredPatterns(params: SummaryParams): seq<string> {
    params.ignored.GetOr([])
  }

  function StateIfStopped(params: SummaryParams): State {
    params.stateIfStopped.GetOr(OK)
  }

  predicate IsStarted(service: CucmService) {
    Lower(service.state) == "started"
  }

  predicate IsStopped(service: CucmService) {
    Lower(service.state) == "stopped"
  }

  /** `any(re.match(srv, service.name) for srv in blacklist)` */
  predicate IsIgnored(patterns: seq<string>, service: CucmService, matches: Matcher) {
    exists srv :: srv in patterns && matches(srv, service.name)
  }

  function CountStarted(section: Section): nat {
    if section == [] then 0
    else CountStarted(section[..|section| - 1]) + (if IsStarted(section[|section| - 1]) then 1 else 0)
  }

  function CountStopped(section: Section): nat {
    if section == [] then 0
    else CountStopped(section[..|section| - 1]) + (if IsStopped(section[|section| - 1]) then 1 else 0)
  }

  function CountIgnored(section: Section, patterns: seq<string>, matches: Matcher): nat {
    if section == [] then 0
    else
      var s := section[|section| - 1];
      CountIgnored(section[..|section| - 1], patterns, matches)
      + (if IsStopped(s) && IsIgnored(patterns, s, matches) then 1 else 0)
  }

  /** The names of the stopped records no pattern ignores, in section order. */
  function Stoplist(section: Section, patterns: seq<string>, matches: Matcher): seq<string> {
    if section == [] then []
    else
      var s := section[|section| - 1];
      Stoplist(section[..|section| - 1], patterns, matches)
      + (if IsStopped(s) && !IsIgnored(patterns, s, matches) then [s.name] else [])
  }

  /** Every stopped record is either ignored or on the stop list, and no
      record is both started and stopped, so the three counts never exceed
      the number of records. */
  lemma {:induction false} SummaryCountsPartition(section: Section, patterns: seq<string>, matches: Matcher)
    ensures |Stoplist(section, patterns, matches)| + CountIgnored(section, patterns, matches) == CountStopped(section)
    ensures CountStarted(section) + CountStopped(section) <= |section|
    ensures CountStarted(section) + |Stoplist(section, patterns, matches)| + CountIgnored(section, patterns, matches) <= |section|
  {
    if section != [] {
      var s := section[|section| - 1];
      SummaryCountsPartition(section[..|section| - 1], patterns, matches);
    }
  }

  /** Each name on the stop list is that of a stopped record that no
      pattern ignores. */
  lemma {:induction false} StoplistMembers(section: Section, patterns: seq<string>, matches: Matcher)
    ensures forall n :: n in Stoplist(section, patterns, matches) ==>
      exists s :: s in section && s.name == n && IsStopped(s) && !IsIgnored(patterns, s, matches)
  {
    if section != [] {
      var init := section[..|section| - 1];
      StoplistMembers(init, patterns, matches);
      forall n | n in Stoplist(section, patterns, matches)
        ensures exists s :: s in section && s.name == n && IsStopped(s) && !IsIgnored(patterns, s, matches)
      {
        if n in Stoplist(init, patterns, matches) {
          var s :| s in init && s.name == n && IsStopped(s) && !IsIgnored(patterns, s, matches);
          assert s in section;
        } else {
          assert section[|section| - 1] in section;
        }
      }
    }
  }

  /** Three records, one started and two stopped, where only the third is
      ignored: one started, one stopped ("B") and one ignored. */
  lemma SummaryExample(matches: Matcher)
    requires matches("C", "C") && !matches("C", "B")
    ensures var section := [CucmService("A", "Started", "0", ""), CucmService("B", "Stopped", "0", ""),
        CucmService("C", "Stopped", "0", "")];
      && CountStarted(section) == 1
      && Stoplist(section, ["C"], matches) == ["B"]
      && CountIgnored(section, ["C"], matches) == 1
  {
    var section := [CucmService("A", "Started", "0", ""), CucmService("B", "Stopped", "0", ""),
      CucmService("C", "Stopped", "0", "")];
    var p1, p2 := section[..1], section[..2];
    assert p1[..0] == [] && p2[..1] == p1 && section[..2] == p2;
    assert Lower("Started") == "started" && Lower("Stopped") == "stopped";
    assert IsIgnored(["C"], section[2], matches);
    assert !IsIgnored(["C"], section[1], matches);
    assert p2[1] == section[1] && IsStopped(section[1]) && IsStopped(section[2]);
    assert CountStarted(p1) == 1 && CountStarted(p2) == 1;
    assert Stoplist(p1, ["C"], matches) == [];
    assert p2[|p2| - 1].name == "B" && p2[..|p2| - 1] == p1;
    assert Stoplist(p2, ["C"], matches) == Stoplist(p1, ["C"], matches) + ["B"];
    assert !IsStopped(section[0]);
    assert CountIgnored(p1, ["C"], matches) == 0;
    assert CountIgnored(p2, ["C"], matches) == 0;
  }

  /** `check_cisco_ucm_services_summary` */
  method CheckCiscoUcmServicesSummary(params: SummaryParams, section: Section, matches: Matcher)
    returns (results: seq<Result>)
    ensures var num := CountStarted(section);
      var stoplist := Stoplist(section, IgnoredPatterns(params), matches);
      var numIgnored := CountIgnored(section, IgnoredPatterns(params), matches);
      && |results| == (if numIgnored > 0 then 3 else 2)
      && results[0] == Result(OK, Summary("Started services: " + IntToString(num)),
           Some("Started services: " + IntToString(num) + "\nServices found in total: " + IntToString(|section|)))
      && results[1] == Result(if stoplist != [] then StateIfStopped(params) else OK,
           Summary("Stopped services: " + IntToString(|stoplist|)),
           if stoplist != [] then Some("Stopped services: " + Join(", ", stoplist)) else None)
      && (numIgnored > 0 ==> results[2] == Result(OK, Notice("Stopped but ignored: " + IntToString(numIgnored)), None))
  {
    var blacklist := IgnoredPatterns(params);
    var stoplist: seq<string> := [];
    var numBlacklist := 0;
    var num := 0;
    var i := 0;
    while i < |section|
      invariant 0 <= i <= |section|
      invariant num == CountStarted(section[..i])
      invariant numBlacklist == CountIgnored(section[..i], blacklist, matches)
      invariant stoplist == Stoplist(section[..i], blacklist, matches)
    {
      var service := section[i];
      assert section[..i + 1][..i] == section[..i];
      if Lower(service.state) == "started" {
        num := num + 1;
      }
      if Lower(service.state) == "stopped" {
        if exists srv :: srv in blacklist && matches(srv, service.name) {
          numBlacklist := numBlacklist + 1;
        } else {
          stoplist := stoplist + [service.name];
        }
      }
      i := i + 1;
    }
    assert section[..i] == section;

    results := [
      Result(OK, Summary("Started services: " + IntToString(num)),
        Some("Started services: " + IntToString(num) + "\nServices found in total: " + IntToString(|section|))),
      Result(if stoplist != [] then StateIfStopped(params) else OK,
        Summary("Stopped services: " + IntToString(|stoplist|)),
        if stoplist != [] then Some("Stopped services: " + Join(", ", stoplist)) else None)
    ];
    if numBlacklist > 0 {
      results := results + [Result(OK, Notice("Stopped but ignored: " + IntToString(numBlacklist)), None)];
    }
  }

  /** `discovery_cisco_ucm_services_summary`: one service without an item
      for a non-empty section. */
  function DiscoveryCiscoUcmServicesSummary(section: Section): (r: seq<Service>)
    ensures |r| <= 1 && (|r| == 1 <==> section != [])
    ensures forall k :: 0 <= k < |r| ==> r[k].item.None?
  {
    if section != [] then [Service(None)] else []
  }
}
