# Cisco UCM services for Checkmk, in Dafny

This project models the Checkmk plugin that monitors the services of a Cisco
Unified Communications Manager (UCM). The special agent writes one line per
UCM service into the section `cisco_ucm_services`. The line holds four
fields: the name, the status, the reason code and the reason text.

The model covers the following parts:

- **The current check plugin** (`UcmServices`):
  - parsing the section into service records;
  - rule-driven discovery, where every configured rule group is expanded into
    `(pattern, state)` rules and matched against every record;
  - the per-item check, together with its state evaluation: the first
    `(expected state, monitoring state)` pair that matches wins, and the
    `else` state applies otherwise;
  - the wrapper that reports "service not found";
  - the cluster check, which takes the best state over the nodes, and on a
    tie the last node;
  - the summary service, which counts started, stopped and ignored services.
- **The legacy check plugin** (`LegacyUcmServices`):
  - a parse function that builds a tally of states (`by_state`), an overall
    flag and one line per service;
  - a discovery function and a check function.
- **The server-side call** (`AgentCommand`): the command line that the rule
  parameters and the host's configuration produce. It comes with a reader
  for that command line. Reading back what was written gives the parameters
  again.
- **The ruleset migration** (`DatasourceRuleset`): the `ssl` setting of old
  rules (a boolean or a host name) becomes the current tagged pair.

Several pieces of Python and Checkmk are modelled in `PyBase` and `CheckmkApi`:

- Python exceptions are modelled as `Try.Raise`.
- Generators are modelled as the sequences they yield. Every caller consumes
  them completely.
- `int()`, `str()`, `str.lower` and `", ".join` are modelled as functions.
- `State.best` is modelled with an explicit ranking: OK, WARN, UNKNOWN,
  CRIT, from best to worst.
- Regular-expression matching (`re.match`) is a parameter `matches(pattern,
  name)`. The model is proved for every such predicate.

The loops of the source are kept as methods:

- the rule expansion;
- the cluster check's search;
- the summary's counters;
- the legacy parser's `by_state` dictionary.

`commands_function` has no loop, but it builds the argument list by
appending to it step by step under branches, so it is a method too.

Each of these methods is proved against a specification function. The
properties the source relies on are proved about those functions.

Three behaviours of the code are easy to misread, and the model follows the
code in each:

- Matching the expected state in the check is exact. `_wildcard` compares
  the configured state with the status without changing case, so "started"
  does not match "Started" (`ExpectedStateCaseSensitive`). Discovery, by
  contrast, lower-cases both sides.
- A reason code that is not an integer makes the check raise.
  `int(service.reason_code)` raises ValueError, and the model raises too
  (`CheckCiscoUcmServicesSingle`, `CheckSingleRaises`).
- With an empty list of rule groups, discovery finds nothing. The group
  `{"state": "Started"}` applies only because it is the plugin's
  `discovery_default_parameters` (`DefaultDiscovery`).

## Model

| member | source | states |
|---|---|---|
| `CheckmkApi.Best` | cmk_addons_plugins/cisco/agent_based/cisco_ucm_services.py:162 | `State.best` picks a state of the list that no other state outranks (OK before WARN before UNKNOWN before CRIT) |
| `UcmServices.ParseCiscoUcmServices` | cmk_addons_plugins/cisco/agent_based/cisco_ucm_services.py:46-50 | parsing succeeds exactly when every line has four fields; it then yields one record per line, fields in order; otherwise it raises ValueError |
| `UcmServices.ParseRows` | cmk_addons_plugins/cisco/agent_based/cisco_ucm_services.py:46-50 | writing a section back as lines and parsing them gives the section again |
| `UcmServices.ExpandRules` | cmk_addons_plugins/cisco/agent_based/cisco_ucm_services.py:80-90 | the rule-extraction loop yields the rules of the groups in order, one `~pattern` per listed service, or one pattern-less rule for a group without services |
| `UcmServices.ExpandedRulesAppend` | cmk_addons_plugins/cisco/agent_based/cisco_ucm_services.py:82-90 | the rules of two lists of groups are the rules of the first followed by those of the second |
| `UcmServices.ExpandedRulesTilde` | cmk_addons_plugins/cisco/agent_based/cisco_ucm_services.py:86-90 | every extracted rule either has no pattern or a pattern beginning with `~` |
| `UcmServices.DiscoveryCiscoUcmServices` | cmk_addons_plugins/cisco/agent_based/cisco_ucm_services.py:58-94 | the services discovered are exactly the rule-matching discovery over the extracted rules, record by record in section order; only names of records are discovered, nothing for an empty section, and a name is discovered exactly when some record with that name is selected by some configured group |
| `UcmServices.AddMatchingServices` | cmk_addons_plugins/cisco/agent_based/cisco_ucm_services.py:62-77 | a record yields nothing or exactly its own item; it yields only when the entry's state (if non-empty) equals the status ignoring case; an entry without `~` must equal the name and is then, as written, used with its first character dropped (`svc[1:]`) as the regular expression |
| `UcmServices.MatchRulesItems` | cmk_addons_plugins/cisco/agent_based/cisco_ucm_services.py:62-77 | a record yields only its own name, and yields it exactly when some rule accepts it |
| `UcmServices.DiscoverWithRulesItems` | cmk_addons_plugins/cisco/agent_based/cisco_ucm_services.py:92-94 | every discovered service names a record of the section |
| `UcmServices.DiscoverWithRulesAppend` | cmk_addons_plugins/cisco/agent_based/cisco_ucm_services.py:92-94 | discovery goes record by record: the services of a concatenated section are those of the first part followed by those of the second |
| `UcmServices.DiscoveredNames` | cmk_addons_plugins/cisco/agent_based/cisco_ucm_services.py:92-94 | a name is discovered exactly when a record with that name is accepted by some rule |
| `UcmServices.GroupRulesSelect` | cmk_addons_plugins/cisco/agent_based/cisco_ucm_services.py:62-90 | a group's rules accept a record exactly when the group has no patterns or one matches the name, and its state (if non-empty) equals the record's status ignoring case |
| `UcmServices.ExpandedRulesSelect` | cmk_addons_plugins/cisco/agent_based/cisco_ucm_services.py:62-90 | some extracted rule accepts a record exactly when some configured group selects it |
| `UcmServices.DiscoveredIff` | cmk_addons_plugins/cisco/agent_based/cisco_ucm_services.py:58-94 | the discovery function's output contains a name exactly when a record of that name is selected by a configured group |
| `UcmServices.DefaultDiscovery` | cmk_addons_plugins/cisco/agent_based/cisco_ucm_services.py:23-25 | with the default discovery parameters, exactly the names of records whose status is "started" in any case are discovered |
| `UcmServices.Wildcard` | cmk_addons_plugins/cisco/agent_based/cisco_ucm_services.py:125-126 | None matches every status; a given expected state matches only an identical status, so a match also agrees ignoring case (`ExpectedStateCaseSensitive` shows the converse fails) |
| `UcmServices.FirstMatchIndex` | cmk_addons_plugins/cisco/agent_based/cisco_ucm_services.py:119-121 | the position of the first pair whose expected state matches, or -1 exactly when no pair matches |
| `UcmServices.FirstMatch` | cmk_addons_plugins/cisco/agent_based/cisco_ucm_services.py:119-122 | the loop returns the state of the first matching pair, or the default when none matches |
| `UcmServices.MatchServiceAgainstParams` | cmk_addons_plugins/cisco/agent_based/cisco_ucm_services.py:114-122 | the state of the first pair of `states` (default `[("Started", OK)]`) whose expected state matches the status, or, when none matches, the `else` state (CRIT by default); see also `FirstMatchWins` and `FirstMatchDefault` |
| `UcmServices.FirstMatchWins` | cmk_addons_plugins/cisco/agent_based/cisco_ucm_services.py:114-126 | the monitoring state is that of the first pair whose expected state is None or equal to the status |
| `UcmServices.FirstMatchDefault` | cmk_addons_plugins/cisco/agent_based/cisco_ucm_services.py:114-122 | when no pair matches, the `else` state is the result |
| `UcmServices.DefaultParamsEvaluation` | cmk_addons_plugins/cisco/agent_based/cisco_ucm_services.py:27-31 | with the default check parameters a "Started" service is OK and any other status is CRIT |
| `UcmServices.ExpectedStateCaseSensitive` | cmk_addons_plugins/cisco/agent_based/cisco_ucm_services.py:125-126 | an expected state "started" does not match the status "Started": the comparison is exact |
| `UcmServices.Selected` | cmk_addons_plugins/cisco/agent_based/cisco_ucm_services.py:102-104 | the records checked for an item are exactly the records of the section whose name is the item or an additional service name: every such record is checked and no other |
| `UcmServices.SelectedAppend` | cmk_addons_plugins/cisco/agent_based/cisco_ucm_services.py:102-104 | the records are selected in section order: those of a concatenated section are the selection of the first part followed by that of the second |
| `UcmServices.CheckCiscoUcmServicesSingle` | cmk_addons_plugins/cisco/agent_based/cisco_ucm_services.py:97-111 | any exception is a ValueError; on success there is one result per selected record |
| `UcmServices.CheckSingleRaises` | cmk_addons_plugins/cisco/agent_based/cisco_ucm_services.py:103-106 | the single check raises exactly when some selected record's reason code is not an integer |
| `UcmServices.CheckSingleIsResultsFor` | cmk_addons_plugins/cisco/agent_based/cisco_ucm_services.py:102-111 | the single check is the per-record evaluation applied to the selected records, stopping at the first reason code that is not an integer |
| `UcmServices.ResultsForIndex` | cmk_addons_plugins/cisco/agent_based/cisco_ucm_services.py:103-111 | on success the per-record evaluation gives one result per record, the i-th being that of the i-th record with its reason code read as an integer |
| `UcmServices.CheckSingleResults` | cmk_addons_plugins/cisco/agent_based/cisco_ucm_services.py:103-111 | the i-th result belongs to the i-th selected record: its state is the evaluated state and its summary is that record's text |
| `UcmServices.SummaryShape` | cmk_addons_plugins/cisco/agent_based/cisco_ucm_services.py:105-107 | the summary starts with `name: status`, and the reason is appended exactly when the reason code is positive |
| `UcmServices.CheckCiscoUcmServices` | cmk_addons_plugins/cisco/agent_based/cisco_ucm_services.py:129-138 | never yields nothing: without results it yields one "service not found" result, otherwise the single check's results or exception unchanged |
| `UcmServices.CheckNotFound` | cmk_addons_plugins/cisco/agent_based/cisco_ucm_services.py:134-138 | an item that no record (and no additional name) names gives exactly one result, "service not found" at the `else` state |
| `UcmServices.FoundOnRaiseExtends` | cmk_addons_plugins/cisco/agent_based/cisco_ucm_services.py:150-155 | once a node's check raises, the nodes after it change nothing: the exception propagates |
| `UcmServices.LastBestUnique` | cmk_addons_plugins/cisco/agent_based/cisco_ucm_services.py:162-163 | at most one entry is the last one with the best state (`LastBestSelected` shows there is one) |
| `UcmServices.LastIndexWith` | cmk_addons_plugins/cisco/agent_based/cisco_ucm_services.py:163 | the index of the last found entry with a given state, or -1: that entry has the state and no later entry does |
| `UcmServices.LastWithState` | cmk_addons_plugins/cisco/agent_based/cisco_ucm_services.py:163 | the last element of the list filtered by state is the entry at that index |
| `UcmServices.LastBestSelected` | cmk_addons_plugins/cisco/agent_based/cisco_ucm_services.py:162-163 | the last entry whose state is `State.best` of all states is the last best entry: none outranks it and no later entry shares its state |
| `UcmServices.BestOfCluster` | cmk_addons_plugins/cisco/agent_based/cisco_ucm_services.py:162-167 | for a non-empty found list: the result of the last best entry, then "Running on: node" unless its state is CRIT or the node name is empty |
| `UcmServices.ClusterCheckCiscoUcmServices` | cmk_addons_plugins/cisco/agent_based/cisco_ucm_services.py:141-167 | exceptions propagate; no node with results gives "service not found"; otherwise the first result of the last node with the best state, followed by "Running on: node" unless the state is CRIT or the node name is empty |
| `UcmServices.ClusterTieGoesToLastNode` | cmk_addons_plugins/cisco/agent_based/cisco_ucm_services.py:161-163 | of two nodes tied at the best state, the later one is reported |
| `UcmServices.SummaryCountsPartition` | cmk_addons_plugins/cisco/agent_based/cisco_ucm_services.py:195-202 | every stopped record is either on the stop list or counted as ignored, and started, stopped and ignored never exceed the number of records |
| `UcmServices.StoplistMembers` | cmk_addons_plugins/cisco/agent_based/cisco_ucm_services.py:198-202 | every name on the stop list is that of a stopped record that no ignore pattern matches |
| `UcmServices.SummaryExample` | cmk_addons_plugins/cisco/agent_based/cisco_ucm_services.py:195-202 | with one started, one stopped and one ignored stopped record the counters are 1, ["B"] and 1 |
| `UcmServices.CheckCiscoUcmServicesSummary` | cmk_addons_plugins/cisco/agent_based/cisco_ucm_services.py:189-217 | the counting loop yields the started count with the total, the stop list at `state_if_stopped` (OK when empty, details listing the names), and an "ignored" notice exactly when some stopped record was ignored |
| `UcmServices.DiscoveryCiscoUcmServicesSummary` | cmk_addons_plugins/cisco/agent_based/cisco_ucm_services.py:184-186 | one service without an item exactly when the section is non-empty |
| `LegacyUcmServices.ParseCiscoUcmServices` | agent_based/cisco_ucm_services.py:14-39 | None exactly for no lines; ValueError for a line not four fields wide; otherwise the started count from the tally, one entry per line, and "all OK" exactly when no line is bad |
| `LegacyUcmServices.TallyCounts` | agent_based/cisco_ucm_services.py:18-23 | each `by_state` count is the number of lines with that status, and only statuses that occur are keys |
| `LegacyUcmServices.TallySum` | agent_based/cisco_ucm_services.py:18-23 | the counts of `by_state` add up to the number of lines |
| `LegacyUcmServices.DiscoverCiscoUcmServices` | agent_based/cisco_ucm_services.py:41-43 | one service without an item exactly when the started count is non-zero |
| `LegacyUcmServices.DiscoveredIffStartedRow` | agent_based/cisco_ucm_services.py:33-43 | for a parsed section, the service is discovered exactly when some line's status is exactly "Started" |
| `LegacyUcmServices.CheckCiscoUcmServices` | agent_based/cisco_ucm_services.py:45-51 | the first result is exactly OK "All services are OK" when all services are OK, otherwise CRIT "Some services are in bad state"; then one notice per entry with its state and text |
| `LegacyUcmServices.EntryShape` | agent_based/cisco_ucm_services.py:24-31 | an entry is CRIT exactly when the status is not "Started" and the reason is not "Service Not Activated", otherwise OK; its text is `name: status`, extended exactly when there is a reason |
| `AgentCommand.CommandsFunction` | cmk_addons_plugins/cisco/server_side_calls/agent_cisco_ucm.py:31-47 | raises NameError exactly when certificate checking is off and the host name is empty; otherwise yields one command with the argument list |
| `AgentCommand.CommandLineLayout` | cmk_addons_plugins/cisco/server_side_calls/agent_cisco_ucm.py:32-46 | the position of every argument: port pair, `-u`, user, secret, timeout pair when truthy, `--no-cert-check` exactly when checking is off, host last |
| `AgentCommand.CommandLineDecodes` | cmk_addons_plugins/cisco/server_side_calls/agent_cisco_ucm.py:32-46 | reading the arguments back gives the port, user, secret, truthy timeout, certificate checking and host |
| `AgentCommand.CommandsFunctionFixed` | cmk_addons_plugins/cisco/server_side_calls/agent_cisco_ucm.py:39-46 | with the fallback reading the primary IP address, one command that never fails; it reads back with the host name, or the primary address when the name is empty |
| `DatasourceRuleset.MigrateSsl` | cmk_addons_plugins/cisco/rulesets/datasource_cisco_ucm.py:108-125 | the result is always a tuple; a tuple is returned unchanged; TypeError exactly for values that are neither tuple, boolean nor string |
| `DatasourceRuleset.MigrateSslIdempotent` | cmk_addons_plugins/cisco/rulesets/datasource_cisco_ucm.py:108-125 | migrating a migrated value changes nothing |
| `DatasourceRuleset.SslOfValue` | cmk_addons_plugins/cisco/server_side_calls/agent_cisco_ucm.py:23-27 | a value accepted as the `ssl` field is exactly the stored pair of that setting |
| `DatasourceRuleset.MigrateLegacyValues` | cmk_addons_plugins/cisco/rulesets/datasource_cisco_ucm.py:118-123 | False migrates to "deactivated", True to "hostname", and a string to "custom_hostname" with that string, each a valid setting |
| `DatasourceRuleset.MigrateValidSetting` | cmk_addons_plugins/cisco/rulesets/datasource_cisco_ucm.py:116-117 | a valid setting is left unchanged and reads back as itself |
| `PyBase.ParseInt` | cmk_addons_plugins/cisco/agent_based/cisco_ucm_services.py:106 | `int()` of a string either gives a number or raises ValueError naming the string |
| `PyBase.ParseIntRejects` | cmk_addons_plugins/cisco/agent_based/cisco_ucm_services.py:106 | a string holding a character that is neither a digit, a sign nor whitespace (such as "n/a") makes `int()` raise ValueError |
| `PyBase.ParseIntSeparator` | cmk_addons_plugins/cisco/agent_based/cisco_ucm_services.py:106 | `int()` does not skip the separator 0x1C: a reason code "\x1c5" raises ValueError |
| `PyBase.ParseIntDigits` | cmk_addons_plugins/cisco/agent_based/cisco_ucm_services.py:106 | `int()` of a non-empty string of digits is its decimal value |
| `PyBase.ParseIntNegative` | cmk_addons_plugins/cisco/server_side_calls/agent_cisco_ucm.py:33-38 | `int()` of a minus sign followed by digits is the negated decimal value |
| `PyBase.StripKeeps` | cmk_addons_plugins/cisco/agent_based/cisco_ucm_services.py:106 | the whitespace `int()` skips is removed only at the ends: every other character stays, at its position shifted by the removed prefix |
| `PyBase.IntRoundTrip` | cmk_addons_plugins/cisco/server_side_calls/agent_cisco_ucm.py:33-38 | `int(str(n)) == n` for every integer, so the port and timeout are written losslessly |
| `PyBase.Lower` | cmk_addons_plugins/cisco/agent_based/cisco_ucm_services.py:196-198 | lower-casing keeps the length, leaves no upper-case letter, and leaves every other character in place |
| `PyBase.LowerIdempotent` | cmk_addons_plugins/cisco/agent_based/cisco_ucm_services.py:196-198 | lower-casing twice is lower-casing once |
| `PyBase.LowerIgnoresCase` | cmk_addons_plugins/cisco/agent_based/cisco_ucm_services.py:74 | two strings that differ only in the case of letters lower-case to the same string |
| `PyBase.Join` | cmk_addons_plugins/cisco/agent_based/cisco_ucm_services.py:213 | the joined length is the names' lengths plus one separator between each pair, and the text starts with the first name |
| `PyBase.JoinPlacesNames` | cmk_addons_plugins/cisco/agent_based/cisco_ucm_services.py:213 | each name appears whole in the joined text, at the offset of the names and separators before it |

## Left out

- Regular expressions: `re.match` and `re.compile(...).match` are given as the parameter `matches`. An invalid pattern raising `re.error` is not modelled.
- `PyBase.Lower`: only ASCII letters are lowered. `str.lower` also lowers other Unicode letters.
- `PyBase.ParseInt`: only ASCII whitespace (space, tab, line feed, carriage return, vertical tab, form feed) and ASCII digits are accepted. Python's `int()` also skips non-ASCII whitespace such as U+0085 and U+00A0, and takes Unicode digits and `_` separators.
- `State(n)` for a configured integer: the parameters carry a `State` directly. The ValueError for an integer outside 0..3 is not modelled.
- Generators are modelled as their complete output. Every caller consumes them completely (`list(...)` or the whole check), so results yielded before an exception are not observed.
- `cluster_check_cisco_ucm_services` iterates a dictionary of nodes. The model takes the nodes as a sequence in that iteration order.
- `AgentCommand.DecodeArguments`: this is a reference reader for the argument list. It is not the special agent's argparse parser; the special agent program and its SOAP transport are not part of this model.
- `Secret.unsafe`: this is the `SecretArg` argument. Its expansion into the password happens outside this code.
- Validation of `Params` by pydantic is not modelled. The model takes validated parameters; `SslOfValue` states which stored values the `ssl` field accepts.
- The registration objects (`AgentSection`, `CheckPlugin`, `register.*`, `SpecialAgentConfig`) and the rule forms of the ruleset file are configuration data rather than behaviour, and are not modelled.
- The WATO rule definitions under `web/plugins/wato/` are not part of this model.

## Findings

| source | as written | input that shows it | evidently intended | confidence | as-written member | corrected member |
|---|---|---|---|---|---|---|
| cmk_addons_plugins/cisco/server_side_calls/agent_cisco_ucm.py:41 | `host_config.name or primary_ip_config.address` reads an undefined name `primary_ip_config`. | `ssl` set to "deactivated" and a host whose name is empty: NameError instead of a command. | `host_config.primary_ip_config.address`: use the host's primary IP address when the name is empty. | high, not executed | `AgentCommand.CommandsFunction` | `AgentCommand.CommandsFunctionFixed` |
