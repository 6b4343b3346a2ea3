# sentra signal engine, modelled in Dafny

Sentra reads host authentication logs (`auth.log`) and turns them into security
signals. Each signal is a risk-scored, classified summary of login patterns,
privilege escalations, identity changes, brute-force attempts and failed
administrative authentications. The signals are then condensed into a weekly
report per server. The weekly reports are combined into a multi-server or
fleet report.

This project models that engine:

- `text.dfy`, `regex.dfy`: Python's whitespace, `str.strip`, `str.lower`
  (for ASCII keywords) and substring tests. Also the few `re` shapes the log
  parsers use, with `re.search`'s leftmost-first behaviour.
- `syslog_header.dfy`: the header grammar
  `timestamp hostname program[pid]: message` that both extractors share,
  including the one backtracking case of the `\s+` before the program.
  It is proved sound (a match renders back to the line and every part has its
  shape) and complete (every line of that shape matches).
- `command_classifier.dfy`: `categorize_command`, an ordered table of six
  keyword rules in which the first match wins.
- `event_extractor.dfy`: `parse_line` of the signal pipeline. It handles the
  sshd, sudo, su and identity-program rules. The timestamp parser is a
  parameter.
- `legacy_extractor.dfy`: the older top-level `parse_line`/`extract_user`,
  which yields one record per line.
- `window_aggregator.dfy`: the event loop of `main`. It is a class whose
  methods update the grouping dictionaries in place. Each dictionary keeps its
  keys in insertion order, because the signals are emitted in that order.
  The loop is proved against a functional specification `Accumulate`.
- `risk_scorer.dfy`: `calculate_risk_score`, kept exactly in hundredths.
- `emission.dfy`: the five emission sections of `main`, as loops proved
  against sequence specifications. It also relates the signals to the events
  they come from.
- `narrative.dfy`: the template narratives and the recommendations.
- `summaries.dfy`: `generate_weekly_summary` and the
  `generate_multi_server_summary` loop, including where it raises.
- `fleet.dfy`: `aggregate_fleet_summary` and the loader of
  `aggregate_weekly.py`.
- `playbooks.dfy`: the playbook engine's filter.
- `qre.py` is modelled in `qre.dfy`: the keyword intent classifier, the
  case-insensitive split at conjunctions, decomposition and routing.

Units:
- Intent weights are natural numbers in tenths (0.4 is 4).
- Risk scores are integers in hundredths (0.8 is 80).
- Every constant of the scorer is a multiple of 0.1, so this representation
  is exact. `RiskScorer.RiskScoreIsExact` proves that it agrees with the
  real-valued formula, so the final `round(…, 2)` changes nothing.
- The playbook engine takes scores as reals: `Playbooks.AsFraction` turns
  hundredths into a real.
- Timestamps are epoch seconds.

The model keeps these behaviours of the code, which its comments and names do
not suggest:
- `calculate_risk_score` (src/parse_auth_log.py:298-325) is documented as
  giving a score between 0.0 and 1.0. Line 325 only caps it from above at 1.0:
  a negative weight would give a score below zero. The pipeline never produces
  negative weights.
- The fleet tier (aggregate_weekly.py:35-40) is "Low (Reviewed)" exactly when
  the summed `high_risk_changes` highlight is positive and no server needs
  action.
- The fleet report (aggregate_weekly.py:16-29, 43-76) sums only four
  highlight counters. It has no average score and no intent distribution. Its
  narrative speaks of logins, network locations, administrative sessions and
  the tier, and of nothing else.
- The narrative templates (src/parse_auth_log.py:354-398) read `data['user']`
  and similar keys directly, so a missing key raises. In the model, such a
  narrative is `None`.
- The 5-minute login counter `ssh_groups` (src/parse_auth_log.py:554-557) is
  filled but never read.

Some source behaviours are easy to miss, and the model states them:
- The decision keyword "should I" holds a capital letter but is looked for in
  the lower-cased query, so it can never match (`Qre.ShouldINeverMatches`).
- The identity programs `groupdel` and `chage` produce identity-change events
  but are keywords of no classifier rule, so they weigh nothing
  (`Emission.UnlistedIamProgramsWeighNothing`).
- A brute-force signal always scores 0.3. It therefore never reaches the 0.7
  threshold of playbook PB-001, and never gets the "block" recommendation,
  which needs more than 0.6.
- A server whose only finding is multi-location access is "Low (Reviewed)"
  in its weekly and multi-server summaries, but "Low" in the fleet report.

## Model

| member | source | states |
|---|---|---|
| Text.Strip | src/parse_auth_log.py:77 | `str.strip()`: the result is a slice of the input, everything cut from either end is whitespace, and the result neither starts nor ends with whitespace |
| Text.StripEmptyIffAllSpace | src/parse_auth_log.py:77-79 | a stripped line is empty exactly when the line is all whitespace, which is when `parse_line` returns None at once |
| Text.Lower | src/qre.py:25 | `str.lower()` leaves no ASCII capital letter and never shortens the text |
| Text.LowerAscii | src/qre.py:25 | on an ASCII text `str.lower()` keeps the length and turns each capital into its small letter in place, leaving every other character |
| Text.LowerAppend | src/qre.py:25 | lower-casing works character by character: that of a concatenation is the concatenation of the lower-cased pieces |
| Regex.Search | src/parse_auth_log.py:112 | `re.search` of an alternation: the leftmost position where some alternative matches and, there, the earliest alternative; no earlier position matches; None means no position matches |
| Regex.Find | src/parse_auth_log.py:102 | `re.search` of one pattern: the groups of the match at the leftmost matching position, shaped as the pattern's groups demand; None iff no position matches |
| SyslogHeader.MatchHeader | src/parse_auth_log.py:81-90 | soundness of the header regex: a match has the shape of every named group and separator, its message starts after the whole run of whitespace behind the colon, and it renders back to exactly the line |
| SyslogHeader.MatchHeaderComplete | src/parse_auth_log.py:81-90 | completeness: a line that can be divided into timestamp, whitespace, hostname, whitespace, program, optional `[digits]`, colon, whitespace and a newline-free message is matched, with that timestamp, hostname and pid, and a message that starts at the first non-whitespace character after the colon |
| CommandClassifier.FirstMatch | src/parse_auth_log.py:56-58 | the metadata of the first rule whose pattern occurs in the command, or the default when none does |
| CommandClassifier.Categorize | src/parse_auth_log.py:54-64 | `categorize_command`: the first matching rule of the table decides and later rules are ignored; with no match the result is General Administration, N/A, weight 0 |
| CommandClassifier.CategorizeAt | src/parse_auth_log.py:56-58 | the k-th rule decides as soon as it matches and no earlier rule does |
| CommandClassifier.CategorizeDefault | src/parse_auth_log.py:59-64 | the default comes back exactly when no rule matches; no weight exceeds 0.8 |
| CommandClassifier.UseraddBeatsScp | src/parse_auth_log.py:22-33 | a command with both "useradd" and "scp" is Identity Management, although the transfer rule matches too |
| CommandClassifier.SshKeyPathIsLateralMovement | src/parse_auth_log.py:28-39 | a path "ssh/…_id" matches the credential rule, but "ssh" already matches the earlier transfer rule, so the command is Lateral Movement |
| CommandClassifier.LackingKeywordCharsIsDefault | src/parse_auth_log.py:54-64 | a command that lacks the characters every keyword needs matches no rule and gets the default |
| CommandClassifier.IdentityProgram | src/parse_auth_log.py:22-27 | an identity keyword without the letters t, k, i and n (so not `visudo` or `sudoers`), used as a program name, is Identity Management, weight 0.4 |
| CommandClassifier.ListedIdentityPrograms | src/parse_auth_log.py:22-27 | `useradd`, `usermod`, `userdel`, `groupadd` and `groupmod`, the five identity programs of the extractor that the identity rule names, get that rule's metadata |
| CommandClassifier.UnlistedIdentityPrograms | src/parse_auth_log.py:283 | `groupdel` and `chage`, identity programs of the extractor, are in no rule: the default |
| EventExtractor.LoginParties | src/parse_auth_log.py:102 | user and address of an accepted login: exactly the two words `for\s+(\S+)\s+from\s+(\S+)` captures, None iff it does not match |
| EventExtractor.FailureParties | src/parse_auth_log.py:111-113 | user and address of a failed login: when `for\s+(?:invalid user\s+)?(\S+)\s+from\s+(\S+)` is found anywhere, exactly its two captured words; only when it is found nowhere, exactly those of `Invalid user\s+(\S+)\s+from\s+(\S+)`, and None iff that fails too |
| EventExtractor.SshdRule | src/parse_auth_log.py:100-122 | a message with "Accepted publickey" is a login with exactly the words `LoginParties` finds, or nothing; otherwise one with "Failed password" or "Invalid user" is a failure with exactly the words `FailureParties` finds, or nothing; each event carries the line's time and host |
| EventExtractor.FailedPasswordPlainAt | src/parse_auth_log.py:110-122 | "Failed password for U from A…" where U is not "invalid user" is the failure of U from A: the optional words match nothing and the search's first hit is at the "for" |
| EventExtractor.FailedPasswordInvalidAt | src/parse_auth_log.py:110-122 | "Failed password for invalid user U from A…" is the failure of U from A: the optional "invalid user" is skipped, not taken as the user |
| EventExtractor.InvalidUserFallbackAt | src/parse_auth_log.py:110-122 | "Invalid user U from A…" with no "for" in it is the failure of U from A, found by the second search after the first finds nothing |
| EventExtractor.FailedPasswordParties | src/parse_auth_log.py:110-122 | the message "Failed password for " + U + " from " + A + rest, for words U and A and a rest starting with whitespace, is the failure of U from A |
| EventExtractor.InvalidUserPasswordParties | src/parse_auth_log.py:110-122 | the message "Failed password for invalid user " + U + " from " + A + rest is the failure of U from A |
| EventExtractor.AssignedUser | src/parse_auth_log.py:240 | `user=(\S+)`: exactly the captured word, None iff no match |
| EventExtractor.LeadingName | src/parse_auth_log.py:126 | `^\s*(\S+)\s+:` anchored at the start: exactly the captured word, None iff no match |
| EventExtractor.CommandAfterMarker | src/parse_auth_log.py:127 | `COMMAND=(.*)`: the captured rest of the line, which holds no newline |
| EventExtractor.SudoFailureUser | src/parse_auth_log.py:240-242 | the `user=` value when there is one, else the leading name |
| EventExtractor.SudoRule | src/parse_auth_log.py:124-135 | a sudo message with "COMMAND=" and "USER=root" can only be an escalation, with a trimmed command and no source or confidence; otherwise (lines 237-252) "authentication failure" or "conversation failed" gives an auth failure from sudo with high confidence |
| EventExtractor.SessionParties | src/parse_auth_log.py:257 | `user\s+(\S+)\s+by\s+(\S+)\(`: the target and the invoking user, exactly as captured |
| EventExtractor.SuRule | src/parse_auth_log.py:254-280 | an opened su session is the escalation of the invoking user to the target, command "su to target", source su, medium confidence; otherwise an auth failure needs a `user=` and has high confidence |
| EventExtractor.ApplyRules | src/parse_auth_log.py:282-295 | only sshd, sudo, su and the seven identity programs produce events, each only events of its own kinds; every identity-program line is an iam_change as root with high confidence |
| EventExtractor.ParseLine | src/parse_auth_log.py:76-98 | blank lines, lines the header does not match and unparsable timestamps give None; an event carries the parsed time and the header's host |
| EventExtractor.ParseLineRule | src/parse_auth_log.py:92-100 | once the header matches and the time parses, the event is exactly the program rule's result on the message |
| EventExtractor.UnparsedTimestampDropsLine | src/parse_auth_log.py:96-98 | a timestamp the parser rejects drops the line |
| EventExtractor.CommandIsRestAfterFirstMarker | src/parse_auth_log.py:127 | on a one-line message the command is everything after the first "COMMAND=" |
| EventExtractor.SudoRootCommand | src/parse_auth_log.py:124-135 | a root command with a leading name is that name's escalation carrying the stripped text after the first marker |
| EventExtractor.AcceptedKeyIsLogin | src/parse_auth_log.py:101-110 | an accepted public key with "for X from Y" somewhere is a login with the leftmost such user and address |
| EventExtractor.SudoFailureUserPreference | src/parse_auth_log.py:237-252 | a failed sudo authentication takes `user=` first, the leading name second, and is dropped without either |
| EventExtractor.SuFailureNeedsUser | src/parse_auth_log.py:269-280 | a failed su authentication is an event iff it names `user=` |
| EventExtractor.SuSessionIsEscalation | src/parse_auth_log.py:255-268 | an opened session "user T by U(" is U's escalation to T |
| LegacyExtractor.SshdUser | parse_auth_log.py:9-19 | the first of the three sshd searches that matches decides the user, which is a word |
| LegacyExtractor.CronUser | parse_auth_log.py:25-29 | `^\(([^)]+)\)`: defined iff the message opens with "(", a non-")" and later has a ")"; the user is the non-empty text up to the first ")" |
| LegacyExtractor.ExtractUser | parse_auth_log.py:5-31 | sshd, then sudo, then cron in any case decide the search; any other program has no user |
| LegacyExtractor.ParseLine | parse_auth_log.py:33-65 | a record exists iff the stripped line is non-blank and matches the header; it holds the raw timestamp, host, stripped program, the extracted user and the raw message |
| LegacyExtractor.LegacyKeepsEveryParsedLine | parse_auth_log.py:33-65 | every line the signal pipeline turns into an event is kept by the older extractor, with the same host |
| LegacyExtractor.UnknownProgramKeepsLine | parse_auth_log.py:53-65 | a line of a program without a user rule is still kept, with no user |
| WindowAggregator.WindowStart | src/parse_auth_log.py:560 | `int(t // w) * w` is the window start holding t: start ≤ t < start + w |
| WindowAggregator.SameWindow | src/parse_auth_log.py:568 | two instants share a window iff they have the same quotient |
| WindowAggregator.Entry | src/parse_auth_log.py:578-590 | a classified command: its weight is the classifier's, risk "high" iff weight ≥ 0.4, source "unknown" and confidence "high" when the event has none |
| WindowAggregator.Accumulators.constructor | src/parse_auth_log.py:534-539 | all dictionaries start empty |
| WindowAggregator.Accumulators.AddLogin | src/parse_auth_log.py:559-564 | a login adds its address to its hour's set, creating the set (and its key's place in the order) on first use |
| WindowAggregator.Accumulators.AddFailure | src/parse_auth_log.py:566-570 | a failed ssh login counts one more for its (user, ip, host, hour) key |
| WindowAggregator.Accumulators.AddEscalation | src/parse_auth_log.py:572-590 | an escalation appends its classified command to its ten-minute window |
| WindowAggregator.Accumulators.AddAuthFailure | src/parse_auth_log.py:592-596 | an authentication failure counts one more for its (user, source, host, ten minutes) key |
| WindowAggregator.Accumulators.Add | src/parse_auth_log.py:551-599 | one event filed by its kind, keeping every order listing its dictionary's keys once and every entry non-empty |
| WindowAggregator.FoldEvents | src/parse_auth_log.py:546-599 | the event loop leaves exactly the accumulators of the event sequence, and they are valid |
| WindowAggregator.StepValid | src/parse_auth_log.py:551-599 | filing one event keeps the accumulators valid |
| WindowAggregator.AccumulateValid | src/parse_auth_log.py:546-599 | the accumulators of any event sequence are valid |
| WindowAggregator.FailuresCounted | src/parse_auth_log.py:566-570 | a failure key is present iff some failure has it, and its counter is the number of such failures |
| WindowAggregator.AuthFailuresCounted | src/parse_auth_log.py:592-596 | the same for authentication failures |
| WindowAggregator.AddressesCollected | src/parse_auth_log.py:559-564 | an hour of logins holds exactly the addresses of the logins with its key |
| WindowAggregator.CommandsCollected | src/parse_auth_log.py:572-590 | a privilege window holds exactly the classified commands of its escalations, in arrival order |
| WindowAggregator.IamEventsKept | src/parse_auth_log.py:598-599 | identity changes are kept one by one, in arrival order |
| WindowAggregator.CountsPermuted | src/parse_auth_log.py:559-570 | the failure and authentication-failure counts and the address sets of any two rearrangements of the same events agree, key by key |
| WindowAggregator.FailuresOrderFree | src/parse_auth_log.py:566-570 | failure counters do not depend on arrival order: any rearrangement of the events gives the same dictionary |
| WindowAggregator.AuthFailuresOrderFree | src/parse_auth_log.py:592-596 | authentication-failure counters do not depend on arrival order: any rearrangement of the events gives the same dictionary |
| WindowAggregator.AddressesOrderFree | src/parse_auth_log.py:559-564 | address sets do not depend on arrival order: any rearrangement of the events gives the same dictionary |
| WindowAggregator.SameHourSameCounter | src/parse_auth_log.py:566-570 | two failures of one user, address and host in the same hour share a counter |
| WindowAggregator.EscalationWindows | src/parse_auth_log.py:572-574 | two escalations of one user and host share a window iff their ten-minute quotients agree |
| RiskScorer.BaseScore | src/parse_auth_log.py:303-311 | base 0.1–0.4 per type; any other type gets 0.1 |
| RiskScorer.Multiplier | src/parse_auth_log.py:321-323 | multiplier between 0.4 and 1.0; absent confidence counts as medium (0.7) |
| RiskScorer.PatternBonus | src/parse_auth_log.py:317-319 | +0.2 exactly for an access pattern with pattern multi_ip_access |
| RiskScorer.RiskScore | src/parse_auth_log.py:297-325 | the score never exceeds 1.0, is at least 0.04 for a non-negative weight, and is 1.0 exactly when the uncapped product reaches 1.0 |
| RiskScorer.RiskScoreIsExact | src/parse_auth_log.py:311-325 | the score in hundredths equals Python's real-valued `min((base + weight + bonus) * multiplier, 1.0)`, so the rounding is the identity |
| RiskScorer.MultiplierFollowsRank | src/parse_auth_log.py:322 | the multiplier order is the confidence order low < medium < high |
| RiskScorer.ScoreMonotoneInWeight | src/parse_auth_log.py:313-315 | a larger intent weight never lowers the score |
| RiskScorer.ScoreMonotoneInConfidence | src/parse_auth_log.py:321-325 | a more trusted confidence never lowers the score |
| RiskScorer.IamIdentityScore | src/parse_auth_log.py:297-325 | an identity change of weight 0.4 at high confidence scores 0.8 |
| RiskScorer.UnknownConfidenceIsMedium | src/parse_auth_log.py:323 | an unknown confidence value scores like an absent one (medium) |
| Emission.AccessSignal | src/parse_auth_log.py:604-619 | an access pattern lists its hour's addresses and their number |
| Emission.AccessPatternKind | src/parse_auth_log.py:605 | multi_ip_access iff more than one address, single_ip_access otherwise |
| Emission.MaxWeight | src/parse_auth_log.py:627 | the maximum weight: attained by some entry and bounding all |
| Emission.FirstIntentWith | src/parse_auth_log.py:628 | the intent of the first entry with the given weight, General Administration when none has it |
| Emission.MitreTags | src/parse_auth_log.py:629 | the set of the entries' MITRE techniques other than N/A |
| Emission.ComplianceTags | src/parse_auth_log.py:630 | the set of the entries' compliance controls other than N/A |
| Emission.CollectiveConfidence | src/parse_auth_log.py:632 | medium iff some entry is medium, high otherwise |
| Emission.PrivilegeSignal | src/parse_auth_log.py:625-648 | a privilege window's signal carries all its commands, the window's start, host and user; its MITRE and compliance tags are exactly the distinct non-"N/A" values of its commands; its confidence is "medium" iff some command is medium, "high" otherwise; its score is the scorer's on its own weight and confidence |
| Emission.PrivilegeIntent | src/parse_auth_log.py:627-628 | the window's weight is the maximum and its intent is the first command's of that weight |
| Emission.IamChangeSignal | src/parse_auth_log.py:654-672 | an identity change's signal carries the event's own time, host, user, program, message and confidence; its intent and weight are `categorize_command` of the program; each tag list holds the classifier's value unless it is "N/A"; its score is the scorer's on that weight and the event's confidence |
| Emission.IamProgramsClassified | src/parse_auth_log.py:283 | every program of the extractor's identity list is classified: `groupdel` and `chage` by the default, the other five by the identity rule |
| Emission.ListedIamProgramsAreIdentityManagement | src/parse_auth_log.py:654-672 | `useradd`, `usermod`, `userdel`, `groupadd` and `groupmod` changes are Identity Management of weight 0.4, tagged T1078 and SOC2_CC6.1 |
| Emission.BruteForceSignal | src/parse_auth_log.py:679-692 | a brute-force signal carries its count and address and always scores 0.3 |
| Emission.FailedAuthSignal | src/parse_auth_log.py:698-711 | a failed_auth signal carries its count and source and always scores 0.3 |
| Emission.AccessSignals | src/parse_auth_log.py:604-621 | one access signal per hour, in key-insertion order |
| Emission.PrivilegeSignals | src/parse_auth_log.py:625-650 | one privilege signal per window, in key-insertion order |
| Emission.IamSignals | src/parse_auth_log.py:654-674 | one signal per identity change, in order |
| Emission.BruteForceSignals | src/parse_auth_log.py:678-694 | exactly the counters of at least three become signals, each with its own key and count |
| Emission.FailedAuthSignals | src/parse_auth_log.py:698-713 | one failed_auth signal per counter, in key-insertion order, with no threshold |
| Emission.EmitAccess | src/parse_auth_log.py:604-622 | the access loop emits exactly the access section |
| Emission.EmitPrivilege | src/parse_auth_log.py:625-651 | the privilege loop emits exactly the privilege section |
| Emission.EmitIam | src/parse_auth_log.py:654-675 | the identity loop emits exactly the identity section |
| Emission.EmitBruteForce | src/parse_auth_log.py:678-695 | the brute-force loop emits exactly the thresholded section |
| Emission.EmitFailedAuth | src/parse_auth_log.py:698-714 | the failed_auth loop emits exactly its section |
| Emission.EmitSignals | src/parse_auth_log.py:601-714 | all signals, section after section in the source's order |
| Emission.BruteForceFromEvents | src/parse_auth_log.py:678-679 | three or more failures of one key in an hour become a brute-force signal with that count; no emitted brute-force signal has fewer |
| Emission.FailedAuthFromEvents | src/parse_auth_log.py:698-711 | every group of authentication failures, however small, becomes a signal with its count |
| Emission.AccessFromEvents | src/parse_auth_log.py:604-619 | every hour of logins becomes an access signal listing its logins' addresses, multi-location iff there are several |
| Emission.PrivilegeFromEvents | src/parse_auth_log.py:625-648 | every window of escalations becomes one signal with its classified commands in arrival order |
| Emission.IamFromEvents | src/parse_auth_log.py:654-674 | every identity change becomes its own signal |
| Emission.UnlistedIamProgramsWeighNothing | src/parse_auth_log.py:656-667 | `groupdel` and `chage` changes get weight 0, General Administration and no tags |
| Narrative.FallbackQuotesNobody | src/parse_auth_log.py:398 | the fallback narrative holds no quoted name |
| Narrative.MultiLocationWording | src/parse_auth_log.py:359-364 | the multi-location narrative quotes the user |
| Narrative.StandardLoginWording | src/parse_auth_log.py:366 | the standard-login narrative quotes the user |
| Narrative.AccessWording | src/parse_auth_log.py:358-366 | any access narrative quotes the user |
| Narrative.PrivilegeWording | src/parse_auth_log.py:368-376 | the privilege narrative quotes the user |
| Narrative.IamWording | src/parse_auth_log.py:378-382 | the identity narrative quotes the program |
| Narrative.BruteForceWording | src/parse_auth_log.py:384-389 | the brute-force narrative quotes the user |
| Narrative.FailedAuthWording | src/parse_auth_log.py:391-396 | the failed_auth narrative quotes the user |
| Narrative.GenerateNarrative | src/parse_auth_log.py:354-398 | which missing keys make each template raise; unknown types get the fallback; every known type's narrative quotes its user (the program for identity changes) |
| Narrative.KnownTypesAreNarrated | src/parse_auth_log.py:354-398 | a known signal type never gets the fallback narrative |
| Narrative.GenerateRecommendation | src/parse_auth_log.py:400-428 | block iff a brute-force score is above 0.6; privilege by intent; identity changes always get the owner step; travel iff multi-location; stale credentials iff more than five failures; otherwise no recommendation |
| Narrative.EmittedSignalsAreNarrated | src/parse_auth_log.py:354-398 | every emitted signal has the keys its template reads and gets its own narrative |
| Narrative.BruteForceNeverBlocks | src/parse_auth_log.py:407-410 | an emitted brute-force signal (0.3) always gets the probe recommendation, never the block |
| Narrative.AccessRecommendation | src/parse_auth_log.py:422-423 | an access signal gets the travel recommendation iff it saw several addresses |
| Narrative.FailedAuthRecommendation | src/parse_auth_log.py:425-426 | a failed_auth signal gets the stale-credentials recommendation iff its count exceeds five |
| Summaries.WeeklyTier | src/parse_auth_log.py:452-463 | Low (Reviewed) iff high-risk changes or multi-location access were counted, Low otherwise |
| Summaries.GenerateWeeklySummary | src/parse_auth_log.py:430-484 | one server, the seven highlight counts, the tier of those counts, never Action Recommended, average 0 for no signals |
| Summaries.WeeklyTierReasons | src/parse_auth_log.py:441-463 | the tier is Low (Reviewed) iff some signal is a privilege or identity change of weight ≥ 0.4 or a multi-location access pattern |
| Summaries.TypeCountsAddUp | src/parse_auth_log.py:435-439 | the five per-type counts add up to the number of signals |
| Summaries.AverageBounds | src/parse_auth_log.py:445-447 | with scores in [0, 1] the average is in [0, 1] |
| Summaries.ReportHighRiskChanges | src/parse_auth_log.py:474 | a weekly report reads back its high-risk-change count |
| Summaries.HighestOfOne | src/parse_auth_log.py:510-512 | a single report sets the tier |
| Summaries.GenerateMultiServerSummary | src/parse_auth_log.py:486-525 | the loop sums five highlights and keeps the most urgent tier; it raises on a report without highlights or without a known tier |
| Summaries.HighestIsMostUrgent | src/parse_auth_log.py:510-512 | the chosen tier is at least as urgent as every report's and is one of them, or Low |
| Summaries.SameTiersSameHighest | src/parse_auth_log.py:510-512 | the tier depends on the set of reports only |
| Summaries.TiersOrderFree | src/parse_auth_log.py:502-512 | any rearrangement of the reports changes neither readability nor the tier |
| Summaries.MultiServerOrderFree | src/parse_auth_log.py:502-512 | the multi-server summary, raised or returned, is the same for any rearrangement of the reports |
| Summaries.FieldSumPermuted | src/parse_auth_log.py:505-508 | a summed highlight is the same for any rearrangement of the reports |
| Summaries.SumsOrderFree | src/parse_auth_log.py:502-508 | the totals are the same for any rearrangement of the reports |
| Summaries.WeeklyReportReadable | src/parse_auth_log.py:465-478 | a weekly report has highlights and a known tier short of Action Recommended |
| Summaries.CalmSummaryReadable | src/parse_auth_log.py:465-478 | a report tiered Low or Low (Reviewed) is readable by the multi-server loop |
| Summaries.CalmReportsCombine | src/parse_auth_log.py:486-525 | readable reports short of Action Recommended combine without error into a summary short of it |
| Summaries.WeeklyReportsCombine | src/parse_auth_log.py:486-525 | reports written by the weekly summary combine without error, never into Action Recommended |
| Fleet.CanonicalSummaries | aggregate_weekly.py:93-102 | the loader keeps exactly the reports of type weekly_security_summary, each as often as it occurs among the records, and drops every other |
| Fleet.CanonicalSummariesAppend | aggregate_weekly.py:93-102 | the loader keeps the records' order: what it keeps of two runs of records is what it keeps of the first followed by what it keeps of the second |
| Fleet.WeeklyReportsAreCanonical | aggregate_weekly.py:5 | weekly reports have the type the loader keeps |
| Fleet.ScanForAction | aggregate_weekly.py:35 | `any(...)` is true iff an Action Recommended report comes before any report without a tier; it raises iff a report without a tier comes first |
| Fleet.FleetTier | aggregate_weekly.py:35-40 | Action Recommended iff some server asks for action, else Low (Reviewed) iff high-risk changes are positive, else Low |
| Fleet.FleetSpec | aggregate_weekly.py:13-14 | no reports give None, and only then |
| Fleet.AggregateFleetSummary | aggregate_weekly.py:7-87 | the in-place summing loop and the tier choice compute the fleet specification |
| Fleet.FleetTierRule | aggregate_weekly.py:30-40 | with all tiers present the fleet is Action Recommended iff some server is, and Low (Reviewed) iff none is and summed high-risk changes are positive |
| Fleet.FleetOrderFree | aggregate_weekly.py:16-40 | with all tiers present the fleet report is the same for any rearrangement of the servers |
| Fleet.ScanTiered | aggregate_weekly.py:35 | with all tiers present the scan returns whether some tier is Action Recommended |
| Fleet.MultiIpOnlyStaysLow | aggregate_weekly.py:35-40 | without Action Recommended and without high-risk changes the fleet is Low, whatever multi-location access the servers saw |
| Fleet.MultiIpWeekTiers | aggregate_weekly.py:35-40 | a week whose only finding is multi-location access is Low (Reviewed) for its server and the multi-server summary, but Low for the fleet |
| Fleet.ReviewedWeekTiers | aggregate_weekly.py:35-40 | a single Low (Reviewed) report without high-risk changes: Low (Reviewed) for the multi-server summary, Low for the fleet |
| Fleet.MultiIpDescription | aggregate_weekly.py:49-55 | the multi-location clause gives the count when positive, the consistent-locations sentence otherwise |
| Fleet.FleetNarrative | aggregate_weekly.py:42-78 | the fleet narrative holds the multi-location clause and ends with its tier's closing clause |
| Playbooks.Select | src/playbooks.py:49 | a playbook is selected iff it is configured, has the signal's type as trigger and the score reaches its minimum |
| Playbooks.GetRecommendations | src/playbooks.py:47-49 | the applicable configured playbooks, and only those |
| Playbooks.SelectIsSubsequence | src/playbooks.py:49 | the selection keeps the configured order |
| Playbooks.SelectMonotone | src/playbooks.py:49 | raising the score never drops a playbook |
| Playbooks.ConfiguredSelection | src/playbooks.py:25-49 | the selection over PB-001 and PB-002, written out |
| Playbooks.BruteForcePlaybook | src/playbooks.py:26-35 | brute force gets PB-001 exactly from 0.7 on |
| Playbooks.PrivilegePlaybook | src/playbooks.py:36-44 | privilege escalation gets PB-002 exactly from 0.4 on |
| Playbooks.OtherTypesHaveNone | src/playbooks.py:47-49 | no other signal type has a playbook |
| Playbooks.EmittedBruteForceIsNeverContained | src/playbooks.py:30 | brute-force signals (0.3) never reach PB-001 |
| Playbooks.PrivilegeWindowAudit | src/playbooks.py:40 | a privilege window gets PB-002 iff its weight is at least 0.4, or at least 0.2 with high confidence |
| Qre.Classify | src/qre.py:20-56 | the confidence belongs to the intent: 0.95 for the keyword groups, 0.85 for decision, 0.70 for the exact fallback |
| Qre.ClassifyFirstGroup | src/qre.py:25-56 | the first keyword group with a hit in the lower-cased query decides, in the order analytical, similarity, decision; no hit is EXACT |
| Qre.ShouldINeverMatches | src/qre.py:30 | "should I" never occurs in a lower-cased query |
| Qre.DecisionKeywords | src/qre.py:30 | a decision hit is "is this" or "risk of" |
| Qre.Split | src/qre.py:69 | `re.split` gives at least one part |
| Qre.SplitRoundTrip | src/qre.py:69 | the parts, with the conjunctions found between them, give back the query; every separator is a conjunction (ignoring case); no part holds one |
| Qre.SplitIsLeftmost | src/qre.py:69 | `re.split` cuts leftmost-first: no conjunction begins inside a part (not even one running into the next separator), each separator is the first alternative matching where its part ends, and this reading has exactly one cut, the one `Split` returns |
| Qre.NoConjunctionOnePart | src/qre.py:69 | a query without conjunctions is a single part: itself |
| Qre.Decompose | src/qre.py:61-80 | one sub-query per part, in order, each trimmed and classified on its own |
| Qre.EveryIntentIsMapped | src/qre.py:85-91 | every intent the classifier gives has an engine, so the Elastic default is never needed |
| Qre.RouteOne | src/qre.py:102-113 | a decision keeps the query and tenant, the trimmed part, its classification and the engine of its intent |
| Qre.Route | src/qre.py:97-116 | one decision per part of the split query, in order |

## Left out

- Language-model enrichment (`enrich_signal_with_ai`, `AIEngine`) and vector indexing are left out. The template narrative and recommendation are modelled as what the pipeline falls back to.
- File I/O, `print`, JSON encoding, `argparse` and the error messages of `main` are left out.
- Timestamp parsing (`parse_timestamp`) depends on the clock (`datetime.now().year`) and on the local time zone. It is the parameter `parseTs`.
- `generate_signal_id` is not part of this model. Identifiers come from the parameter `idOf`, applied to type, a time in whole epoch seconds, host and user. For the windowed signals the time is the window start, and `datetime.fromtimestamp(window).isoformat()` (src/parse_auth_log.py:606, 633, 680, 699) is folded into `idOf`. The signals' `timestamp` fields are likewise kept as epoch seconds, not ISO strings.
- Emission.IamChangeSignal: its id and `timestamp` field are built from the event's own time as `parseTs` gives it in whole epoch seconds. The source renders the parsed datetime with `isoformat()` (src/parse_auth_log.py:655), which keeps its UTC offset and fractional seconds. So the model gives one id to two changes with the same host and user within the same second, where Python can give two, and the signal carries no offset or fraction of a second.
- The first, older revision of the module (`calculate_risk_score(signal_type, severity)` and its `main`) is left out. It is superseded by the later definitions of the same names.
- The 5-minute login counter (`ssh_groups`) is filled but never read, so it is not modelled.
- `list(set(...))` gives an order that Python does not fix. Address lists and tag lists are modelled as sets.
- The weekly `avg_risk_score` is the exact mean as a real. Its rounding to two decimals is left out.
- The fleet report's generation time stamp is left out. So is the `timestamp` field of a routing decision, which comes from the usage tracker.
- `str.lower()` is modelled for ASCII, the Kelvin sign and U+0130. Other characters keep their code point. This is exact for a search for ASCII keywords.
- `re.IGNORECASE` on the conjunctions is modelled as ASCII case plus the long s. `\d` is modelled as ASCII digits only.
- Narratives and summaries with a fixed wording are functions of the fields they print. Their contracts state the clauses that matter, not every word.
- Analyst overrides, storage, dashboard, deployment, notification, audit bundle, query shell, stream processing glue, schema classes and identity are not part of this model.
- RiskScorer.RiskScore: its own contract states the bounds and the cap. The exact value is stated by `RiskScorer.RiskScoreIsExact`.
- Summaries.GenerateWeeklySummary: the narrative text is not stated beyond being built from the tier. The average is exact rather than rounded.
- Fleet.FleetOrderFree: it requires every report to carry a tier. A report without one makes the `any(...)` scan raise or not depending on whether an "Action Recommended" report comes first, so the outcome depends on order.
- Fleet.FleetNarrative: it states the multi-location clause and the closing clause, not the opening counts.
- Narrative.GenerateNarrative: it states the quoting and the raising keys, not the full text.
