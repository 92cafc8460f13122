# Meshtastic bridge relay pipeline, in Dafny

This project models the relay pipeline of the enhanced Meshtastic bridge. The bridge joins several Meshtastic radios and forwards a text message heard on one radio to all the others.

- **`Bridge.EnhancedBridge`** (bridge_enhanced.py) is the hot path:
  - it finds the radio a packet arrived on;
  - it keeps decoded `TEXT_MESSAGE_APP` packets and drops every other packet;
  - it drops duplicates, using the message tracker;
  - it asks the admission filter;
  - it records the message and counts it as received on the source radio;
  - it sends the message once to every other radio, in index order. Each send has its own success/failure bookkeeping, and a failure does not stop the loop.

  The model also covers `send_message` and the radio naming and stats reset done by `connect`.
- **`Filter.MessageFilter`** (message_filter.py) is the admission filter. Its checks run in a fixed order:
  1. sender whitelist, then blacklist;
  2. allowed channels, then blocked channels;
  3. keywords and regular expressions;
  4. custom rules in priority order, where the first decisive rule wins;
  5. if nothing decides, allow.

  The filter also keeps six cumulative counters and a custom-rule list that stays in priority order.
- **`Config.BridgeConfig`** (config.py) holds the configuration tree:
  - the recursive merge of the defaults with a loaded file;
  - dot-path `get` and `set`;
  - `validate`.
- **`Metrics.MetricsCollector`** (metrics.py) holds the counters behind the Prometheus endpoint:
  - per-radio counters over a fixed key set;
  - totals and gauges;
  - a 1000-sample window of processing times, with a running maximum and minimum;
  - per-node counts.

  The same module covers how node ids are escaped as label values.
- **`Tracker.MessageTracker`** is the message tracker, reduced to the three calls the bridge makes. Its own source (bridge.py) is not part of this model.
- **`Text`** holds the string helpers the source gets from Python:
  - ASCII lower-casing and substring search;
  - decimal formatting;
  - `int()` parsing;
  - `str.split('.')`.

Values are modelled as datatypes:
- packets, messages and rules;
- the configuration tree `Value = Dict(map<string, Value>) | …`;
- filter counters.

Objects whose fields the source updates in place are classes with `modifies` frames. These are the bridge, the filter, the collector, the configuration and the tracker.

Each loop of the source is a `while`/`for` loop with invariants, proved against a specification function:
- the interface search and the forwarding loop;
- the content and custom-rule scans;
- the pattern-compiling and rule-loading loops;
- the `get`/`set` walks.

The bridge's relay is specified by two views of its state:
- `RelayView` covers the per-radio stats, the sends made, the tracker and the metrics' traffic counters;
- `TallyView` covers the metrics' arrival counters, filtered total and timing history.

The forwarding loop is proved equal to a closed form over the list of target indices (`FannedOut`). Lemmas over that closed form give what the loop guarantees:
- every radio but the source is tried once, in ascending order;
- each target gains exactly one of sent or errors;
- total traffic rises by N − 1;
- the message is marked forwarded iff some send succeeded.

## Model

| member | source | states |
|---|---|---|
| Bridge.RadioNames | bridge_enhanced.py:148-157 | connect names the radio at index i `"radio" + str(i + 1)`, one name per connected handle |
| Bridge.RadioNameInjective | bridge_enhanced.py:149 | two indices with the same radio name are the same index (decimal formatting is injective) |
| Bridge.RadioNamesDistinct | bridge_enhanced.py:148-157 | the names one connect gives are pairwise distinct, so the per-radio stats keys do not collide |
| Bridge.MetricsKnowFirstTwoRadios | bridge_enhanced.py:149 | the radio at index i has a metrics counter iff i < 2; the metrics of a third radio onwards are silently dropped (metrics.py:25-27) |
| Bridge.ExtractMessage | bridge_enhanced.py:231-252 | a message is extracted iff the packet has `decoded` and its portnum is `TEXT_MESSAGE_APP`; the text is the decoded payload, and id, from, to and channel are the packet's, with 0, "unknown", "unknown" and 0 when missing |
| Bridge.Targets | bridge_enhanced.py:304-306 | the forwarding loop visits n − 1 targets when the source is among the n interfaces, otherwise n |
| Bridge.TargetsMembers | bridge_enhanced.py:304-306 | the targets are exactly the indices below n other than the source index |
| Bridge.TargetsAscending | bridge_enhanced.py:304 | the targets are visited in strictly ascending index order, so none is visited twice |
| Bridge.TargetsNext | bridge_enhanced.py:304-306 | visiting index n adds n to the targets unless n is the source |
| Bridge.Record | bridge_enhanced.py:315-316 | one send attempt changes only the stats entries of known radios and keeps the key set |
| Bridge.AfterSends | bridge_enhanced.py:310-330 | trying every target keeps the stats key set |
| Bridge.AfterSendsSnoc | bridge_enhanced.py:310-330 | one more target is one more Record step on that target's radio |
| Bridge.Attempts | bridge_enhanced.py:311 | one sendText call per target, in target order, with the message text and channel |
| Bridge.AttemptsSnoc | bridge_enhanced.py:311 | one more target appends exactly one sendText call |
| Bridge.CountOutcome | bridge_enhanced.py:318-334 | the number of targets with a given outcome is at most the number of targets |
| Bridge.DeliveredSnoc | bridge_enhanced.py:311-313 | after one more target, some send has succeeded iff one had before or this one succeeds |
| Bridge.CountsSnoc | bridge_enhanced.py:318-334 | one more target adds one to the success or failure count and bumps that radio's sent or errors counter |
| Bridge.Marked | bridge_enhanced.py:311-313 | marking the message forwarded never adds or removes tracker entries |
| Bridge.MarkedTwice | bridge_enhanced.py:311-313 | marking twice is marking once if either attempt succeeded, so one mark_forwarded per success gives "forwarded iff some send succeeded" |
| Bridge.Dispatched | bridge_enhanced.py:310-330 | the bridge's record of one send keeps the stats key set |
| Bridge.Attempt | bridge_enhanced.py:308-334 | one pass of the loop, including its metrics part, keeps the stats key set |
| Bridge.FannedOutStep | bridge_enhanced.py:304-334 | the closed form over targets `ts + [t]` equals one Attempt on radio t after the closed form over `ts`, so the closed form is the loop |
| Bridge.FannedOut | bridge_enhanced.py:302-334 | the state after trying a list of targets, in closed form: stats after one Record per target, one sendText per target in order, the message marked forwarded iff some send succeeded, and (with metrics) per-radio sent/errors bumped and forwarded/dropped raised by the success/failure counts; FannedOutStep proves it is the loop |
| Bridge.FannedOutUpTo | bridge_enhanced.py:304-334 | the closed form after the loop has visited interfaces 0 to n − 1; FannedOutUpToZero and FannedOutUpToNext are its loop equations, and FanOut's ensures ties the method to it |
| Bridge.TargetsInRange | bridge_enhanced.py:304-308 | every target below n is a connected radio with stats and a send outcome |
| Bridge.FannedOutUpToZero | bridge_enhanced.py:303-304 | before any interface is visited, nothing has changed |
| Bridge.FannedOutUpToNext | bridge_enhanced.py:304-334 | visiting interface n leaves the state unchanged when n is the source, and is one Attempt on radio n otherwise |
| Bridge.Arrived | bridge_enhanced.py:276-280 | an admitted message is added to the tracker and the source's received counter rises; no radio is added or removed |
| Bridge.OutcomesPartitionTargets | bridge_enhanced.py:310-334 | every target has exactly one outcome: successes plus failures equal the number of targets |
| Bridge.AfterSendsPerRadio | bridge_enhanced.py:310-330 | with distinct radio names, a target's sent rises by one on success and its errors by one on failure; a radio that is not a target is unchanged |
| Bridge.TrafficRecord | bridge_enhanced.py:315-330 | one send attempt raises total sent + errors over distinct radios by exactly one when its radio is among them |
| Bridge.TrafficAfterSends | bridge_enhanced.py:310-334 | trying N targets raises total sent + errors by N; a failure does not stop the loop |
| Bridge.FanOutTraffic | bridge_enhanced.py:304-334 | fanning out from one of N distinct radios raises their total sent + errors by exactly N − 1 |
| Bridge.FirstIndex | bridge_enhanced.py:211-214 | the first index holding a value: it holds the value and no earlier index does |
| Bridge.FirstIndexUnique | bridge_enhanced.py:211-214 | an index that holds the value with none before it is the first index |
| Bridge.EnhancedBridge.constructor | bridge_enhanced.py:61-95 | no interfaces, names, stats or sends; a fresh empty tracker; a filter held exactly when filtering is enabled; metrics held exactly when metrics are enabled |
| Bridge.EnhancedBridge.NewFilter | bridge_enhanced.py:72-73 | a fresh filter built from the filtering section, valid and enabled as configured |
| Bridge.EnhancedBridge.Connect | bridge_enhanced.py:147-190 | each handle is appended with the name `radio<idx+1>`; the stats become zero for every name; with metrics, connected_radios becomes the number of interfaces |
| Bridge.EnhancedBridge.OnReceive | bridge_enhanced.py:206-220 | a packet from an unknown interface changes nothing; otherwise it is handled as coming from the first matching interface; the metrics gauges (connected radios, active nodes, tracked messages) are outside its frame and never change |
| Bridge.EnhancedBridge.HandleMessage | bridge_enhanced.py:225-339 | a non-text packet, a seen id or a filtered message changes no tracker entry, per-radio stat, send or traffic counter; a filtered message changes only the filter stats and the filtered total; an admitted one is relayed (Relayed); the metrics gauges are outside its frame and never change |
| Bridge.EnhancedBridge.Relay | bridge_enhanced.py:274-339 | the message is tracked, counted once as received on the source, sent once to every other radio in index order, and its processing time is recorded; the metrics gauges are outside its frame |
| Bridge.EnhancedBridge.CountFiltered | bridge_enhanced.py:270-271 | a rejected message raises the filtered total by one when metrics exist; nothing else moves |
| Bridge.EnhancedBridge.Arrive | bridge_enhanced.py:276-284 | the tracker gains the entry (not forwarded), the source's received rises by one, and the metrics count the arrival on the radio and the node |
| Bridge.EnhancedBridge.CountArrival | bridge_enhanced.py:282-284 | with metrics, increment_received on the source radio and increment_node_messages on the sender; no traffic counter moves |
| Bridge.EnhancedBridge.FanOut | bridge_enhanced.py:302-334 | the loop's final state is the closed form over all targets; arrival counters and history are untouched |
| Bridge.EnhancedBridge.Visit | bridge_enhanced.py:304-334 | having visited the interfaces below idx, one more pass has visited those below idx + 1 |
| Bridge.EnhancedBridge.SendTo | bridge_enhanced.py:308-334 | one pass is exactly one Attempt on that interface and radio |
| Bridge.EnhancedBridge.Dispatch | bridge_enhanced.py:310-330 | the sendText call is logged; success marks the message forwarded and bumps sent, failure bumps errors |
| Bridge.EnhancedBridge.CountSend | bridge_enhanced.py:318-334 | with metrics, success bumps the radio's sent and forwarded; failure bumps errors and dropped |
| Bridge.EnhancedBridge.CountDelivered | bridge_enhanced.py:318-320 | increment_sent on the target radio and increment_forwarded, nothing else |
| Bridge.EnhancedBridge.CountFailed | bridge_enhanced.py:332-334 | increment_errors on the target radio and increment_dropped, nothing else |
| Bridge.EnhancedBridge.RecordTime | bridge_enhanced.py:336-339 | with metrics, the processing time is appended to the history; traffic state is untouched |
| Bridge.EnhancedBridge.SendMessage | bridge_enhanced.py:358-382 | an unknown radio name returns false without sending; otherwise exactly one sendText on the first radio of that name, and the result is that call's outcome |
| Tracker.MessageTracker.constructor | bridge_enhanced.py:66-69 | a new tracker holds no messages |
| Tracker.MessageTracker.HasSeen | bridge_enhanced.py:255-257 | a message id counts as seen iff the tracker holds an entry for it; HandleMessage's contract uses it to drop a seen id before filtering |
| Tracker.MessageTracker.AddMessage | bridge_enhanced.py:276 | the message is recorded under its id, not yet forwarded |
| Tracker.MessageTracker.MarkForwarded | bridge_enhanced.py:312 | a recorded message is flagged forwarded; an unknown id changes nothing |
| Filter.RulesFromConfig | message_filter.py:74-85 | at most one rule per configured entry; when every entry is a mapping, exactly one rule per entry, in order, with name "Unnamed", type "keyword", pattern "", action "allow" and priority 0 as defaults |
| Filter.RulesFromConfigMembers | message_filter.py:74-85 | a rule is loaded iff some well-formed entry yields it: an entry that raises is skipped and no other entry is lost |
| Filter.Compilable | message_filter.py:45-50 | exactly the patterns that compile are kept; the others are dropped |
| Filter.InsertPosition | message_filter.py:246 | a new rule goes after every rule of equal or higher priority and before the first lower one |
| Filter.Insert | message_filter.py:245-246 | the rules with the new one placed at its insertion position; InsertSorted proves it keeps the order and adds exactly that rule, AddRulePlacement that it equals append-and-sort |
| Filter.InsertSorted | message_filter.py:246 | inserting into a priority-sorted list keeps it sorted and adds exactly that rule |
| Filter.SortByPriority | message_filter.py:88 | the result is sorted by non-increasing priority and is a permutation of the input |
| Filter.WithPriorityAppend | message_filter.py:88 | the rules of one priority in a concatenation are those of each part, in order |
| Filter.WithPriorityNone | message_filter.py:88 | a list whose priorities are all below p has no rule of priority p |
| Filter.InsertStable | message_filter.py:246 | insertion keeps the relative order of equal-priority rules and places the new one after them |
| Filter.SortStable | message_filter.py:88 | the sort is stable: for every priority, the rules of that priority keep their original order |
| Filter.SortOfSorted | message_filter.py:88 | sorting an already sorted list changes nothing |
| Filter.InsertAtEnd | message_filter.py:245-246 | a rule whose priority is not above any held rule's goes at the end |
| Filter.InsertPositionAtEnd | message_filter.py:245-246 | a rule whose priority is not above any held rule's has insertion position at the end |
| Filter.AddRulePlacement | message_filter.py:245-246 | appending to a sorted list and re-sorting is inserting after the rules of equal or higher priority |
| Filter.FirstNamed | message_filter.py:251-253 | the index of the first rule with the name, or the length if there is none |
| Filter.RemoveFirstNamed | message_filter.py:251-253 | the rules without the first one of that name (unchanged if none has it); RemoveKeepsOrder states what it keeps |
| Filter.RemoveKeepsOrder | message_filter.py:249-256 | removing the first rule with a name keeps the list sorted and removes exactly that rule |
| Filter.EvaluateRule | message_filter.py:207-241 | a rule of unknown type never matches; a regex rule whose pattern does not compile never matches |
| Filter.ChannelRuleMatchesItsNumber | message_filter.py:234-239 | a channel rule whose pattern is the decimal form of n matches iff the message's channel is n |
| Filter.SenderRuleIsCaseSensitive | message_filter.py:230-232 | the sender test is case-sensitive: pattern "ABC" does not match sender "abc" |
| Filter.RulesAllow | message_filter.py:194-205 | the custom-rule scan: the first matching rule with action 'block' or 'allow' decides, others are skipped, none means allow; RulesBlockIffFirstDecisiveBlocks characterises it |
| Filter.RulesBlockIffFirstDecisiveBlocks | message_filter.py:194-205 | the custom rules block iff the first matching rule with action 'block' or 'allow' says 'block'; other actions are skipped; no decisive rule means allow |
| Filter.ContentAllowed | message_filter.py:165-182 | empty text passes; otherwise no keyword may be a case-insensitive substring and no compiled pattern may match; CheckContent is proved equal to it |
| Filter.Judge | message_filter.py:109-153 | the verdict of an enabled filter: whitelist, blacklist, allowed channels, blocked channels, content, custom rules, in that order, the first failing check naming the reason; JudgeIsFirstFailingStage characterises it |
| Filter.JudgeIsFirstFailingStage | message_filter.py:109-153 | a message is allowed iff every stage passes; it is blocked for sender, channel, content or custom rule iff that stage is the first to fail |
| Filter.EmergencyOverridesSenderRule | message_filter.py:310-318 | a priority-100 'EMERGENCY' allow rule is checked before a priority-0 sender block rule, whatever their configured order, so "EMERGENCY: Need help!" from that sender is allowed |
| Filter.SortTwo | message_filter.py:88 | two rules of different priority sort higher first from either configured order |
| Filter.InsertBelow | message_filter.py:246 | a rule of lower or equal priority goes after the held rule |
| Filter.InsertAbove | message_filter.py:246 | a rule of higher priority goes before the held rule |
| Filter.SortPair | message_filter.py:88 | sorting two rules is inserting the second after the first |
| Filter.EmergencyKeywordMatches | message_filter.py:218-220 | the keyword rule 'EMERGENCY' matches the text "EMERGENCY: Need help!" |
| Filter.Tally | message_filter.py:103-153 | one checked message: checked rises by one, and allowed, or blocked together with the reason's counter (none for a custom rule); ShouldForward is proved to move the counters by exactly this |
| Filter.TallyKeepsConsistent | message_filter.py:103-153 | one checked message keeps checked = allowed + blocked and the reason counters at most blocked |
| Filter.TallyFromZero | message_filter.py:61-68 | from zero, checked counts every message, each counter counts its verdict, and blocked exceeds the three reason counters by exactly the custom-rule blocks |
| Filter.MessageFilter.constructor | message_filter.py:28-68 | enabled as configured, counters zero, and the policy is the configured one: sets of the lists, the compiling patterns, the rules sorted by priority |
| Filter.MessageFilter.Configure | message_filter.py:35-58 | the policy __init__ derives from its configuration |
| Filter.MessageFilter.CompilePatterns | message_filter.py:45-50 | the loop keeps exactly the patterns that compile, in order |
| Filter.MessageFilter.LoadCustomRules | message_filter.py:70-88 | the held rules plus the configured ones, sorted by priority |
| Filter.MessageFilter.ShouldForward | message_filter.py:90-153 | disabled: true and no counter moves; enabled: true iff the verdict is Allow, and the counters move by exactly that verdict |
| Filter.MessageFilter.CheckContent | message_filter.py:155-182 | empty text passes; otherwise the text is blocked iff some keyword is a case-insensitive substring or some pattern matches |
| Filter.MessageFilter.CheckCustomRules | message_filter.py:184-205 | the scan returns the first decisive rule's action, or allow |
| Filter.MessageFilter.AddRule | message_filter.py:243-247 | the rules are the old ones plus the new one, sorted by priority; the new rule lands after every rule of equal or higher priority |
| Filter.MessageFilter.RemoveRule | message_filter.py:249-256 | returns true iff some rule has the name; exactly the first such rule is removed, and the order of the rest is kept |
| Filter.MessageFilter.AddWhitelistNode | message_filter.py:258-261 | the whitelist gains the node |
| Filter.MessageFilter.AddBlacklistNode | message_filter.py:263-266 | the blacklist gains the node |
| Filter.MessageFilter.RemoveWhitelistNode | message_filter.py:268-271 | the whitelist loses the node; an absent node is no error |
| Filter.MessageFilter.RemoveBlacklistNode | message_filter.py:273-276 | the blacklist loses the node; an absent node is no error |
| Filter.MessageFilter.GetStats | message_filter.py:278-280 | the counters, which always satisfy checked = allowed + blocked and reason counters ≤ blocked |
| Filter.MessageFilter.ResetStats | message_filter.py:282-291 | every counter is zero again, and the filter invariant holds whenever the rules are sorted |
| Config.Merge | config.py:145-155 | the keys are the union; a base-only key keeps its value; an override key wins unless both values are dicts, which merge recursively |
| Config.MergeEmpty | config.py:145-155 | merging with an empty override gives the base back |
| Config.MergeIdempotent | config.py:145-155 | merging a tree with itself gives the tree back |
| Config.Lookup | config.py:165-174 | the dot-path walk: None as soon as the value reached is not a dict or lacks the segment, else the value reached; LookupAppend and LookupFailsIff characterise it |
| Config.LookupAppend | config.py:165-174 | walking one more segment succeeds iff the value reached so far is a dict holding that segment |
| Config.LookupFailsIff | config.py:165-174 | the walk fails iff at some segment the value reached so far is not a dict or lacks that key |
| Config.SetPath | config.py:184-192 | set on a tree: missing intermediate keys become empty dicts and the last key is written; None where a proper prefix reaches a non-dict; GetAfterSet, SetLeavesOtherPaths and SetFailsIff state its meaning |
| Config.GetAfterSet | config.py:184-192 | after a successful set, walking the same path gives the value set |
| Config.SetLeavesOtherPaths | config.py:187-192 | a set leaves every path that diverges from the written path unchanged |
| Config.LookupEmpty | config.py:168-172 | no non-empty path is found in an empty dict |
| Config.SetFailsIff | config.py:187-192 | set fails iff some proper prefix of the path reaches a value that is not a dict |
| Config.SetNeverFailsOnEmpty | config.py:187-190 | on an empty dict, set creates every intermediate dict and succeeds |
| Config.SetFailsAbove | config.py:187-192 | a step that finds a non-dict makes the whole set fail from every level above it |
| Config.SplitTwo | config.py:165 | "a.b" with dot-free parts splits into [a, b] |
| Config.ValidationWarnings | config.py:221-252 | the five checks' warnings concatenated in check order; ValidationWarningsOrdered, InWarnings, ConditionWarningsMeaning and PortWarningsMeaning state what it reports |
| Config.PortWarnings | config.py:224-225 | the no-ports warning iff auto_detect and ports are both falsy |
| Config.BrokerWarnings | config.py:228-230 | the no-broker warning iff MQTT is enabled and the broker is falsy |
| Config.DatabaseWarnings | config.py:233-238 | the missing-directory warning iff the database is enabled with a truthy path whose directory is missing |
| Config.WebWarnings | config.py:241-244 | the web port warning, carrying the port, iff the web UI is enabled and the port is not an int in 1..65535 |
| Config.MetricsWarnings | config.py:247-250 | the metrics port warning, carrying the port, iff metrics are enabled and the port is not an int in 1..65535 |
| Config.AppendRanked | config.py:221-252 | appending at most one warning of the next rank keeps the list in check order |
| Config.ValidationWarningsOrdered | config.py:214-252 | the warnings come in the order of the checks: ports, MQTT, database, web, metrics |
| Config.InWarnings | config.py:221-252 | a warning is reported iff one of the five checks raises it |
| Config.ConditionWarningsMeaning | config.py:224-238 | no-ports iff auto_detect and ports are both falsy; no-broker iff MQTT is enabled with a falsy broker; the database-directory warning iff the database is enabled with a truthy path whose directory is missing |
| Config.PortWarningsMeaning | config.py:241-250 | a web or metrics port warning iff that section is enabled and its port is not an int in 1..65535, and the warning carries that port |
| Config.SettingTwo | config.py:168-174 | a present section.name setting is the value stored there |
| Config.DefaultConfig | config.py:30-86 | DEFAULT_CONFIG as a tree, every section and setting with its default; DefaultsRaiseNoWarning proves it validates clean |
| Config.DefaultsRaiseNoWarning | config.py:30-86 | the default configuration validates without warnings |
| Config.FileKeepsUnmentionedSections | config.py:121-123 | a default section the loaded file does not mention keeps its default value |
| Config.BridgeConfig.constructor | config.py:88-131 | the configuration is the defaults, merged with the loaded file when there is one |
| Config.BridgeConfig.Get | config.py:157-174 | the value the dot-path walk reaches, or the default when a segment is missing or a step is not a dict |
| Config.BridgeConfig.Set | config.py:176-192 | succeeds iff no proper prefix of the path reaches a non-dict; on success the configuration is the updated tree, on failure it is unchanged |
| Config.BridgeConfig.GetDotted | config.py:224-250 | `get('section.name')` is the setting at [section, name] |
| Config.BridgeConfig.Validate | config.py:214-252 | the warnings are the five checks' warnings in order |
| Config.BridgeConfig.CheckPorts | config.py:224-225 | the ports check |
| Config.BridgeConfig.CheckMqtt | config.py:228-230 | the broker check, only when MQTT is enabled |
| Config.BridgeConfig.CheckDatabase | config.py:233-238 | the database-directory check, only when the database is enabled with a truthy path |
| Config.BridgeConfig.CheckWeb | config.py:241-244 | the web port range check, only when the web interface is enabled |
| Config.BridgeConfig.CheckMetrics | config.py:247-250 | the metrics port range check, only when metrics are enabled |
| Metrics.Bumped | metrics.py:48-64 | a known radio's counter rises by count, every other counter is unchanged, and an unknown radio changes nothing; the key set is fixed |
| Metrics.NodeBumped | metrics.py:109-114 | an absent node starts at 0; the node's count rises by count and other nodes are unchanged |
| Metrics.Recent | metrics.py:99-103 | the window holds at most 1000 samples |
| Metrics.Slide | metrics.py:99-103 | a new sample goes at the end; past 1000 samples only the oldest is dropped |
| Metrics.SlideRecent | metrics.py:99-103 | sliding the window of the history is the window of the extended history |
| Metrics.MaxOf | metrics.py:105 | the running maximum over the recorded durations, from 0; MaxOfBounds states its bounds and RecordProcessingTime keeps the field equal to it |
| Metrics.MinOf | metrics.py:106-107 | the running minimum over the positive durations, from +inf; MinOfBounds states its bounds and RecordProcessingTime keeps the field equal to it |
| Metrics.MaxOfBounds | metrics.py:105 | the running maximum is at least every sample and at least 0, and is 0 or a sample |
| Metrics.MinOfBounds | metrics.py:106-107 | the running minimum is at most every positive sample; it is infinite iff no sample is positive, and otherwise a positive sample |
| Metrics.EscapeLabel | metrics.py:216 | every quote in the escaped id is preceded by a backslash, and an id without quotes is unchanged |
| Metrics.EscapeLabelRoundTrip | metrics.py:216 | escaping only adds backslashes before quotes: undoing it gives the node id back |
| Metrics.ReadLabelValue | metrics.py:217 | how a scraper reads back the text placed between the label's quotes, per the Prometheus text exposition format: `\\`, `\"` and `\n` are escapes, anything else after a backslash, a bare quote or a bare line feed fails |
| Metrics.QuoteOnlyEscapingBreaksOnBackslash | metrics.py:216 | the node id `a\` escapes to itself, and that label value cannot be read back |
| Metrics.EscapeLabelValue | metrics.py:216 | the corrected escaping never emits a bare line feed |
| Metrics.EscapeLabelValueReadBack | metrics.py:216 | with the corrected escaping, every node id is read back unchanged |
| Metrics.MetricsCollector.constructor | metrics.py:20-46 | the per-radio counters hold exactly radio1 and radio2 at 0; totals and gauges are 0; the window is empty; max is 0 and min is +inf |
| Metrics.MetricsCollector.IncrementReceived | metrics.py:48-52 | only a known radio's received counter changes, by count |
| Metrics.MetricsCollector.IncrementSent | metrics.py:54-58 | only a known radio's sent counter changes, by count |
| Metrics.MetricsCollector.IncrementErrors | metrics.py:60-64 | only a known radio's errors counter changes, by count |
| Metrics.MetricsCollector.IncrementForwarded | metrics.py:66-69 | the forwarded total rises by count |
| Metrics.MetricsCollector.IncrementDropped | metrics.py:71-74 | the dropped total rises by count |
| Metrics.MetricsCollector.IncrementFiltered | metrics.py:76-79 | the filtered total rises by count |
| Metrics.MetricsCollector.SetConnectedRadios | metrics.py:81-84 | the gauge is overwritten |
| Metrics.MetricsCollector.SetActiveNodes | metrics.py:86-89 | the gauge is overwritten |
| Metrics.MetricsCollector.SetTrackedMessages | metrics.py:91-94 | the gauge is overwritten |
| Metrics.MetricsCollector.RecordProcessingTime | metrics.py:96-107 | the window is the last 1000 samples and ends with the new one; the maximum never falls and covers the sample; a positive sample bounds the minimum, and a non-positive one leaves it alone |
| Metrics.MetricsCollector.IncrementNodeMessages | metrics.py:109-114 | insert-or-increment of the node's count |
| Text.NatToDecimal | bridge_enhanced.py:149 | a non-empty run of digits, one digit exactly below 10 |
| Text.Lower | message_filter.py:168 | `str.lower` on ASCII: each upper-case letter replaced by its lower-case one |
| Text.IsSubstring | message_filter.py:172 | Python's `in` on strings: the needle occurs at some position of the text |
| Text.DecimalRoundTrip | bridge_enhanced.py:149 | the digits of a formatted number read back as that number |
| Text.DecimalInjective | bridge_enhanced.py:149 | different numbers format differently |
| Text.ParseInt | message_filter.py:237 | Python `int()` on a string: surrounding whitespace, an optional sign, digits with single underscores between them; anything else is the ValueError path (None); ParseFormatRoundTrip proves it reads back every formatted integer |
| Text.ParseFormatRoundTrip | message_filter.py:237 | Python `int()` of a formatted integer gives the integer back |
| Text.UnsignedRoundTrip | message_filter.py:237 | the digits of a natural number parse back to it |
| Text.Split | config.py:165 | `split('.')` yields at least one part, and no part holds a dot |
| Text.JoinSplit | config.py:165 | joining the parts of a split with dots gives the key back |
| Text.Join | config.py:165 | the parts joined with dots, the inverse of split (JoinSplit, SplitJoin) |
| Text.SplitJoin | config.py:184 | splitting dot-free parts joined with dots gives the parts back |

## Left out

- Regular expressions are an abstract `RegexEngine`: whether a pattern compiles, and whether it finds a match. IGNORECASE is folded into the engine's search. Python's `re` is not modelled.
- `str.lower` is ASCII-only. Non-ASCII case mappings are not modelled.
- `int()` in channel rules accepts ASCII whitespace, an optional sign, and digits with single underscores between them. Non-ASCII digits and whitespace are not modelled.
- The tracker lives in bridge.py, which is not part of this model. The model keeps a map from id to entry with the three calls the bridge makes, and no eviction or age limit.
- Threads, the `Lock`, logging, and every I/O path are left out. This covers the serial interfaces, `time.sleep`, the pubsub subscription, the database, MQTT and the web UI.
- The database, MQTT and web-UI calls of `_handle_message` are left out, and so are the paths where they raise:
  - `database.add_message`, `mqtt.publish_message` or `web.broadcast_message` raising (bridge_enhanced.py:289-300) ends the handling after the arrival is counted and before any send; the model always goes on to the forwarding loop.
  - `database.mark_forwarded` raising (bridge_enhanced.py:322-323) is caught by that target's `except` (bridge_enhanced.py:327-334): the target then has both `sent` and `errors` bumped, and with metrics both sent/forwarded and errors/dropped, and the loop continues. In the model each target gets exactly one of the two.
- Bridge.EnhancedBridge.SendMessage: an MQTT publish that raises after a delivered send (bridge_enhanced.py:370-380, caught at 384) makes `send_message` return False. The model returns the send's outcome, because MQTT is left out.
- Send outcomes are a parameter, one boolean per interface. A send that raises is still logged as an attempted call.
- The processing time is a parameter, in milliseconds. The clock is left out.
- `_handle_message` sets a `forwarded` flag that is never read, so the model has none.
- Bridge.EnhancedBridge.Connect: covers only the radio naming, the stats reset and the connected-radios gauge. Auto-detection, opening ports and the settings checks are left out. The handles are a parameter.
- Bridge.EnhancedBridge.Connect: it models `connect` as if `radio_settings` always exists. As written, `radio_settings` is created only when the web UI is enabled (bridge_enhanced.py:103-118), and `web.enabled` is false by default (config.py:74-75). Without the web UI, the first radio's `self.radio_settings[radio_name] = settings` (bridge_enhanced.py:161) raises AttributeError, which the loop re-raises after cleanup (bridge_enhanced.py:169-172). The stats reset at bridge_enhanced.py:182 is then never reached. This reading of the source was not executed.
- Bridge.EnhancedBridge.constructor: the filter and the metrics collector are always allocated, and the flags `hasFilter`/`hasMetrics` stand for "the attribute is None". Turning the configuration's filtering section into a `FilterConfig` is left out.
- Bridge.ExtractMessage: the payload is taken as already-decoded text. UTF-8 decoding with `errors='ignore'` is not modelled.
- Config.BridgeConfig.constructor: the file search, YAML/JSON reading and read errors are left out. The loaded file is an optional tree.
- `DEFAULT_CONFIG.copy()` is shallow, so in Python a later `set` can write into the class-level defaults. The value model cannot express that aliasing.
- Config.BridgeConfig.CheckDatabase: "the directory part of the path is non-empty and does not exist" is a boolean parameter. `os.path.dirname` and the file system are left out.
- Filter.RuleFromConfig: `priority` is an integer. A configured priority that does not compare with integers makes the sort at message_filter.py:88 raise, which aborts the filter's construction. That path is not modelled.
- Filter.RulesFromConfig: an entry whose construction raises is skipped (message_filter.py:84-85). The model treats such an entry as one that is not a mapping (`None`). Field values of other types are taken as the declared types.
- Bridge.EnhancedBridge.SendMessage: the defaults `radio='radio1'` and `channel=0` (bridge_enhanced.py:358) are not modelled; both are explicit parameters.
- Metrics.MetricsCollector.IncrementReceived: the default `count=1` of every `increment_*` method (metrics.py:48-79) is not modelled; `count` is an explicit parameter. The same holds for IncrementSent, IncrementErrors, IncrementForwarded, IncrementDropped, IncrementFiltered and IncrementNodeMessages.
- Config.BridgeConfig.Set: a path through a non-dict intermediate raises TypeError in Python. The model reports this as `false` with the configuration unchanged. No write happens before the failure in either version.
- `save` and `create_example_config` are file output and are left out.
- `export_prometheus` is left out except for the node-label escaping. This covers float formatting, averaging and the text layout. Also left out: `get_uptime_seconds`, `MetricsServer` and `MetricsHandler`.
- Metrics counters are unbounded integers, as in Python. Durations are reals; NaN and negative-zero floats are not modelled.

## Findings

| source | as written | input that shows it | evidently intended | confidence | as-written member | corrected member |
|---|---|---|---|---|---|---|
| metrics.py:216 | the node id is escaped for the Prometheus label by replacing only `"` with `\"` | node id `a\` (ending in a backslash) gives the label value `a\`, whose last backslash escapes the closing quote; a line feed in an id also passes through | escape backslash, double quote and line feed, as the Prometheus text exposition format requires for label values | low, not executed | Metrics.QuoteOnlyEscapingBreaksOnBackslash | Metrics.EscapeLabelValueReadBack |
