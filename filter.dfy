/**
 * The admission filter of the bridge (MessageFilter): a fixed-order
 * decision procedure over a message (sender allow/deny lists, channel
 * allow/deny lists, keyword and regular-expression content checks, then
 * priority-ordered custom rules, allow by default), with cumulative
 * counters and a custom-rule list kept in priority order.
 */
module Filter {
  import opened Wrappers
  import opened Text

  // ----- data -----

  /** A custom rule. Its type and action are free strings, as in the source. */
  datatype FilterRule = FilterRule(
    name: string,
    filterType: string,  // 'keyword', 'regex', 'sender', 'channel'
    pattern: string,
    action: string,      // 'allow', 'block'
    priority: int)

  /** The message record the bridge hands to the filter. */
  datatype Message = Message(id: int, from: string, to: string, text: string, channel: int)

  /**
   * The regular-expression engine, left abstract: whether a pattern
   * compiles, and whether a compiled pattern (with IGNORECASE) finds a
   * match in a text.
   */
  datatype RegexEngine = RegexEngine(compiles: string -> bool, search: (string, string) -> bool)

  /** A custom rule as configured: every field may be absent. */
  datatype RuleConfig = RuleConfig(
    name: Option<string>,
    ruleType: Option<string>,
    pattern: Option<string>,
    action: Option<string>,
    priority: Option<int>)

  /**
   * The 'filtering' section of the configuration; an absent list is empty.
   * A custom-rule entry that is not a mapping (so reading its keys raises)
   * is None.
   */
  datatype FilterConfig = FilterConfig(
    enabled: bool,
    whitelistNodes: seq<string>,
    blacklistNodes: seq<string>,
    keywords: seq<string>,
    regexPatterns: seq<string>,
    allowedChannels: seq<int>,
    blockedChannels: seq<int>,
    customRules: seq<Option<RuleConfig>>)

  /** The six counters of `self.stats`. */
  datatype FilterStats = FilterStats(
    totalChecked: nat,
    totalAllowed: nat,
    totalBlocked: nat,
    blockedBySender: nat,
    blockedByContent: nat,
    blockedByChannel: nat)

  const ZeroStats := FilterStats(0, 0, 0, 0, 0, 0)

  /** Why a message was blocked; CustomRule has no counter of its own. */
  datatype Reason = Sender | Channel | Content | CustomRule

  datatype Verdict = Allow | Block(reason: Reason)

  /** The settings `should_forward` consults, in one value. */
  datatype Policy = Policy(
    whitelist: set<string>,
    blacklist: set<string>,
    allowedChannels: set<int>,
    blockedChannels: set<int>,
    keywords: set<string>,
    regexPatterns: seq<string>,
    customRules: seq<FilterRule>)

  // ----- loading -----

  /** set(xs) */
  function SetOf<T>(xs: seq<T>): set<T> {
    set x | x in xs
  }

  /** A configured rule with the source's defaults filled in. */
  function RuleFromConfig(c: RuleConfig): FilterRule {
    FilterRule(c.name.GetOr("Unnamed"), c.ruleType.GetOr("keyword"), c.pattern.GetOr(""),
               c.action.GetOr("allow"), c.priority.GetOr(0))
  }

  /**
   * The rules built from the configured entries, in order; an entry whose
   * construction raises is skipped (and logged).
   */
  function RulesFromConfig(cs: seq<Option<RuleConfig>>): (rs: seq<FilterRule>)
    ensures |rs| <= |cs|
    ensures (forall i :: 0 <= i < |cs| ==> cs[i].Some?) ==>
      |rs| == |cs| && forall i :: 0 <= i < |cs| ==> rs[i] == RuleFromConfig(cs[i].value)
  {
    if cs == [] then []
    else
      var init, last := RulesFromConfig(cs[..|cs| - 1]), cs[|cs| - 1];
      init + (if last.Some? then [RuleFromConfig(last.value)] else [])
  }

  /** A loaded rule comes from a well-formed entry, and every well-formed entry yields a loaded rule. */
  lemma {:induction false} RulesFromConfigMembers(cs: seq<Option<RuleConfig>>, r: FilterRule)
    ensures r in RulesFromConfig(cs) <==> exists c :: Some(c) in cs && r == RuleFromConfig(c)
  {
    if cs != [] {
      var init, last := cs[..|cs| - 1], cs[|cs| - 1];
      RulesFromConfigMembers(init, r);
      assert cs == init + [last];
      if exists c :: Some(c) in cs && r == RuleFromConfig(c) {
        var c :| Some(c) in cs && r == RuleFromConfig(c);
        if Some(c) != last {
          assert Some(c) in init;
        }
      }
    }
  }

  /** The patterns that compile, in their configured order; the others are dropped. */
  function Compilable(ps: seq<string>, rx: RegexEngine): (r: seq<string>)
    ensures forall i :: 0 <= i < |r| ==> rx.compiles(r[i]) && r[i] in ps
    ensures forall p :: p in ps && rx.compiles(p) ==> p in r
  {
    if ps == [] then []
    else Compilable(ps[..|ps| - 1], rx) + (if rx.compiles(ps[|ps| - 1]) then [ps[|ps| - 1]] else [])
  }

  /** The policy __init__ builds from its configuration: sets of the lists, the compiling patterns, the rules by priority. */
  function Configured(config: FilterConfig, rx: RegexEngine): Policy {
    Policy(SetOf(config.whitelistNodes), SetOf(config.blacklistNodes),
           SetOf(config.allowedChannels), SetOf(config.blockedChannels),
           SetOf(config.keywords), Compilable(config.regexPatterns, rx),
           SortByPriority(RulesFromConfig(config.customRules)))
  }

  // ----- priority order -----

  /** Non-increasing priority, as sort(key=priority, reverse=True) leaves the list. */
  predicate SortedByPriority(rules: seq<FilterRule>) {
    forall i, j :: 0 <= i < j < |rules| ==> rules[i].priority >= rules[j].priority
  }

  /** Where a stable descending sort puts `x` among already sorted rules: after every rule of equal or higher priority. */
  function InsertPosition(rules: seq<FilterRule>, x: FilterRule): (i: nat)
    ensures i <= |rules|
    ensures forall j :: 0 <= j < i ==> rules[j].priority >= x.priority
    ensures i < |rules| ==> rules[i].priority < x.priority
  {
    if rules == [] then 0
    else if rules[0].priority < x.priority then 0
    else 1 + InsertPosition(rules[1..], x)
  }

  function Insert(rules: seq<FilterRule>, x: FilterRule): seq<FilterRule> {
    var i := InsertPosition(rules, x);
    rules[..i] + [x] + rules[i..]
  }

  lemma InsertSorted(rules: seq<FilterRule>, x: FilterRule)
    requires SortedByPriority(rules)
    ensures SortedByPriority(Insert(rules, x))
    ensures multiset(Insert(rules, x)) == multiset(rules) + multiset{x}
  {
    var i := InsertPosition(rules, x);
    var r := Insert(rules, x);
    assert rules == rules[..i] + rules[i..];
    forall a, b | 0 <= a < b < |r| ensures r[a].priority >= r[b].priority {
      if a < i && b == i {
      } else if a == i && b > i {
        assert r[b] == rules[b - 1];
        assert rules[i].priority < x.priority;
      }
    }
  }

  /** list.sort(key=lambda r: r.priority, reverse=True): a stable sort, highest priority first. */
  function SortByPriority(rules: seq<FilterRule>): (r: seq<FilterRule>)
    ensures SortedByPriority(r)
    ensures multiset(r) == multiset(rules)
  {
    if rules == [] then []
    else
      var init, last := rules[..|rules| - 1], rules[|rules| - 1];
      var sorted := SortByPriority(init);
      InsertSorted(sorted, last);
      assert multiset(rules) == multiset(init) + multiset{last} by {
        assert rules == init + [last];
      }
      Insert(sorted, last)
  }

  /** The rules of priority p, in list order. */
  function WithPriority(rules: seq<FilterRule>, p: int): seq<FilterRule> {
    if rules == [] then []
    else (if rules[0].priority == p then [rules[0]] else []) + WithPriority(rules[1..], p)
  }

  lemma {:induction false} WithPriorityAppend(a: seq<FilterRule>, b: seq<FilterRule>, p: int)
    ensures WithPriority(a + b, p) == WithPriority(a, p) + WithPriority(b, p)
  {
    if a == [] {
      assert a + b == b;
    } else {
      var head := if a[0].priority == p then [a[0]] else [];
      assert (a + b)[0] == a[0];
      assert (a + b)[1..] == a[1..] + b;
      calc {
        WithPriority(a + b, p);
        head + WithPriority(a[1..] + b, p);
        { WithPriorityAppend(a[1..], b, p); }
        head + (WithPriority(a[1..], p) + WithPriority(b, p));
        (head + WithPriority(a[1..], p)) + WithPriority(b, p);
        WithPriority(a, p) + WithPriority(b, p);
      }
    }
  }

  lemma {:induction false} WithPriorityNone(a: seq<FilterRule>, p: int)
    requires forall j :: 0 <= j < |a| ==> a[j].priority < p
    ensures WithPriority(a, p) == []
  {
    if a != [] {
      WithPriorityNone(a[1..], p);
    }
  }

  lemma InsertStable(rules: seq<FilterRule>, x: FilterRule, p: int)
    requires SortedByPriority(rules)
    ensures WithPriority(Insert(rules, x), p)
         == WithPriority(rules, p) + (if x.priority == p then [x] else [])
  {
    var i := InsertPosition(rules, x);
    var lo, hi := rules[..i], rules[i..];
    assert rules == lo + hi;
    WithPriorityAppend(lo, hi, p);
    WithPriorityAppend(lo + [x], hi, p);
    WithPriorityAppend(lo, [x], p);
    if x.priority == p {
      WithPriorityNone(hi, p);
    }
  }

  /** Stability: for every priority, the rules of that priority keep their relative order. */
  lemma {:induction false} SortStable(rules: seq<FilterRule>, p: int)
    ensures WithPriority(SortByPriority(rules), p) == WithPriority(rules, p)
  {
    if rules != [] {
      var init, last := rules[..|rules| - 1], rules[|rules| - 1];
      assert rules == init + [last];
      SortStable(init, p);
      InsertStable(SortByPriority(init), last, p);
      WithPriorityAppend(init, [last], p);
    }
  }

  /** Sorting a list that is already in order changes nothing. */
  lemma {:induction false} SortOfSorted(rules: seq<FilterRule>)
    requires SortedByPriority(rules)
    ensures SortByPriority(rules) == rules
  {
    if rules != [] {
      var init, last := rules[..|rules| - 1], rules[|rules| - 1];
      SortOfSorted(init);
      InsertAtEnd(init, last);
      assert init + [last] == rules;
    }
  }

  lemma InsertAtEnd(rules: seq<FilterRule>, x: FilterRule)
    requires forall j :: 0 <= j < |rules| ==> rules[j].priority >= x.priority
    ensures Insert(rules, x) == rules + [x]
  {
    InsertPositionAtEnd(rules, x);
    assert rules[..|rules|] == rules;
  }

  lemma {:induction false} InsertPositionAtEnd(rules: seq<FilterRule>, x: FilterRule)
    requires forall j :: 0 <= j < |rules| ==> rules[j].priority >= x.priority
    ensures InsertPosition(rules, x) == |rules|
  {
    if rules != [] {
      InsertPositionAtEnd(rules[1..], x);
    }
  }

  /** add_rule: appending to a sorted list and re-sorting places the new rule after every rule of equal or higher priority. */
  lemma AddRulePlacement(rules: seq<FilterRule>, x: FilterRule)
    requires SortedByPriority(rules)
    ensures SortByPriority(rules + [x]) == Insert(rules, x)
  {
    assert (rules + [x])[..|rules|] == rules;
    SortOfSorted(rules);
  }

  // ----- removal by name -----

  /** Index of the first rule called `name`, or |rules| when there is none. */
  function FirstNamed(rules: seq<FilterRule>, name: string): (i: nat)
    ensures i <= |rules|
    ensures i < |rules| ==> rules[i].name == name
    ensures forall j :: 0 <= j < i ==> rules[j].name != name
  {
    if rules == [] then 0 else if rules[0].name == name then 0 else 1 + FirstNamed(rules[1..], name)
  }

  /** The list without its first rule called `name` (unchanged when there is none). */
  function RemoveFirstNamed(rules: seq<FilterRule>, name: string): seq<FilterRule> {
    var i := FirstNamed(rules, name);
    if i == |rules| then rules else rules[..i] + rules[i + 1..]
  }

  /** Dropping one position from a priority-sorted list keeps it sorted. */
  lemma DropKeepsOrder(rules: seq<FilterRule>, i: nat)
    requires SortedByPriority(rules) && i < |rules|
    ensures SortedByPriority(rules[..i] + rules[i + 1..])
  {
    var r := rules[..i] + rules[i + 1..];
    forall a, b | 0 <= a < b < |r| ensures r[a].priority >= r[b].priority {
      var a', b' := if a < i then a else a + 1, if b < i then b else b + 1;
      assert r[a] == rules[a'] && r[b] == rules[b'];
    }
  }

  lemma RemoveKeepsOrder(rules: seq<FilterRule>, name: string)
    requires SortedByPriority(rules)
    ensures SortedByPriority(RemoveFirstNamed(rules, name))
    ensures var i := FirstNamed(rules, name);
            i < |rules| ==> multiset(RemoveFirstNamed(rules, name)) + multiset{rules[i]} == multiset(rules)
  {
    var i := FirstNamed(rules, name);
    if i < |rules| {
      var before, x, after := rules[..i], rules[i], rules[i + 1..];
      DropKeepsOrder(rules, i);
      assert multiset(rules) == multiset(before) + multiset{x} + multiset(after) by {
        assert rules == before + [x] + after;
      }
    }
  }

  // ----- the decision -----

  const KnownRuleTypes: set<string> := {"keyword", "regex", "sender", "channel"}

  /**
   * _evaluate_rule: keyword is a case-insensitive substring of the text,
   * regex a search that never matches when the pattern does not compile,
   * sender a case-sensitive substring of `from`, channel an integer
   * equality when the pattern parses as an integer.
   */
  function EvaluateRule(rule: FilterRule, m: Message, rx: RegexEngine): (r: bool)
    ensures rule.filterType !in KnownRuleTypes ==> !r
    ensures rule.filterType == "regex" && !rx.compiles(rule.pattern) ==> !r
  {
    if rule.filterType == "keyword" then IsSubstring(Lower(rule.pattern), Lower(m.text))
    else if rule.filterType == "regex" then rx.compiles(rule.pattern) && rx.search(rule.pattern, m.text)
    else if rule.filterType == "sender" then IsSubstring(rule.pattern, m.from)
    else if rule.filterType == "channel" then ParseInt(rule.pattern) == Some(m.channel)
    else false
  }

  /** A channel rule whose pattern is the decimal form of n matches exactly the messages on channel n. */
  lemma ChannelRuleMatchesItsNumber(rule: FilterRule, n: int, m: Message, rx: RegexEngine)
    requires rule.filterType == "channel" && rule.pattern == FormatInt(n)
    ensures EvaluateRule(rule, m, rx) <==> m.channel == n
  {
    ParseFormatRoundTrip(n);
  }

  /** Sender rules compare case-sensitively: "ABC" does not match a sender "abc". */
  lemma SenderRuleIsCaseSensitive(rule: FilterRule, m: Message, rx: RegexEngine)
    requires rule.filterType == "sender" && rule.pattern == "ABC" && m.from == "abc"
    ensures !EvaluateRule(rule, m, rx)
  {
    assert !OccursAt("ABC", "abc", 0) by {
      assert "abc"[0..3][0] == 'a';
    }
  }

  /** A rule that matches and whose action is 'block' or 'allow'. */
  predicate Decisive(rule: FilterRule, m: Message, rx: RegexEngine) {
    EvaluateRule(rule, m, rx) && (rule.action == "block" || rule.action == "allow")
  }

  /** _check_custom_rules: the first decisive rule decides; none means allow. */
  function RulesAllow(rules: seq<FilterRule>, m: Message, rx: RegexEngine): bool {
    if rules == [] then true
    else if Decisive(rules[0], m, rx) then rules[0].action == "allow"
    else RulesAllow(rules[1..], m, rx)
  }

  /** The custom rules block iff some decisive rule says 'block' and no decisive rule comes before it. */
  lemma {:induction false} RulesBlockIffFirstDecisiveBlocks(rules: seq<FilterRule>, m: Message, rx: RegexEngine)
    ensures !RulesAllow(rules, m, rx) <==>
      exists i :: 0 <= i < |rules| && Decisive(rules[i], m, rx) && rules[i].action == "block" &&
        forall j :: 0 <= j < i ==> !Decisive(rules[j], m, rx)
  {
    if rules != [] {
      RulesBlockIffFirstDecisiveBlocks(rules[1..], m, rx);
      if !Decisive(rules[0], m, rx) {
        if !RulesAllow(rules, m, rx) {
          var k :| 0 <= k < |rules| - 1 && Decisive(rules[1..][k], m, rx) && rules[1..][k].action == "block" &&
            forall j :: 0 <= j < k ==> !Decisive(rules[1..][j], m, rx);
          assert forall j :: 0 <= j < k + 1 ==> !Decisive(rules[j], m, rx) by {
            forall j | 0 <= j < k + 1 ensures !Decisive(rules[j], m, rx) {
              if j > 0 { assert rules[j] == rules[1..][j - 1]; }
            }
          }
        }
        if exists i :: 0 <= i < |rules| && Decisive(rules[i], m, rx) && rules[i].action == "block" &&
             forall j :: 0 <= j < i ==> !Decisive(rules[j], m, rx) {
          var i :| 0 <= i < |rules| && Decisive(rules[i], m, rx) && rules[i].action == "block" &&
            forall j :: 0 <= j < i ==> !Decisive(rules[j], m, rx);
          assert i > 0;
          assert forall j :: 0 <= j < i - 1 ==> !Decisive(rules[1..][j], m, rx) by {
            forall j | 0 <= j < i - 1 ensures !Decisive(rules[1..][j], m, rx) {
              assert rules[1..][j] == rules[j + 1];
            }
          }
          assert rules[1..][i - 1] == rules[i];
        }
      }
    }
  }

  /** _check_content: empty text passes; otherwise no keyword (case-insensitively) and no pattern may match. */
  predicate ContentAllowed(text: string, keywords: set<string>, patterns: seq<string>, rx: RegexEngine) {
    || text == []
    || (&& (forall k :: k in keywords ==> !IsSubstring(Lower(k), Lower(text)))
        && (forall i :: 0 <= i < |patterns| ==> !rx.search(patterns[i], text)))
  }

  predicate SenderOk(p: Policy, m: Message) {
    (p.whitelist == {} || m.from in p.whitelist) && m.from !in p.blacklist
  }

  predicate ChannelOk(p: Policy, m: Message) {
    (p.allowedChannels == {} || m.channel in p.allowedChannels) && m.channel !in p.blockedChannels
  }

  /** should_forward's decision for an enabled filter, in the source's order of checks. */
  function Judge(p: Policy, rx: RegexEngine, m: Message): Verdict {
    if p.whitelist != {} && m.from !in p.whitelist then Block(Sender)
    else if m.from in p.blacklist then Block(Sender)
    else if p.allowedChannels != {} && m.channel !in p.allowedChannels then Block(Channel)
    else if m.channel in p.blockedChannels then Block(Channel)
    else if !ContentAllowed(m.text, p.keywords, p.regexPatterns, rx) then Block(Content)
    else if !RulesAllow(p.customRules, m, rx) then Block(CustomRule)
    else Allow
  }

  /**
   * The verdict is the first failing stage: sender lists, then channel
   * lists, then content, then custom rules; a message is allowed iff every
   * stage passes, and a later stage never overrides an earlier one.
   */
  lemma JudgeIsFirstFailingStage(p: Policy, rx: RegexEngine, m: Message)
    ensures Judge(p, rx, m) == Allow <==>
      SenderOk(p, m) && ChannelOk(p, m) && ContentAllowed(m.text, p.keywords, p.regexPatterns, rx) &&
      RulesAllow(p.customRules, m, rx)
    ensures Judge(p, rx, m) == Block(Sender) <==> !SenderOk(p, m)
    ensures Judge(p, rx, m) == Block(Channel) <==> SenderOk(p, m) && !ChannelOk(p, m)
    ensures Judge(p, rx, m) == Block(Content) <==>
      SenderOk(p, m) && ChannelOk(p, m) && !ContentAllowed(m.text, p.keywords, p.regexPatterns, rx)
    ensures Judge(p, rx, m) == Block(CustomRule) <==>
      SenderOk(p, m) && ChannelOk(p, m) && ContentAllowed(m.text, p.keywords, p.regexPatterns, rx) &&
      !RulesAllow(p.customRules, m, rx)
  {
  }

  /**
   * A high-priority allow rule beats a low-priority block rule, whichever
   * order they were configured in: a message from "bad123456" that says
   * "EMERGENCY" is admitted.
   */
  lemma EmergencyOverridesSenderRule(allowRule: FilterRule, blockRule: FilterRule, configured: seq<FilterRule>,
                                     rx: RegexEngine, m: Message)
    requires allowRule == FilterRule("Emergency Priority", "keyword", "EMERGENCY", "allow", 100)
    requires blockRule == FilterRule("Bad sender", "sender", "bad123456", "block", 0)
    requires configured == [allowRule, blockRule] || configured == [blockRule, allowRule]
    requires m.from == "bad123456" && m.text == "EMERGENCY: Need help!"
    ensures Judge(Policy({}, {}, {}, {}, {}, [], SortByPriority(configured)), rx, m) == Allow
  {
    var p := Policy({}, {}, {}, {}, {}, [], SortByPriority(configured));
    SortTwo(allowRule, blockRule, configured);
    EmergencyKeywordMatches(allowRule, m, rx);
    assert RulesAllow(p.customRules, m, rx) by {
      assert p.customRules == [allowRule, blockRule];
    }
    assert ContentAllowed(m.text, p.keywords, p.regexPatterns, rx);
    JudgeIsFirstFailingStage(p, rx, m);
  }

  lemma SortTwo(hi: FilterRule, lo: FilterRule, configured: seq<FilterRule>)
    requires hi.priority > lo.priority
    requires configured == [hi, lo] || configured == [lo, hi]
    ensures SortByPriority(configured) == [hi, lo]
  {
    var x, y := configured[0], configured[1];
    assert configured == [x, y];
    SortPair(x, y);
    if x == hi {
      InsertBelow(x, y);
    } else {
      InsertAbove(x, y);
    }
  }

  lemma InsertBelow(x: FilterRule, y: FilterRule)
    requires x.priority >= y.priority
    ensures Insert([x], y) == [x, y]
  {
    assert InsertPosition([x], y) == 1 + InsertPosition([], y);
  }

  lemma InsertAbove(x: FilterRule, y: FilterRule)
    requires x.priority < y.priority
    ensures Insert([x], y) == [y, x]
  {
    assert InsertPosition([x], y) == 0;
  }

  lemma SortPair(x: FilterRule, y: FilterRule)
    ensures SortByPriority([x, y]) == Insert([x], y)
  {
    assert [x, y][..1] == [x];
    assert [x][..0] == [];
    assert SortByPriority([x]) == Insert([], x) == [x];
  }

  lemma EmergencyKeywordMatches(rule: FilterRule, m: Message, rx: RegexEngine)
    requires rule.filterType == "keyword" && rule.pattern == "EMERGENCY"
    requires m.text == "EMERGENCY: Need help!"
    ensures EvaluateRule(rule, m, rx)
  {
    var lowered := Lower(m.text);
    var key := Lower(rule.pattern);
    assert |key| == 9 && |lowered| == |m.text|;
    assert forall i :: 0 <= i < 9 ==> lowered[i] == key[i];
    assert lowered[0..9] == key;
    assert OccursAt(key, lowered, 0);
  }

  // ----- counters -----

  /** How one checked message moves the counters (a custom-rule block bumps no reason counter). */
  function Tally(s: FilterStats, v: Verdict): FilterStats {
    var s := s.(totalChecked := s.totalChecked + 1);
    match v
    case Allow => s.(totalAllowed := s.totalAllowed + 1)
    case Block(Sender) => s.(totalBlocked := s.totalBlocked + 1, blockedBySender := s.blockedBySender + 1)
    case Block(Channel) => s.(totalBlocked := s.totalBlocked + 1, blockedByChannel := s.blockedByChannel + 1)
    case Block(Content) => s.(totalBlocked := s.totalBlocked + 1, blockedByContent := s.blockedByContent + 1)
    case Block(CustomRule) => s.(totalBlocked := s.totalBlocked + 1)
  }

  /** Every checked message is allowed or blocked; the reason counters never exceed the blocks. */
  predicate Consistent(s: FilterStats) {
    && s.totalChecked == s.totalAllowed + s.totalBlocked
    && s.blockedBySender + s.blockedByContent + s.blockedByChannel <= s.totalBlocked
  }

  lemma TallyKeepsConsistent(s: FilterStats, v: Verdict)
    requires Consistent(s)
    ensures Consistent(Tally(s, v))
  {
  }

  /** The counters after checking `vs` in order. */
  function TallyAll(s: FilterStats, vs: seq<Verdict>): FilterStats {
    if vs == [] then s else Tally(TallyAll(s, vs[..|vs| - 1]), vs[|vs| - 1])
  }

  /** How many of `vs` equal `v`. */
  function Count(vs: seq<Verdict>, v: Verdict): nat {
    if vs == [] then 0 else Count(vs[..|vs| - 1], v) + (if vs[|vs| - 1] == v then 1 else 0)
  }

  /**
   * From zero (construction or reset_stats), each counter counts its kind of
   * verdict, and total_blocked exceeds the three reason counters by exactly
   * the custom-rule blocks.
   */
  lemma {:induction false} TallyFromZero(vs: seq<Verdict>)
    ensures var s := TallyAll(ZeroStats, vs);
      && s.totalChecked == |vs|
      && s.totalAllowed == Count(vs, Allow)
      && s.blockedBySender == Count(vs, Block(Sender))
      && s.blockedByChannel == Count(vs, Block(Channel))
      && s.blockedByContent == Count(vs, Block(Content))
      && s.totalBlocked == s.blockedBySender + s.blockedByChannel + s.blockedByContent + Count(vs, Block(CustomRule))
      && Consistent(s)
  {
    if vs != [] {
      var init, v := vs[..|vs| - 1], vs[|vs| - 1];
      TallyFromZero(init);
      assert TallyAll(ZeroStats, vs) == Tally(TallyAll(ZeroStats, init), v);
      assert Count(vs, Allow) == Count(init, Allow) + (if v == Allow then 1 else 0);
      assert Count(vs, Block(Sender)) == Count(init, Block(Sender)) + (if v == Block(Sender) then 1 else 0);
      assert Count(vs, Block(Channel)) == Count(init, Block(Channel)) + (if v == Block(Channel) then 1 else 0);
      assert Count(vs, Block(Content)) == Count(init, Block(Content)) + (if v == Block(Content) then 1 else 0);
      assert Count(vs, Block(CustomRule)) == Count(init, Block(CustomRule)) + (if v == Block(CustomRule) then 1 else 0);
    }
  }

  // ----- the filter object -----

  class MessageFilter {
    const enabled: bool
    var whitelistNodes: set<string>
    var blacklistNodes: set<string>
    const keywords: set<string>
    const regexPatterns: seq<string>
    const allowedChannels: set<int>
    const blockedChannels: set<int>
    var customRules: seq<FilterRule>
    var stats: FilterStats
    const regex: RegexEngine

    /** The custom rules stay in priority order and the counters stay consistent. */
    ghost predicate Valid()
      reads this
    {
      SortedByPriority(customRules) && Consistent(stats)
    }

    function CurrentPolicy(): Policy
      reads this
    {
      Policy(whitelistNodes, blacklistNodes, allowedChannels, blockedChannels, keywords, regexPatterns, customRules)
    }

    /** What should_forward answers for m in the current state. */
    predicate Admits(m: Message)
      reads this
    {
      !enabled || Judge(CurrentPolicy(), regex, m) == Allow
    }

    constructor (config: FilterConfig, rx: RegexEngine)
      ensures enabled == config.enabled && regex == rx && stats == ZeroStats
      ensures CurrentPolicy() == Configured(config, rx)
      ensures Valid()
    {
      var p := Configure(config, rx);
      enabled := config.enabled;
      whitelistNodes := p.whitelist;
      blacklistNodes := p.blacklist;
      keywords := p.keywords;
      regexPatterns := p.regexPatterns;
      allowedChannels := p.allowedChannels;
      blockedChannels := p.blockedChannels;
      regex := rx;
      customRules := p.customRules;
      stats := ZeroStats;
    }

    /** The settings __init__ derives from its configuration, the rules already loaded and sorted. */
    static method Configure(config: FilterConfig, rx: RegexEngine) returns (p: Policy)
      ensures p == Configured(config, rx)
    {
      var compiled := CompilePatterns(config.regexPatterns, rx);
      var rules := LoadCustomRules([], config.customRules);
      assert [] + RulesFromConfig(config.customRules) == RulesFromConfig(config.customRules);
      p := Policy(SetOf(config.whitelistNodes), SetOf(config.blacklistNodes),
                  SetOf(config.allowedChannels), SetOf(config.blockedChannels),
                  SetOf(config.keywords), compiled, rules);
    }

    /** The pattern-compiling loop of __init__: keep each pattern that compiles, skip (and log) the others. */
    static method CompilePatterns(patterns: seq<string>, rx: RegexEngine) returns (compiled: seq<string>)
      ensures compiled == Compilable(patterns, rx)
    {
      compiled := [];
      for i := 0 to |patterns|
        invariant compiled == Compilable(patterns[..i], rx)
      {
        assert patterns[..i + 1][..i] == patterns[..i];
        if rx.compiles(patterns[i]) {
          compiled := compiled + [patterns[i]];
        }
      }
      assert patterns[..|patterns|] == patterns;
    }

    /**
     * _load_custom_rules: append every configured rule to the rules held so
     * far (none, during __init__), skipping an entry that raises, then sort
     * by priority.
     */
    static method LoadCustomRules(existing: seq<FilterRule>, rulesConfig: seq<Option<RuleConfig>>) returns (rules: seq<FilterRule>)
      ensures rules == SortByPriority(existing + RulesFromConfig(rulesConfig))
    {
      rules := existing;
      for i := 0 to |rulesConfig|
        invariant rules == existing + RulesFromConfig(rulesConfig[..i])
      {
        assert rulesConfig[..i + 1][..i] == rulesConfig[..i];
        if rulesConfig[i].Some? {
          rules := rules + [RuleFromConfig(rulesConfig[i].value)];
        }
      }
      assert rulesConfig[..|rulesConfig|] == rulesConfig;
      rules := SortByPriority(rules);
    }

    /** should_forward: the verdict, with the counters moved as the verdict says. */
    method ShouldForward(m: Message) returns (r: bool)
      requires Valid()
      modifies this`stats
      ensures Valid()
      ensures r == Admits(m)
      ensures stats == if enabled then Tally(old(stats), Judge(CurrentPolicy(), regex, m)) else old(stats)
    {
      if !enabled {
        return true;
      }
      stats := stats.(totalChecked := stats.totalChecked + 1);
      var fromNode, text, channel := m.from, m.text, m.channel;
      if whitelistNodes != {} {
        if fromNode !in whitelistNodes {
          stats := stats.(totalBlocked := stats.totalBlocked + 1, blockedBySender := stats.blockedBySender + 1);
          return false;
        }
      }
      if fromNode in blacklistNodes {
        stats := stats.(totalBlocked := stats.totalBlocked + 1, blockedBySender := stats.blockedBySender + 1);
        return false;
      }
      if allowedChannels != {} {
        if channel !in allowedChannels {
          stats := stats.(totalBlocked := stats.totalBlocked + 1, blockedByChannel := stats.blockedByChannel + 1);
          return false;
        }
      }
      if channel in blockedChannels {
        stats := stats.(totalBlocked := stats.totalBlocked + 1, blockedByChannel := stats.blockedByChannel + 1);
        return false;
      }
      var contentOk := CheckContent(text);
      if !contentOk {
        stats := stats.(totalBlocked := stats.totalBlocked + 1, blockedByContent := stats.blockedByContent + 1);
        return false;
      }
      var rulesOk := CheckCustomRules(m);
      if !rulesOk {
        stats := stats.(totalBlocked := stats.totalBlocked + 1);
        return false;
      }
      stats := stats.(totalAllowed := stats.totalAllowed + 1);
      return true;
    }

    /** _check_content: keywords first (any order), then the compiled patterns in order. */
    method CheckContent(text: string) returns (r: bool)
      ensures r == ContentAllowed(text, keywords, regexPatterns, regex)
    {
      if text == [] {
        return true;
      }
      var textLower := Lower(text);
      var remaining := keywords;
      while remaining != {}
        invariant remaining <= keywords
        invariant forall k :: k in keywords - remaining ==> !IsSubstring(Lower(k), textLower)
        decreases remaining
      {
        var keyword :| keyword in remaining;
        if IsSubstring(Lower(keyword), textLower) {
          return false;
        }
        remaining := remaining - {keyword};
      }
      for i := 0 to |regexPatterns|
        invariant forall j :: 0 <= j < i ==> !regex.search(regexPatterns[j], text)
      {
        if regex.search(regexPatterns[i], text) {
          return false;
        }
      }
      return true;
    }

    /** _check_custom_rules: walk the rules in list order until one is decisive. */
    method CheckCustomRules(m: Message) returns (r: bool)
      ensures r == RulesAllow(customRules, m, regex)
    {
      for i := 0 to |customRules|
        invariant RulesAllow(customRules, m, regex) == RulesAllow(customRules[i..], m, regex)
      {
        assert customRules[i..][1..] == customRules[i + 1..];
        var rule := customRules[i];
        if EvaluateRule(rule, m, regex) {
          if rule.action == "block" {
            return false;
          } else if rule.action == "allow" {
            return true;
          }
        }
      }
      return true;
    }

    /** add_rule: append, then re-sort; the rule lands after every rule of equal or higher priority. */
    method AddRule(rule: FilterRule)
      requires Valid()
      modifies this`customRules
      ensures Valid()
      ensures customRules == SortByPriority(old(customRules) + [rule])
      ensures customRules == Insert(old(customRules), rule)
    {
      AddRulePlacement(customRules, rule);
      customRules := customRules + [rule];
      customRules := SortByPriority(customRules);
    }

    /** remove_rule: drop the first rule called `name`; report whether there was one. */
    method RemoveRule(name: string) returns (removed: bool)
      requires Valid()
      modifies this`customRules
      ensures Valid()
      ensures removed <==> exists i :: 0 <= i < |old(customRules)| && old(customRules)[i].name == name
      ensures customRules == RemoveFirstNamed(old(customRules), name)
    {
      RemoveKeepsOrder(customRules, name);
      for i := 0 to |customRules|
        invariant forall j :: 0 <= j < i ==> customRules[j].name != name
      {
        if customRules[i].name == name {
          assert FirstNamed(customRules, name) == i;
          customRules := customRules[..i] + customRules[i + 1..];
          return true;
        }
      }
      assert FirstNamed(customRules, name) == |customRules|;
      return false;
    }

    method AddWhitelistNode(node: string)
      modifies this`whitelistNodes
      ensures whitelistNodes == old(whitelistNodes) + {node}
    {
      whitelistNodes := whitelistNodes + {node};
    }

    method AddBlacklistNode(node: string)
      modifies this`blacklistNodes
      ensures blacklistNodes == old(blacklistNodes) + {node}
    {
      blacklistNodes := blacklistNodes + {node};
    }

    /** set.discard: removing an absent node is no error. */
    method RemoveWhitelistNode(node: string)
      modifies this`whitelistNodes
      ensures whitelistNodes == old(whitelistNodes) - {node}
    {
      whitelistNodes := whitelistNodes - {node};
    }

    method RemoveBlacklistNode(node: string)
      modifies this`blacklistNodes
      ensures blacklistNodes == old(blacklistNodes) - {node}
    {
      blacklistNodes := blacklistNodes - {node};
    }

    /** get_stats: a copy of the counters, which always satisfy the counter invariant. */
    function GetStats(): (s: FilterStats)
      requires Valid()
      reads this
      ensures Consistent(s)
      ensures s == stats
    {
      stats
    }

    method ResetStats()
      modifies this`stats
      ensures stats == ZeroStats
      ensures Valid() <==> SortedByPriority(customRules)
    {
      stats := ZeroStats;
    }
  }
}
