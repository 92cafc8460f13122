/**
 * The relay path of the enhanced bridge (EnhancedMeshtasticBridge): which
 * radio a packet came in on, the text-message check, de-duplication, the
 * filter, and the fan-out of an admitted message to every other radio with
 * per-radio statistics.
 */
module Bridge {
  import opened Wrappers
  import opened Text
  import Filter
  import Metrics
  import Tracker

  /** The port number of a Meshtastic text message. */
  const TextMessageApp: string := "TEXT_MESSAGE_APP"

  /** The decoded part of a received packet; its payload is taken as already-decoded text. */
  datatype Decoded = Decoded(portnum: Option<string>, text: string)

  /** A received packet: every key may be missing. */
  datatype Packet = Packet(
    id: Option<int>,
    fromId: Option<string>,
    toId: Option<string>,
    channel: Option<int>,
    decoded: Option<Decoded>)

  /** Per-radio counters of the bridge's own stats dictionary. */
  datatype RadioStats = RadioStats(received: nat, sent: nat, errors: nat)

  const ZeroRadioStats := RadioStats(0, 0, 0)

  /** One call of sendText: the interface, the text and the channel index. */
  datatype Send = Send(iface: nat, text: string, channel: int)

  // ----- radio naming -----

  /** The name connect gives the radio at index i. */
  function RadioName(i: nat): string {
    "radio" + NatToDecimal(i + 1)
  }

  /** The names of the first n radios, in connection order. */
  function RadioNames(n: nat): (names: seq<string>)
    ensures |names| == n
    ensures forall i :: 0 <= i < n ==> names[i] == RadioName(i)
  {
    seq(n, i requires 0 <= i => RadioName(i))
  }

  /** Different indices get different names. */
  lemma RadioNameInjective(i: nat, j: nat)
    requires RadioName(i) == RadioName(j)
    ensures i == j
  {
    var a, b := NatToDecimal(i + 1), NatToDecimal(j + 1);
    assert a == RadioName(i)[5..] && b == RadioName(j)[5..];
    DecimalInjective(i + 1, j + 1);
  }

  /** No name repeats in a list. */
  predicate Distinct(names: seq<string>) {
    forall i, j :: 0 <= i < j < |names| ==> names[i] != names[j]
  }

  /** One connect names its radios without repetition. */
  lemma RadioNamesDistinct(n: nat)
    ensures Distinct(RadioNames(n))
  {
    forall i, j | 0 <= i < j < n ensures RadioNames(n)[i] != RadioNames(n)[j] {
      if RadioName(i) == RadioName(j) {
        RadioNameInjective(i, j);
      }
    }
  }

  /** The metrics collector counts traffic only for the first two radios. */
  lemma MetricsKnowFirstTwoRadios(i: nat)
    ensures RadioName(i) in Metrics.Radios <==> i < 2
  {
    assert NatToDecimal(1) == "1" && NatToDecimal(2) == "2";
    assert RadioName(0) == "radio1" && RadioName(1) == "radio2";
    if RadioName(i) == "radio1" {
      RadioNameInjective(i, 0);
    } else if RadioName(i) == "radio2" {
      RadioNameInjective(i, 1);
    }
  }

  // ----- message extraction -----

  /**
   * The message fields _handle_message extracts: None unless the packet is
   * a decoded text message; missing keys take their defaults.
   */
  function ExtractMessage(p: Packet): (r: Option<Filter.Message>)
    ensures r.Some? <==> p.decoded.Some? && p.decoded.value.portnum == Some(TextMessageApp)
    ensures r.Some? ==> r.value.text == p.decoded.value.text
    ensures r.Some? ==>
      && r.value.id == p.id.GetOr(0)
      && r.value.from == p.fromId.GetOr("unknown")
      && r.value.to == p.toId.GetOr("unknown")
      && r.value.channel == p.channel.GetOr(0)
  {
    match p.decoded
    case None => None
    case Some(d) =>
      if d.portnum != Some(TextMessageApp) then None
      else Some(Filter.Message(
        p.id.GetOr(0), p.fromId.GetOr("unknown"), p.toId.GetOr("unknown"), d.text, p.channel.GetOr(0)))
  }

  // ----- fan-out -----

  /** The interface indices below n other than the source, ascending. */
  function Targets(n: nat, source: nat): (ts: seq<nat>)
    ensures source < n ==> |ts| == n - 1
    ensures source >= n ==> |ts| == n
  {
    if n == 0 then []
    else Targets(n - 1, source) + (if n - 1 == source then [] else [n - 1])
  }

  /** The targets are exactly the radios below n other than the source. */
  lemma {:induction false} TargetsMembers(n: nat, source: nat)
    ensures forall i: nat :: i in Targets(n, source) <==> i < n && i != source
  {
    if n > 0 {
      TargetsMembers(n - 1, source);
    }
  }

  /** Whether the indices strictly increase. */
  predicate Ascending(ts: seq<nat>) {
    forall a, b :: 0 <= a < b < |ts| ==> ts[a] < ts[b]
  }

  /** The targets are tried in increasing index order. */
  lemma {:induction false} TargetsAscending(n: nat, source: nat)
    ensures Ascending(Targets(n, source))
  {
    if n > 0 {
      TargetsAscending(n - 1, source);
      TargetsMembers(n - 1, source);
      var before := Targets(n - 1, source);
      var ts := Targets(n, source);
      assert forall k :: 0 <= k < |before| ==> ts[k] == before[k] && before[k] in before;
      forall a, b | 0 <= a < b < |ts|
        ensures ts[a] < ts[b]
      {
        if b < |before| {
          assert before[a] < before[b];
        } else {
          assert ts == before + [n - 1] && ts[b] == n - 1;
          assert ts[a] in before;
        }
      }
    }
  }

  /** The stats after one send attempt to `name`: sent or errors rises by one. */
  function Record(stats: map<string, RadioStats>, name: string, ok: bool): (r: map<string, RadioStats>)
    requires name in stats
    ensures r.Keys == stats.Keys
  {
    var s := stats[name];
    stats[name := if ok then s.(sent := s.sent + 1) else s.(errors := s.errors + 1)]
  }

  /** Whether every target is a radio with stats and a send outcome. */
  predicate TargetsKnown(stats: map<string, RadioStats>, names: seq<string>, ts: seq<nat>, outcomes: seq<bool>) {
    forall k :: 0 <= k < |ts| ==> ts[k] < |names| && ts[k] < |outcomes| && names[ts[k]] in stats
  }

  /** The stats after trying every target in order. */
  function AfterSends(stats: map<string, RadioStats>, names: seq<string>, ts: seq<nat>, outcomes: seq<bool>)
    : (r: map<string, RadioStats>)
    requires TargetsKnown(stats, names, ts, outcomes)
    ensures r.Keys == stats.Keys
  {
    if ts == [] then stats
    else
      var t := ts[|ts| - 1];
      Record(AfterSends(stats, names, ts[..|ts| - 1], outcomes), names[t], outcomes[t])
  }

  /** The sendText calls made for the targets, in order. */
  function Attempts(interfaces: seq<nat>, ts: seq<nat>, text: string, channel: int): (r: seq<Send>)
    requires forall k :: 0 <= k < |ts| ==> ts[k] < |interfaces|
    ensures |r| == |ts|
    ensures forall k :: 0 <= k < |ts| ==> r[k] == Send(interfaces[ts[k]], text, channel)
  {
    if ts == [] then []
    else Attempts(interfaces, ts[..|ts| - 1], text, channel) + [Send(interfaces[ts[|ts| - 1]], text, channel)]
  }

  /** Whether some target's send succeeded. */
  predicate Delivered(ts: seq<nat>, outcomes: seq<bool>) {
    exists t :: t in ts && t < |outcomes| && outcomes[t]
  }

  /** How many targets had the given outcome. */
  function CountOutcome(ts: seq<nat>, outcomes: seq<bool>, want: bool): (c: nat)
    requires forall k :: 0 <= k < |ts| ==> ts[k] < |outcomes|
    ensures c <= |ts|
  {
    if ts == [] then 0
    else CountOutcome(ts[..|ts| - 1], outcomes, want) + (if outcomes[ts[|ts| - 1]] == want then 1 else 0)
  }

  /** A metrics counter map after `+1` on each target with the given outcome. */
  function BumpTargets(counters: map<string, int>, names: seq<string>, ts: seq<nat>, outcomes: seq<bool>, want: bool)
    : map<string, int>
    requires forall k :: 0 <= k < |ts| ==> ts[k] < |names| && ts[k] < |outcomes|
  {
    if ts == [] then counters
    else
      var t := ts[|ts| - 1];
      var before := BumpTargets(counters, names, ts[..|ts| - 1], outcomes, want);
      if outcomes[t] == want then Metrics.Bumped(before, names[t], 1) else before
  }

  /** The targets below n + 1 are those below n, then n unless it is the source. */
  lemma TargetsNext(n: nat, source: nat)
    ensures n == source ==> Targets(n + 1, source) == Targets(n, source)
    ensures n != source ==> Targets(n + 1, source) == Targets(n, source) + [n]
  {
  }

  /** Appending a target adds one Record step to AfterSends. */
  lemma AfterSendsSnoc(stats: map<string, RadioStats>, names: seq<string>, ts: seq<nat>, t: nat, outcomes: seq<bool>)
    requires TargetsKnown(stats, names, ts, outcomes) && t < |names| && t < |outcomes| && names[t] in stats
    ensures TargetsKnown(stats, names, ts + [t], outcomes)
    ensures names[t] in AfterSends(stats, names, ts, outcomes)
    ensures AfterSends(stats, names, ts + [t], outcomes) == Record(AfterSends(stats, names, ts, outcomes), names[t], outcomes[t])
  {
    assert (ts + [t])[..|ts|] == ts;
  }

  /** Appending a target adds one sendText call to Attempts. */
  lemma AttemptsSnoc(interfaces: seq<nat>, ts: seq<nat>, t: nat, text: string, channel: int)
    requires forall k :: 0 <= k < |ts| ==> ts[k] < |interfaces|
    requires t < |interfaces|
    ensures Attempts(interfaces, ts + [t], text, channel) == Attempts(interfaces, ts, text, channel) + [Send(interfaces[t], text, channel)]
  {
    assert (ts + [t])[..|ts|] == ts;
  }

  /** Appending a target makes the message delivered exactly when it was already or that send succeeds. */
  lemma DeliveredSnoc(ts: seq<nat>, t: nat, outcomes: seq<bool>)
    requires t < |outcomes|
    ensures Delivered(ts + [t], outcomes) == (Delivered(ts, outcomes) || outcomes[t])
  {
    if outcomes[t] {
      assert t in ts + [t];
    }
    if Delivered(ts + [t], outcomes) && !outcomes[t] {
      var u :| u in ts + [t] && u < |outcomes| && outcomes[u];
      assert u in ts;
    }
  }

  /** Appending a target adds one step to CountOutcome and BumpTargets. */
  lemma CountsSnoc(counters: map<string, int>, names: seq<string>, ts: seq<nat>, t: nat, outcomes: seq<bool>, want: bool)
    requires forall k :: 0 <= k < |ts| ==> ts[k] < |names| && ts[k] < |outcomes|
    requires t < |names| && t < |outcomes|
    ensures CountOutcome(ts + [t], outcomes, want) == CountOutcome(ts, outcomes, want) + (if outcomes[t] == want then 1 else 0)
    ensures var before := BumpTargets(counters, names, ts, outcomes, want);
      BumpTargets(counters, names, ts + [t], outcomes, want)
        == if outcomes[t] == want then Metrics.Bumped(before, names[t], 1) else before
  {
    assert (ts + [t])[..|ts|] == ts;
  }

  /**
   * The parts of the bridge's state a forwarding attempt changes: its own
   * stats, the sendText calls made, the tracker's entries, and the metrics'
   * traffic counters.
   */
  datatype RelayState = RelayState(
    stats: map<string, RadioStats>,
    sendLog: seq<Send>,
    entries: map<int, Tracker.TrackedEntry>,
    sent: map<string, int>,
    errors: map<string, int>,
    forwarded: int,
    dropped: int)

  /** The tracker's entries with message `id` flagged forwarded when `delivered`; an unknown id is left alone. */
  function Marked(entries: map<int, Tracker.TrackedEntry>, id: int, delivered: bool): (r: map<int, Tracker.TrackedEntry>)
    ensures r.Keys == entries.Keys
  {
    if delivered && id in entries then entries[id := entries[id].(forwarded := true)] else entries
  }

  /** Flagging twice is flagging once on either condition. */
  lemma MarkedTwice(entries: map<int, Tracker.TrackedEntry>, id: int, first: bool, second: bool)
    ensures Marked(Marked(entries, id, first), id, second) == Marked(entries, id, first || second)
  {
    if first && second && id in entries {
      assert entries[id := entries[id].(forwarded := true)][id := entries[id].(forwarded := true)]
          == entries[id := entries[id].(forwarded := true)];
    }
  }

  /**
   * The bridge's own record of a sendText call on interface `iface`, named
   * `name`: the call is logged, the radio's sent or errors counter moves, and
   * success marks the message forwarded in the tracker.
   */
  function Dispatched(s: RelayState, iface: nat, name: string, m: Filter.Message, ok: bool): (r: RelayState)
    requires name in s.stats
    ensures r.stats.Keys == s.stats.Keys
  {
    s.(stats := Record(s.stats, name, ok),
       sendLog := s.sendLog + [Send(iface, m.text, m.channel)],
       entries := Marked(s.entries, m.id, ok))
  }

  /** The metrics' record of the same call, only when `counted`: sent and forwarded, or errors and dropped. */
  function Scored(s: RelayState, name: string, ok: bool, counted: bool): RelayState {
    if !counted then s
    else if ok then s.(sent := Metrics.Bumped(s.sent, name, 1), forwarded := s.forwarded + 1)
    else s.(errors := Metrics.Bumped(s.errors, name, 1), dropped := s.dropped + 1)
  }

  /** One pass of the forwarding loop: the call and the bridge's record of it, then the metrics'. */
  function Attempt(s: RelayState, iface: nat, name: string, m: Filter.Message, ok: bool, counted: bool): (r: RelayState)
    requires name in s.stats
    ensures r.stats.Keys == s.stats.Keys
  {
    Scored(Dispatched(s, iface, name, m, ok), name, ok, counted)
  }

  /** The state after trying every target in `ts`, in closed form. */
  function FannedOut(s: RelayState, interfaces: seq<nat>, names: seq<string>, m: Filter.Message,
                     ts: seq<nat>, outcomes: seq<bool>, counted: bool): RelayState
    requires TargetsKnown(s.stats, names, ts, outcomes) && |interfaces| == |names|
  {
    RelayState(
      AfterSends(s.stats, names, ts, outcomes),
      s.sendLog + Attempts(interfaces, ts, m.text, m.channel),
      Marked(s.entries, m.id, Delivered(ts, outcomes)),
      if counted then BumpTargets(s.sent, names, ts, outcomes, true) else s.sent,
      if counted then BumpTargets(s.errors, names, ts, outcomes, false) else s.errors,
      s.forwarded + (if counted then CountOutcome(ts, outcomes, true) else 0),
      s.dropped + (if counted then CountOutcome(ts, outcomes, false) else 0))
  }

  /** The closed form is the loop: trying one more target is one more Attempt. */
  lemma FannedOutStep(s: RelayState, interfaces: seq<nat>, names: seq<string>, m: Filter.Message,
                      ts: seq<nat>, t: nat, outcomes: seq<bool>, counted: bool)
    requires TargetsKnown(s.stats, names, ts, outcomes) && |interfaces| == |names|
    requires t < |names| && t < |outcomes| && names[t] in s.stats
    ensures TargetsKnown(s.stats, names, ts + [t], outcomes)
    ensures names[t] in FannedOut(s, interfaces, names, m, ts, outcomes, counted).stats
    ensures FannedOut(s, interfaces, names, m, ts + [t], outcomes, counted)
      == Attempt(FannedOut(s, interfaces, names, m, ts, outcomes, counted), interfaces[t], names[t], m, outcomes[t], counted)
  {
    AfterSendsSnoc(s.stats, names, ts, t, outcomes);
    var before := FannedOut(s, interfaces, names, m, ts, outcomes, counted);
    var after := FannedOut(s, interfaces, names, m, ts + [t], outcomes, counted);
    var step := Attempt(before, interfaces[t], names[t], m, outcomes[t], counted);
    assert after.sendLog == step.sendLog by {
      AttemptsSnoc(interfaces, ts, t, m.text, m.channel);
    }
    assert after.entries == step.entries by {
      DeliveredSnoc(ts, t, outcomes);
      MarkedTwice(s.entries, m.id, Delivered(ts, outcomes), outcomes[t]);
    }
    assert after.sent == step.sent && after.forwarded == step.forwarded by {
      CountsSnoc(s.sent, names, ts, t, outcomes, true);
    }
    assert after.errors == step.errors && after.dropped == step.dropped by {
      CountsSnoc(s.errors, names, ts, t, outcomes, false);
    }
  }

  /** Once every radio has stats, every target below n is a radio with stats and an outcome. */
  lemma TargetsInRange(stats: map<string, RadioStats>, names: seq<string>, n: nat, source: nat, outcomes: seq<bool>)
    requires n <= |names| <= |outcomes|
    requires forall x :: x in names ==> x in stats
    ensures TargetsKnown(stats, names, Targets(n, source), outcomes)
  {
    var ts := Targets(n, source);
    TargetsMembers(n, source);
    forall k | 0 <= k < |ts|
      ensures ts[k] < |names| && ts[k] < |outcomes| && names[ts[k]] in stats
    {
      assert ts[k] in ts;
      assert names[ts[k]] in names;
    }
  }

  /** The relay state once the loop has visited interfaces 0 to n - 1. */
  function FannedOutUpTo(s: RelayState, interfaces: seq<nat>, names: seq<string>, m: Filter.Message,
                         n: nat, source: nat, outcomes: seq<bool>, counted: bool): RelayState
    requires n <= |names| && |names| == |interfaces| && |names| == |outcomes|
    requires forall x :: x in names ==> x in s.stats
  {
    TargetsInRange(s.stats, names, n, source, outcomes);
    FannedOut(s, interfaces, names, m, Targets(n, source), outcomes, counted)
  }

  /** Before the loop has visited any interface, nothing has changed. */
  lemma FannedOutUpToZero(s: RelayState, interfaces: seq<nat>, names: seq<string>, m: Filter.Message,
                          source: nat, outcomes: seq<bool>, counted: bool)
    requires |names| == |interfaces| && |names| == |outcomes|
    requires forall x :: x in names ==> x in s.stats
    ensures FannedOutUpTo(s, interfaces, names, m, 0, source, outcomes, counted) == s
  {
    assert s.sendLog + [] == s.sendLog;
  }

  /** Visiting interface n skips the source and is one Attempt on any other radio. */
  lemma FannedOutUpToNext(s: RelayState, interfaces: seq<nat>, names: seq<string>, m: Filter.Message,
                          n: nat, source: nat, outcomes: seq<bool>, counted: bool)
    requires n < |names| && |names| == |interfaces| && |names| == |outcomes|
    requires forall x :: x in names ==> x in s.stats
    ensures names[n] in FannedOutUpTo(s, interfaces, names, m, n, source, outcomes, counted).stats
    ensures n == source ==>
      FannedOutUpTo(s, interfaces, names, m, n + 1, source, outcomes, counted)
        == FannedOutUpTo(s, interfaces, names, m, n, source, outcomes, counted)
    ensures n != source ==>
      FannedOutUpTo(s, interfaces, names, m, n + 1, source, outcomes, counted)
        == Attempt(FannedOutUpTo(s, interfaces, names, m, n, source, outcomes, counted),
                   interfaces[n], names[n], m, outcomes[n], counted)
  {
    TargetsNext(n, source);
    TargetsInRange(s.stats, names, n, source, outcomes);
    assert names[n] in names;
    FannedOutStep(s, interfaces, names, m, Targets(n, source), n, outcomes, counted);
  }

  /**
   * An admitted message arriving on the radio named `name`: counted as
   * received there and recorded in the tracker as not yet forwarded.
   */
  function Arrived(s: RelayState, name: string, m: Filter.Message): (r: RelayState)
    requires name in s.stats
    ensures r.stats.Keys == s.stats.Keys && m.id in r.entries
  {
    s.(stats := s.stats[name := s.stats[name].(received := s.stats[name].received + 1)],
       entries := s.entries[m.id := Tracker.TrackedEntry(m.from, m.to, m.text, m.channel, false)])
  }

  /** The metrics a handled message moves besides the traffic counters. */
  datatype Tallies = Tallies(received: map<string, int>, nodeMessageCounts: map<string, int>, filtered: int, history: seq<real>)

  /** An arrival on radio `name` from node `m.from`, counted only when `counted`. */
  function Counted(t: Tallies, name: string, m: Filter.Message, counted: bool): Tallies {
    if counted
    then t.(received := Metrics.Bumped(t.received, name, 1),
            nodeMessageCounts := Metrics.NodeBumped(t.nodeMessageCounts, m.from, 1))
    else t
  }

  /** A processing time appended to the history, only when `counted`. */
  function Timed(t: Tallies, elapsedMs: real, counted: bool): Tallies {
    if counted then t.(history := t.history + [elapsedMs]) else t
  }

  /** Every target ends up with exactly one outcome: success or failure. */
  lemma {:induction false} OutcomesPartitionTargets(ts: seq<nat>, outcomes: seq<bool>)
    requires forall k :: 0 <= k < |ts| ==> ts[k] < |outcomes|
    ensures CountOutcome(ts, outcomes, true) + CountOutcome(ts, outcomes, false) == |ts|
  {
    if ts != [] {
      OutcomesPartitionTargets(ts[..|ts| - 1], outcomes);
    }
  }

  /**
   * With distinct radio names, each target gains exactly one of sent or
   * errors according to its outcome, and every other radio is unchanged.
   */
  lemma {:induction false} AfterSendsPerRadio(
    stats: map<string, RadioStats>, names: seq<string>, ts: seq<nat>, outcomes: seq<bool>, i: nat)
    requires TargetsKnown(stats, names, ts, outcomes) && Distinct(names)
    requires forall a, b :: 0 <= a < b < |ts| ==> ts[a] < ts[b]
    requires i < |names| && names[i] in stats
    ensures var before, after := stats[names[i]], AfterSends(stats, names, ts, outcomes)[names[i]];
      if i in ts then
        i < |outcomes| &&
        after == (if outcomes[i] then before.(sent := before.sent + 1) else before.(errors := before.errors + 1))
      else after == before
  {
    if ts != [] {
      var init, t := ts[..|ts| - 1], ts[|ts| - 1];
      assert forall x :: x in init ==> x in ts;
      AfterSendsPerRadio(stats, names, init, outcomes, i);
      if i == t {
        assert i !in init;
      } else {
        assert names[t] != names[i];
      }
    }
  }

  /** Traffic (sent + errors) summed over a list of radios. */
  function Traffic(stats: map<string, RadioStats>, names: seq<string>): nat
    requires forall n :: n in names ==> n in stats
  {
    if names == [] then 0
    else
      var s := stats[names[|names| - 1]];
      Traffic(stats, names[..|names| - 1]) + s.sent + s.errors
  }

  /** One send attempt raises the traffic of a list holding its radio once by exactly one. */
  lemma {:induction false} TrafficRecord(stats: map<string, RadioStats>, names: seq<string>, name: string, ok: bool)
    requires name in stats && (forall n :: n in names ==> n in stats) && Distinct(names)
    ensures Traffic(Record(stats, name, ok), names) == Traffic(stats, names) + (if name in names then 1 else 0)
  {
    if names != [] {
      var init := names[..|names| - 1];
      assert forall n :: n in init ==> n in names;
      TrafficRecord(stats, init, name, ok);
      assert name in names <==> name in init || name == names[|names| - 1];
    }
  }

  /** Trying N targets among distinct radios raises their total traffic by N. */
  lemma {:induction false} TrafficAfterSends(
    stats: map<string, RadioStats>, names: seq<string>, ts: seq<nat>, outcomes: seq<bool>)
    requires TargetsKnown(stats, names, ts, outcomes) && Distinct(names)
    requires forall n :: n in names ==> n in stats
    ensures Traffic(AfterSends(stats, names, ts, outcomes), names) == Traffic(stats, names) + |ts|
  {
    if ts != [] {
      var init, t := ts[..|ts| - 1], ts[|ts| - 1];
      assert forall x :: x in init ==> x in ts;
      TrafficAfterSends(stats, names, init, outcomes);
      TrafficRecord(AfterSends(stats, names, init, outcomes), names, names[t], outcomes[t]);
    }
  }

  /** Fanning out from one of N connected radios with distinct names raises their total traffic by N - 1. */
  lemma FanOutTraffic(stats: map<string, RadioStats>, names: seq<string>, source: nat, outcomes: seq<bool>)
    requires source < |names| && |outcomes| == |names| && Distinct(names)
    requires forall n :: n in names ==> n in stats
    ensures TargetsKnown(stats, names, Targets(|names|, source), outcomes)
    ensures Traffic(AfterSends(stats, names, Targets(|names|, source), outcomes), names)
      == Traffic(stats, names) + |names| - 1
  {
    var ts := Targets(|names|, source);
    TargetsMembers(|names|, source);
    assert forall k :: 0 <= k < |ts| ==> ts[k] in ts;
    TrafficAfterSends(stats, names, ts, outcomes);
  }

  /** The first index holding x. */
  function FirstIndex<T(==)>(s: seq<T>, x: T): (i: nat)
    requires x in s
    ensures i < |s| && s[i] == x && x !in s[..i]
  {
    if s[0] == x then 0 else assert x in s[1..]; 1 + FirstIndex(s[1..], x)
  }

  /** An index holding x with no x before it is the first index. */
  lemma {:induction false} FirstIndexUnique<T>(s: seq<T>, x: T, i: nat)
    requires i < |s| && s[i] == x && x !in s[..i]
    ensures FirstIndex(s, x) == i
  {
    if i > 0 {
      assert s[0] == s[..i][0];
      assert s[1..][..i - 1] == s[..i][1..];
      FirstIndexUnique(s[1..], x, i - 1);
    }
  }

  // ----- the bridge -----


  class EnhancedBridge {
    /** The connected interfaces, as opaque handles. */
    var interfaces: seq<nat>
    var radioNames: seq<string>
    var stats: map<string, RadioStats>
    /** Every sendText call made, in order. */
    var sendLog: seq<Send>
    const tracker: Tracker.MessageTracker
    /** The message filter; `hasFilter` is false where the bridge holds None. */
    const filter: Filter.MessageFilter
    const hasFilter: bool
    /** The metrics collector; `hasMetrics` is false where the bridge holds None. */
    const metrics: Metrics.MetricsCollector
    const hasMetrics: bool

    ghost predicate Valid()
      reads this, filter, metrics
    {
      && |radioNames| == |interfaces|
      && (forall n :: n in radioNames ==> n in stats)
      && filter.Valid()
      && metrics.Valid()
    }

    /**
     * The parts of __init__ the relay depends on: a filter exactly when
     * filtering is enabled, a metrics collector exactly when metrics are.
     */
    constructor (filtering: Filter.FilterConfig, rx: Filter.RegexEngine, metricsEnabled: bool)
      ensures Valid()
      ensures interfaces == [] && radioNames == [] && stats == map[] && sendLog == []
      ensures fresh(tracker) && tracker.entries == map[]
      ensures hasFilter == filtering.enabled && fresh(filter) && filter.enabled == filtering.enabled
      ensures hasMetrics == metricsEnabled && fresh(metrics)
    {
      interfaces, radioNames, stats, sendLog := [], [], map[], [];
      tracker := new Tracker.MessageTracker();
      var f := NewFilter(filtering, rx);
      filter, hasFilter := f, filtering.enabled;
      metrics := new Metrics.MetricsCollector();
      hasMetrics := metricsEnabled;
    }

    /** MessageFilter(config), reduced to the facts the bridge relies on. */
    static method NewFilter(filtering: Filter.FilterConfig, rx: Filter.RegexEngine) returns (f: Filter.MessageFilter)
      ensures fresh(f) && f.Valid() && f.enabled == filtering.enabled
    {
      f := new Filter.MessageFilter(filtering, rx);
    }

    /**
     * connect, once its radios are open: append each handle with the name
     * "radio<index + 1>", reset the stats to zero for every name, and report
     * the number of radios to the metrics collector.
     */
    method Connect(handles: seq<nat>)
      requires Valid()
      modifies this`interfaces, this`radioNames, this`stats, metrics`connectedRadios
      ensures Valid()
      ensures interfaces == old(interfaces) + handles
      ensures radioNames == old(radioNames) + RadioNames(|handles|)
      ensures stats == map n | n in radioNames :: ZeroRadioStats
      ensures hasMetrics ==> metrics.connectedRadios == |interfaces|
      ensures !hasMetrics ==> metrics.connectedRadios == old(metrics.connectedRadios)
    {
      for idx := 0 to |handles|
        invariant interfaces == old(interfaces) + handles[..idx]
        invariant radioNames == old(radioNames) + RadioNames(idx)
        invariant metrics.connectedRadios == old(metrics.connectedRadios)
      {
        interfaces := interfaces + [handles[idx]];
        radioNames := radioNames + [RadioName(idx)];
        assert RadioNames(idx + 1) == RadioNames(idx) + [RadioName(idx)];
      }
      assert handles[..|handles|] == handles;
      stats := map n | n in radioNames :: ZeroRadioStats;
      if hasMetrics {
        metrics.SetConnectedRadios(|interfaces|);
      }
    }

    /**
     * _on_receive: find the first interface equal to the one the packet
     * arrived on; an unknown interface is ignored, otherwise the packet is
     * handled as coming from that radio.
     */
    method OnReceive(packet: Packet, iface: nat, outcomes: seq<bool>, elapsedMs: real)
      requires Valid() && |outcomes| == |interfaces|
      modifies this`stats, this`sendLog, tracker, filter`stats,
        metrics`received, metrics`nodeMessageCounts, metrics`filtered,
        metrics`sent, metrics`errors, metrics`forwarded, metrics`dropped,
        metrics`processingTimes, metrics`maxProcessingTime, metrics`minProcessingTime, metrics`history
      ensures Valid()
      ensures iface !in interfaces ==>
        stats == old(stats) && sendLog == old(sendLog) && tracker.entries == old(tracker.entries)
        && filter.stats == old(filter.stats) && unchanged(metrics)
      ensures iface in interfaces ==> Handled(packet, FirstIndex(interfaces, iface), outcomes, elapsedMs)
    {
      var idx := 0;
      while idx < |interfaces| && interfaces[idx] != iface
        invariant idx <= |interfaces| && iface !in interfaces[..idx]
      {
        assert interfaces[..idx + 1] == interfaces[..idx] + [interfaces[idx]];
        idx := idx + 1;
      }
      if idx == |interfaces| {
        assert interfaces[..idx] == interfaces;
        return;
      }
      assert idx == FirstIndex(interfaces, iface) by {
        FirstIndexUnique(interfaces, iface, idx);
      }
      HandleMessage(packet, radioNames[idx], idx, outcomes, elapsedMs);
    }

    /** The state a forwarding attempt touches, as a value. */
    function RelayView(): RelayState
      reads this, tracker, metrics
    {
      RelayState(stats, sendLog, tracker.entries, metrics.sent, metrics.errors, metrics.forwarded, metrics.dropped)
    }

    /** The metrics' arrival counters, filtered total and timing history, as a value. */
    ghost function TallyView(): Tallies
      reads metrics
    {
      Tallies(metrics.received, metrics.nodeMessageCounts, metrics.filtered, metrics.history)
    }

    /**
     * What handling a packet from radio `source` does: a decoded text
     * message not seen before that the filter (if any) admits is relayed;
     * anything else changes only the filter's statistics (when it reached
     * the filter) and the metrics' filtered total (when the filter rejected
     * it).
     */
    twostate predicate Handled(packet: Packet, source: nat, outcomes: seq<bool>, elapsedMs: real)
      requires source < |radioNames| && |outcomes| == |interfaces| && |radioNames| == |interfaces|
      requires forall n :: n in radioNames ==> n in old(stats)
      reads this, tracker, filter, metrics
    {
      var m := ExtractMessage(packet);
      var reached := m.Some? && m.value.id !in old(tracker.entries);
      var admitted := reached && (!hasFilter || old(filter.Admits(m.value)));
      && (!(hasFilter && reached) ==> filter.stats == old(filter.stats))
      && (hasFilter && reached ==>
            filter.stats == if filter.enabled
              then Filter.Tally(old(filter.stats), Filter.Judge(old(filter.CurrentPolicy()), filter.regex, m.value))
              else old(filter.stats))
      && (!admitted ==>
            RelayView() == old(RelayView())
            && TallyView() == old(TallyView()).(filtered := old(metrics.filtered) + (if reached && hasMetrics then 1 else 0)))
      && (admitted ==> Relayed(m.value, source, outcomes, elapsedMs))
    }

    /**
     * What relaying an admitted message from radio `source` does: it is
     * recorded in the tracker and counted as received on the source, every
     * other radio gets one sendText call in index order, and the processing
     * time is recorded.
     */
    twostate predicate Relayed(m: Filter.Message, source: nat, outcomes: seq<bool>, elapsedMs: real)
      requires source < |radioNames| && |outcomes| == |interfaces| && |radioNames| == |interfaces|
      requires forall n :: n in radioNames ==> n in old(stats)
      reads this, tracker, metrics
    {
      var name := radioNames[source];
      var arrived := Arrived(old(RelayView()), name, m);
      && RelayView() == FannedOutUpTo(arrived, interfaces, radioNames, m, |interfaces|, source, outcomes, hasMetrics)
      && TallyView() == Timed(Counted(old(TallyView()), name, m, hasMetrics), elapsedMs, hasMetrics)
    }

    /** _handle_message for a packet from the radio at `sourceIdx`. */
    method HandleMessage(packet: Packet, sourceRadio: string, sourceIdx: nat, outcomes: seq<bool>, elapsedMs: real)
      requires Valid() && sourceIdx < |interfaces| && radioNames[sourceIdx] == sourceRadio
      requires |outcomes| == |interfaces|
      modifies this`stats, this`sendLog, tracker, filter`stats,
        metrics`received, metrics`nodeMessageCounts, metrics`filtered,
        metrics`sent, metrics`errors, metrics`forwarded, metrics`dropped,
        metrics`processingTimes, metrics`maxProcessingTime, metrics`minProcessingTime, metrics`history
      ensures Valid()
      ensures Handled(packet, sourceIdx, outcomes, elapsedMs)
    {
      var msg := ExtractMessage(packet);
      if msg.None? {
        return;
      }
      var m := msg.value;
      if tracker.HasSeen(m.id) {
        return;
      }
      if hasFilter {
        var ok := filter.ShouldForward(m);
        if !ok {
          CountFiltered();
          return;
        }
      }
      Relay(m, sourceRadio, sourceIdx, outcomes, elapsedMs);
    }

    /** The admitted part of _handle_message: record, count, forward, time. */
    method Relay(m: Filter.Message, sourceRadio: string, sourceIdx: nat, outcomes: seq<bool>, elapsedMs: real)
      requires Valid() && sourceIdx < |interfaces| && radioNames[sourceIdx] == sourceRadio
      requires |outcomes| == |interfaces|
      modifies this`stats, this`sendLog, tracker,
        metrics`received, metrics`nodeMessageCounts, metrics`filtered,
        metrics`sent, metrics`errors, metrics`forwarded, metrics`dropped,
        metrics`processingTimes, metrics`maxProcessingTime, metrics`minProcessingTime, metrics`history
      ensures Valid()
      ensures Relayed(m, sourceIdx, outcomes, elapsedMs)
    {
      Arrive(m, sourceRadio);
      FanOut(m, sourceIdx, outcomes);
      RecordTime(elapsedMs);
    }

    /** A message the filter rejected is counted as filtered, when there are metrics. */
    method CountFiltered()
      requires Valid()
      modifies metrics`filtered
      ensures Valid()
      ensures RelayView() == old(RelayView())
      ensures TallyView() == old(TallyView()).(filtered := old(metrics.filtered) + (if hasMetrics then 1 else 0))
    {
      if hasMetrics {
        metrics.IncrementFiltered(1);
      }
    }

    /** The processing time of a relayed message is recorded, when there are metrics. */
    method RecordTime(elapsedMs: real)
      requires Valid()
      modifies metrics`processingTimes, metrics`maxProcessingTime, metrics`minProcessingTime, metrics`history
      ensures Valid()
      ensures RelayView() == old(RelayView())
      ensures TallyView() == Timed(old(TallyView()), elapsedMs, hasMetrics)
    {
      if hasMetrics {
        metrics.RecordProcessingTime(elapsedMs);
      }
    }

    /** An admitted message is recorded in the tracker and counted as received on its source radio. */
    method Arrive(m: Filter.Message, sourceRadio: string)
      requires Valid() && sourceRadio in radioNames
      modifies this`stats, tracker, metrics`received, metrics`nodeMessageCounts
      ensures Valid()
      ensures sourceRadio in old(stats)
      ensures RelayView() == Arrived(old(RelayView()), sourceRadio, m)
      ensures TallyView() == Counted(old(TallyView()), sourceRadio, m, hasMetrics)
    {
      tracker.AddMessage(m.id, m.from, m.to, m.text, m.channel);
      stats := stats[sourceRadio := stats[sourceRadio].(received := stats[sourceRadio].received + 1)];
      CountArrival(m, sourceRadio);
    }

    /** The metrics' part of an arrival: received on the radio, one more message from the node. */
    method CountArrival(m: Filter.Message, sourceRadio: string)
      requires Valid() && sourceRadio in radioNames
      modifies metrics`received, metrics`nodeMessageCounts
      ensures Valid()
      ensures RelayView() == old(RelayView())
      ensures TallyView() == Counted(old(TallyView()), sourceRadio, m, hasMetrics)
    {
      if hasMetrics {
        metrics.IncrementReceived(sourceRadio, 1);
        metrics.IncrementNodeMessages(m.from, 1);
      }
    }

    /**
     * The forwarding loop of _handle_message: every interface but the
     * source, in index order, gets one sendText call; a success marks the
     * message forwarded and counts as sent, a failure counts as an error and
     * does not stop the loop.
     */
    method FanOut(m: Filter.Message, sourceIdx: nat, outcomes: seq<bool>)
      requires Valid() && sourceIdx < |interfaces| && |outcomes| == |interfaces|
      modifies this`stats, this`sendLog, tracker, metrics`sent, metrics`errors, metrics`forwarded, metrics`dropped
      ensures Valid()
      ensures RelayView() == FannedOutUpTo(old(RelayView()), interfaces, radioNames, m, |interfaces|, sourceIdx, outcomes, hasMetrics)
      ensures TallyView() == old(TallyView())
    {
      ghost var start := RelayView();
      FannedOutUpToZero(start, interfaces, radioNames, m, sourceIdx, outcomes, hasMetrics);
      for idx := 0 to |interfaces|
        invariant Valid()
        invariant RelayView() == FannedOutUpTo(start, interfaces, radioNames, m, idx, sourceIdx, outcomes, hasMetrics)
        invariant TallyView() == old(TallyView())
      {
        Visit(m, sourceIdx, idx, outcomes, start);
      }
    }

    /**
     * One turn of the forwarding loop: the radio the message came from is
     * skipped, any other is sent to; having visited the interfaces below
     * idx, the loop has then visited those below idx + 1.
     */
    method Visit(m: Filter.Message, sourceIdx: nat, idx: nat, outcomes: seq<bool>, ghost start: RelayState)
      requires Valid() && idx < |interfaces| && |outcomes| == |interfaces|
      requires forall n :: n in radioNames ==> n in start.stats
      requires RelayView() == FannedOutUpTo(start, interfaces, radioNames, m, idx, sourceIdx, outcomes, hasMetrics)
      modifies this`stats, this`sendLog, tracker, metrics`sent, metrics`errors, metrics`forwarded, metrics`dropped
      ensures Valid()
      ensures RelayView() == FannedOutUpTo(start, interfaces, radioNames, m, idx + 1, sourceIdx, outcomes, hasMetrics)
      ensures TallyView() == old(TallyView())
    {
      FannedOutUpToNext(start, interfaces, radioNames, m, idx, sourceIdx, outcomes, hasMetrics);
      ghost var next := FannedOutUpTo(start, interfaces, radioNames, m, idx + 1, sourceIdx, outcomes, hasMetrics);
      if idx != sourceIdx {
        ghost var before, iface, name := RelayView(), interfaces[idx], radioNames[idx];
        assert next == Attempt(before, iface, name, m, outcomes[idx], hasMetrics);
        SendTo(m, idx, outcomes[idx]);
        assert RelayView() == Attempt(before, iface, name, m, outcomes[idx], hasMetrics);
      }
    }

    /**
     * One pass of the forwarding loop: a sendText call on interface `idx`;
     * on success the message is marked forwarded and counted as sent, on
     * failure counted as an error.
     */
    method SendTo(m: Filter.Message, idx: nat, ok: bool)
      requires Valid() && idx < |interfaces|
      modifies this`stats, this`sendLog, tracker, metrics`sent, metrics`errors, metrics`forwarded, metrics`dropped
      ensures Valid()
      ensures radioNames[idx] in old(stats)
      ensures RelayView() == Attempt(old(RelayView()), interfaces[idx], radioNames[idx], m, ok, hasMetrics)
      ensures TallyView() == old(TallyView())
    {
      Dispatch(m, idx, ok);
      CountSend(radioNames[idx], ok);
    }

    /** The bridge's part of one pass: the sendText call, the radio's counters, the tracker's flag. */
    method Dispatch(m: Filter.Message, idx: nat, ok: bool)
      requires Valid() && idx < |interfaces|
      modifies this`stats, this`sendLog, tracker
      ensures Valid()
      ensures radioNames[idx] in old(stats)
      ensures RelayView() == Dispatched(old(RelayView()), interfaces[idx], radioNames[idx], m, ok)
    {
      var targetRadio := radioNames[idx];
      assert targetRadio in radioNames;
      sendLog := sendLog + [Send(interfaces[idx], m.text, m.channel)];
      if ok {
        tracker.MarkForwarded(m.id);
        stats := stats[targetRadio := stats[targetRadio].(sent := stats[targetRadio].sent + 1)];
      } else {
        stats := stats[targetRadio := stats[targetRadio].(errors := stats[targetRadio].errors + 1)];
      }
    }

    /** The metrics' part of one pass: sent and forwarded on success, errors and dropped on failure. */
    method CountSend(targetRadio: string, ok: bool)
      requires Valid() && targetRadio in radioNames
      modifies metrics`sent, metrics`errors, metrics`forwarded, metrics`dropped
      ensures Valid()
      ensures RelayView() == Scored(old(RelayView()), targetRadio, ok, hasMetrics)
      ensures TallyView() == old(TallyView())
    {
      if hasMetrics {
        if ok {
          CountDelivered(targetRadio);
        } else {
          CountFailed(targetRadio);
        }
      }
    }

    /** A successful sendText: increment_sent on the radio and increment_forwarded. */
    method CountDelivered(targetRadio: string)
      requires Valid()
      modifies metrics`sent, metrics`forwarded
      ensures Valid()
      ensures RelayView() == old(RelayView()).(sent := Metrics.Bumped(old(metrics.sent), targetRadio, 1),
                                               forwarded := old(metrics.forwarded) + 1)
      ensures TallyView() == old(TallyView())
    {
      metrics.IncrementSent(targetRadio, 1);
      metrics.IncrementForwarded(1);
    }

    /** A failed sendText: increment_errors on the radio and increment_dropped. */
    method CountFailed(targetRadio: string)
      requires Valid()
      modifies metrics`errors, metrics`dropped
      ensures Valid()
      ensures RelayView() == old(RelayView()).(errors := Metrics.Bumped(old(metrics.errors), targetRadio, 1),
                                               dropped := old(metrics.dropped) + 1)
      ensures TallyView() == old(TallyView())
    {
      metrics.IncrementErrors(targetRadio, 1);
      metrics.IncrementDropped(1);
    }

    /**
     * send_message: an unknown radio name returns false without sending;
     * otherwise one sendText on the first radio of that name, whose outcome
     * is the result.
     */
    method SendMessage(text: string, radio: string, channel: int, outcome: bool) returns (ok: bool)
      requires Valid()
      modifies this`sendLog
      ensures Valid()
      ensures radio !in radioNames ==> !ok && sendLog == old(sendLog)
      ensures radio in radioNames ==>
        ok == outcome && sendLog == old(sendLog) + [Send(interfaces[FirstIndex(radioNames, radio)], text, channel)]
    {
      if radio !in radioNames {
        return false;
      }
      var idx := FirstIndex(radioNames, radio);
      sendLog := sendLog + [Send(interfaces[idx], text, channel)];
      return outcome;
    }
  }
}
