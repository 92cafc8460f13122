/**
 * The in-memory state behind the bridge's Prometheus endpoint
 * (MetricsCollector): per-radio counters with a fixed key set, running
 * totals, gauges, a sliding window of processing times with a running
 * maximum and minimum, per-node counts, and the escaping of node labels.
 */
module Metrics {
  import opened Wrappers

  /** The radios the per-radio counters know; any other name is ignored. */
  const Radios: set<string> := {"radio1", "radio2"}

  /** How many processing-time samples the window keeps. */
  const WindowSize: nat := 1000

  /** A float that may be +inf, as min_processing_time starts. */
  datatype Extended = Infinite | Finite(value: real)

  /** x <= e, with every real below +inf. */
  predicate AtMost(e: Extended, x: real) {
    e.Infinite? || e.value <= x
  }

  // ----- counters -----

  /** The per-radio counters after `+= count` on `radio`, guarded by `radio in counters`. */
  function Bumped(counters: map<string, int>, radio: string, count: int): (r: map<string, int>)
    ensures r.Keys == counters.Keys
    ensures forall k :: k in counters && k != radio ==> r[k] == counters[k]
    ensures radio in counters ==> r[radio] == counters[radio] + count
    ensures radio !in counters ==> r == counters
  {
    if radio in counters then counters[radio := counters[radio] + count] else counters
  }

  /** The per-node counts after inserting a missing node at 0 and adding `count`. */
  function NodeBumped(counts: map<string, int>, node: string, count: int): (r: map<string, int>)
    ensures r.Keys == counts.Keys + {node}
    ensures r[node] == (if node in counts then counts[node] else 0) + count
    ensures forall k :: k in counts && k != node ==> r[k] == counts[k]
  {
    var base := if node in counts then counts else counts[node := 0];
    base[node := base[node] + count]
  }

  // ----- processing times -----

  /** The last min(|h|, WindowSize) samples of the history h. */
  function Recent(h: seq<real>): (w: seq<real>)
    ensures |w| <= WindowSize
  {
    if |h| <= WindowSize then h else h[|h| - WindowSize..]
  }

  /** Append a sample, then drop the oldest one when the window overflows. */
  function Slide(window: seq<real>, d: real): (w: seq<real>)
    ensures |window| <= WindowSize ==> |w| <= WindowSize
    ensures |w| > 0 && w[|w| - 1] == d
    ensures |window| < WindowSize ==> w == window + [d]
    ensures |window| >= WindowSize ==> w == window[1..] + [d]
  {
    var appended := window + [d];
    if |appended| > WindowSize then appended[1..] else appended
  }

  /** Sliding the window of the last samples gives the window of the extended history. */
  lemma SlideRecent(h: seq<real>, d: real)
    ensures Slide(Recent(h), d) == Recent(h + [d])
  {
    if |h| >= WindowSize {
      assert Recent(h + [d]) == Recent(h)[1..] + [d];
    }
  }

  /** max(0, samples...): the running maximum from its starting value 0. */
  function MaxOf(h: seq<real>): real {
    if h == [] then 0.0
    else var m := MaxOf(h[..|h| - 1]); if h[|h| - 1] > m then h[|h| - 1] else m
  }

  /** The running minimum over the positive samples, from +inf. */
  function MinOf(h: seq<real>): Extended {
    if h == [] then Infinite
    else
      var m := MinOf(h[..|h| - 1]);
      var d := h[|h| - 1];
      if d > 0.0 && (m.Infinite? || d < m.value) then Finite(d) else m
  }

  /** The maximum bounds every sample, and is 0 or one of them. */
  lemma {:induction false} MaxOfBounds(h: seq<real>)
    ensures forall i :: 0 <= i < |h| ==> h[i] <= MaxOf(h)
    ensures MaxOf(h) == 0.0 || MaxOf(h) in h
    ensures MaxOf(h) >= 0.0
  {
    if h != [] {
      var init := h[..|h| - 1];
      MaxOfBounds(init);
      assert forall i :: 0 <= i < |init| ==> h[i] == init[i];
    }
  }

  /** The minimum is below every positive sample; it is +inf iff there is none, and otherwise one of them. */
  lemma {:induction false} MinOfBounds(h: seq<real>)
    ensures forall i :: 0 <= i < |h| && h[i] > 0.0 ==> AtMost(MinOf(h), h[i])
    ensures MinOf(h).Infinite? <==> forall i :: 0 <= i < |h| ==> h[i] <= 0.0
    ensures MinOf(h).Finite? ==> MinOf(h).value > 0.0 && MinOf(h).value in h
  {
    if h != [] {
      var init := h[..|h| - 1];
      MinOfBounds(init);
      assert forall i :: 0 <= i < |init| ==> h[i] == init[i];
    }
  }

  // ----- label escaping -----

  /** node_id.replace('"', '\\"'): each double quote gets a backslash before it. */
  function EscapeLabel(s: string): (r: string)
    ensures |r| > 0 ==> r[0] != '"'
    ensures forall i :: 0 < i < |r| && r[i] == '"' ==> r[i - 1] == '\\'
    ensures '"' !in s ==> r == s
  {
    if s == [] then []
    else (if s[0] == '"' then ['\\', '"'] else [s[0]]) + EscapeLabel(s[1..])
  }

  /** The inverse of EscapeLabel: a backslash before a quote is dropped. */
  function UnescapeLabel(r: string): string {
    if r == [] then []
    else if |r| >= 2 && r[0] == '\\' && r[1] == '"' then ['"'] + UnescapeLabel(r[2..])
    else [r[0]] + UnescapeLabel(r[1..])
  }

  /** Escaping changes nothing but the quotes: undoing it gives the node id back. */
  lemma {:induction false} EscapeLabelRoundTrip(s: string)
    ensures UnescapeLabel(EscapeLabel(s)) == s
  {
    if s != [] {
      var rest := EscapeLabel(s[1..]);
      EscapeLabelRoundTrip(s[1..]);
      if s[0] == '"' {
        assert EscapeLabel(s) == ['\\', '"'] + rest;
        assert (['\\', '"'] + rest)[2..] == rest;
      } else {
        assert EscapeLabel(s) == [s[0]] + rest;
        assert ([s[0]] + rest)[1..] == rest;
      }
    }
  }

  /**
   * How a Prometheus scraper reads the text between a label value's quotes
   * (the text exposition format): `\\`, `\"` and `\n` are escapes, while a
   * bare quote, a bare line feed or any other backslash breaks the value.
   */
  function ReadLabelValue(r: string): Option<string> {
    if r == [] then Some([])
    else if r[0] == '"' || r[0] == '\n' then None
    else if r[0] != '\\' then Prepend(r[0], ReadLabelValue(r[1..]))
    else if |r| < 2 then None
    else if r[1] == '\\' then Prepend('\\', ReadLabelValue(r[2..]))
    else if r[1] == '"' then Prepend('"', ReadLabelValue(r[2..]))
    else if r[1] == 'n' then Prepend('\n', ReadLabelValue(r[2..]))
    else None
  }

  function Prepend(c: char, o: Option<string>): Option<string> {
    match o
    case None => None
    case Some(s) => Some([c] + s)
  }

  /** A node id ending in a backslash: quote-only escaping leaves a value a scraper cannot read. */
  lemma QuoteOnlyEscapingBreaksOnBackslash()
    ensures EscapeLabel("a\\") == "a\\"
    ensures ReadLabelValue(EscapeLabel("a\\")) == None
  {
    var s: string := ['a', '\\'];
    assert s == "a\\";
    assert '"' !in s;
    assert s[1..] == ['\\'];
    assert ReadLabelValue(['\\']) == None;
  }

  /** Escaping as the exposition format asks: backslash, double quote and line feed. */
  function EscapeLabelValue(s: string): (r: string)
    ensures forall i :: 0 <= i < |r| ==> r[i] != '\n'
  {
    if s == [] then []
    else
      (if s[0] == '\\' then ['\\', '\\']
       else if s[0] == '"' then ['\\', '"']
       else if s[0] == '\n' then ['\\', 'n']
       else [s[0]])
      + EscapeLabelValue(s[1..])
  }

  /** Every node id survives the corrected escaping and a scraper's reading. */
  lemma {:induction false} EscapeLabelValueReadBack(s: string)
    ensures ReadLabelValue(EscapeLabelValue(s)) == Some(s)
  {
    if s != [] {
      var rest := EscapeLabelValue(s[1..]);
      EscapeLabelValueReadBack(s[1..]);
      var c := s[0];
      if c == '\\' || c == '"' || c == '\n' {
        var e := if c == '\\' then '\\' else if c == '"' then '"' else 'n';
        assert EscapeLabelValue(s) == ['\\', e] + rest;
        assert (['\\', e] + rest)[2..] == rest;
      } else {
        assert EscapeLabelValue(s) == [c] + rest;
        assert ([c] + rest)[1..] == rest;
      }
      assert [c] + s[1..] == s;
    }
  }

  // ----- the collector -----

  class MetricsCollector {
    var received: map<string, int>
    var sent: map<string, int>
    var errors: map<string, int>
    var forwarded: int
    var dropped: int
    var filtered: int
    var connectedRadios: int
    var activeNodes: int
    var trackedMessages: int
    var processingTimes: seq<real>
    var maxProcessingTime: real
    var minProcessingTime: Extended
    var nodeMessageCounts: map<string, int>
    /** Every duration recorded so far, oldest first. */
    ghost var history: seq<real>

    ghost predicate Valid()
      reads this`received, this`sent, this`errors, this`processingTimes
      reads this`maxProcessingTime, this`minProcessingTime, this`history
    {
      && received.Keys == Radios && sent.Keys == Radios && errors.Keys == Radios
      && processingTimes == Recent(history)
      && maxProcessingTime == MaxOf(history)
      && minProcessingTime == MinOf(history)
    }

    constructor ()
      ensures Valid()
      ensures received == map["radio1" := 0, "radio2" := 0]
      ensures sent == received && errors == received
      ensures forwarded == 0 && dropped == 0 && filtered == 0
      ensures connectedRadios == 0 && activeNodes == 0 && trackedMessages == 0
      ensures processingTimes == [] && history == []
      ensures maxProcessingTime == 0.0 && minProcessingTime == Infinite
      ensures nodeMessageCounts == map[]
    {
      received := map["radio1" := 0, "radio2" := 0];
      sent := map["radio1" := 0, "radio2" := 0];
      errors := map["radio1" := 0, "radio2" := 0];
      forwarded, dropped, filtered := 0, 0, 0;
      connectedRadios, activeNodes, trackedMessages := 0, 0, 0;
      processingTimes := [];
      maxProcessingTime := 0.0;
      minProcessingTime := Infinite;
      nodeMessageCounts := map[];
      history := [];
    }

    method IncrementReceived(radio: string, count: int)
      requires Valid()
      modifies this`received
      ensures Valid()
      ensures received == Bumped(old(received), radio, count)
    {
      if radio in received {
        received := received[radio := received[radio] + count];
      }
    }

    method IncrementSent(radio: string, count: int)
      requires Valid()
      modifies this`sent
      ensures Valid()
      ensures sent == Bumped(old(sent), radio, count)
    {
      if radio in sent {
        sent := sent[radio := sent[radio] + count];
      }
    }

    method IncrementErrors(radio: string, count: int)
      requires Valid()
      modifies this`errors
      ensures Valid()
      ensures errors == Bumped(old(errors), radio, count)
    {
      if radio in errors {
        errors := errors[radio := errors[radio] + count];
      }
    }

    method IncrementForwarded(count: int)
      modifies this`forwarded
      ensures forwarded == old(forwarded) + count
    {
      forwarded := forwarded + count;
    }

    method IncrementDropped(count: int)
      modifies this`dropped
      ensures dropped == old(dropped) + count
    {
      dropped := dropped + count;
    }

    method IncrementFiltered(count: int)
      modifies this`filtered
      ensures filtered == old(filtered) + count
    {
      filtered := filtered + count;
    }

    method SetConnectedRadios(count: int)
      modifies this`connectedRadios
      ensures connectedRadios == count
    {
      connectedRadios := count;
    }

    method SetActiveNodes(count: int)
      modifies this`activeNodes
      ensures activeNodes == count
    {
      activeNodes := count;
    }

    method SetTrackedMessages(count: int)
      modifies this`trackedMessages
      ensures trackedMessages == count
    {
      trackedMessages := count;
    }

    /**
     * record_processing_time: append to the window (dropping the oldest
     * sample past WindowSize), raise the maximum, and lower the minimum
     * with a positive duration.
     */
    method RecordProcessingTime(durationMs: real)
      requires Valid()
      modifies this`processingTimes, this`maxProcessingTime, this`minProcessingTime, this`history
      ensures Valid()
      ensures history == old(history) + [durationMs]
      ensures processingTimes == Slide(old(processingTimes), durationMs)
      ensures maxProcessingTime >= old(maxProcessingTime) && maxProcessingTime >= durationMs
      ensures durationMs > 0.0 ==> AtMost(minProcessingTime, durationMs)
      ensures durationMs <= 0.0 ==> minProcessingTime == old(minProcessingTime)
    {
      SlideRecent(history, durationMs);
      assert (history + [durationMs])[..|history|] == history;
      history := history + [durationMs];
      processingTimes := processingTimes + [durationMs];
      if |processingTimes| > WindowSize {
        processingTimes := processingTimes[1..];
      }
      if durationMs > maxProcessingTime {
        maxProcessingTime := durationMs;
      }
      if durationMs > 0.0 {
        if minProcessingTime.Infinite? || durationMs < minProcessingTime.value {
          minProcessingTime := Finite(durationMs);
        }
      }
    }

    method IncrementNodeMessages(nodeId: string, count: int)
      modifies this`nodeMessageCounts
      ensures nodeMessageCounts == NodeBumped(old(nodeMessageCounts), nodeId, count)
    {
      if nodeId !in nodeMessageCounts {
        nodeMessageCounts := nodeMessageCounts[nodeId := 0];
      }
      nodeMessageCounts := nodeMessageCounts[nodeId := nodeMessageCounts[nodeId] + count];
    }
  }
}
