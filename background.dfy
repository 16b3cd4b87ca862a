/**
 * The post-pass `detecter_flux_persistants`: a conversation with more than 50
 * packets whose last recorded timestamp lies more than 20 seconds after its
 * first is reported as a background flow, in table order.
 */
module BackgroundFlows {
  import opened Conversations

  /** One entry of `flux_arriere_plan`. */
  datatype BackgroundFlow = BackgroundFlow(conversation: string, packets: nat, bytes: nat, duration: real, throughput: real)

  /** The duration of a conversation: last appended timestamp minus first appended one. */
  function Span(s: ConversationStats): real
    requires |s.timestamps| > 0
  {
    s.timestamps[|s.timestamps| - 1] - s.timestamps[0]
  }

  /** The three nested tests: more than 50 packets, at least two timestamps, a span over 20 seconds. */
  predicate Persistent(s: ConversationStats)
  {
    s.packets > 50 && |s.timestamps| > 1 && Span(s) > 20.0
  }

  /** The flow reported for a conversation; throughput is 0 for a zero duration. */
  function FlowOf(key: string, s: ConversationStats): BackgroundFlow
    requires |s.timestamps| > 0
  {
    var duration := Span(s);
    BackgroundFlow(key, s.packets, s.bytes, duration, if duration > 0.0 then s.bytes as real / duration else 0.0)
  }

  /** What every reported flow satisfies. */
  predicate FlowValid(f: BackgroundFlow)
  {
    f.packets > 50 && f.duration > 20.0 && f.throughput == f.bytes as real / f.duration
  }

  /** The flows reported for the conversations `keys`, visited in that order. */
  function PersistentFlows(keys: seq<string>, stats: map<string, ConversationStats>): (r: seq<BackgroundFlow>)
    requires forall i :: 0 <= i < |keys| ==> keys[i] in stats
    ensures |r| <= |keys|
    ensures forall f :: f in r ==> FlowValid(f)
  {
    if keys == [] then []
    else
      var key := keys[|keys| - 1];
      PersistentFlows(keys[..|keys| - 1], stats)
      + (if Persistent(stats[key]) then [FlowOf(key, stats[key])] else [])
  }

  /** One more conversation visited: its flow, if any, goes at the end. */
  lemma PersistentFlowsStep(keys: seq<string>, i: nat, stats: map<string, ConversationStats>)
    requires i < |keys|
    requires forall j :: 0 <= j < |keys| ==> keys[j] in stats
    ensures PersistentFlows(keys[..i + 1], stats)
         == PersistentFlows(keys[..i], stats)
            + (if Persistent(stats[keys[i]]) then [FlowOf(keys[i], stats[keys[i]])] else [])
  {
    assert keys[..i + 1][..i] == keys[..i];
  }

  /**
   * A flow is reported exactly for each visited conversation that is
   * persistent, and it carries that conversation's counts.
   */
  lemma {:induction false} PersistentFlowsIff(keys: seq<string>, stats: map<string, ConversationStats>, f: BackgroundFlow)
    requires forall i :: 0 <= i < |keys| ==> keys[i] in stats
    ensures f in PersistentFlows(keys, stats) <==>
      exists i :: 0 <= i < |keys| && Persistent(stats[keys[i]]) && f == FlowOf(keys[i], stats[keys[i]])
  {
    if keys != [] {
      var prefix := keys[..|keys| - 1];
      PersistentFlowsIff(prefix, stats, f);
      if f in PersistentFlows(keys, stats) && f !in PersistentFlows(prefix, stats) {
        assert Persistent(stats[keys[|keys| - 1]]) && f == FlowOf(keys[|keys| - 1], stats[keys[|keys| - 1]]);
      }
      if i :| 0 <= i < |keys| && Persistent(stats[keys[i]]) && f == FlowOf(keys[i], stats[keys[i]]) {
        if i < |keys| - 1 {
          assert prefix[i] == keys[i];
        }
      }
    }
  }

  /**
   * The thresholds are strict, and the duration is last minus first in
   * arrival order, not the spread of the timestamps.
   */
  lemma Thresholds()
    ensures Persistent(ConversationStats(51, 0, [0.0, 20.01]))
    ensures !Persistent(ConversationStats(51, 0, [0.0, 20.0]))
    ensures !Persistent(ConversationStats(50, 0, [0.0, 100.0]))
    ensures !Persistent(ConversationStats(51, 0, [100.0]))
    ensures !Persistent(ConversationStats(51, 0, [0.0, 100.0, 10.0]))
    ensures FlowOf("a → b", ConversationStats(51, 1000, [0.0, 25.0])).throughput == 40.0
  {
  }
}
