/**
 * `AnalyseurTraficSuspect` itself: one object whose methods update its
 * accumulators in place. The constructor and the methods the analyser's
 * callers use (`Analyse`, `AnalysePacket`, `DetectPersistentFlows`,
 * `AnalyseDnsFrequency`) are proved against the function of module `Engine`
 * that says what they do to the whole state, and keep `Engine.Invariant`.
 * The helper methods they call are proved to change their own accumulator as
 * the functions of `Conversations`, `Findings`, `BackgroundFlows` or
 * `DnsFrequency` say, and to leave the others unchanged; `CountDomains`
 * changes no state.
 */
module Analyseur {
  import opened Wrappers
  import opened Text
  import opened Packets
  import opened Findings
  import opened Conversations
  import opened BackgroundFlows
  import opened DnsFrequency
  import opened Engine

  /**
   * What opening and iterating the capture file gives: no file, or the packets
   * decoded before the stream ended, with whether it ended on a decoding error.
   */
  datatype Capture = FileNotFound | Decoded(packets: seq<Packet>, decodeError: bool)

  class TrafficAnalyser {
    var events: seq<Event>                                  // flux_suspects
    var protocolStats: map<string, nat>                     // stats_protocoles
    var conversationOrder: seq<string>                      // conversations, key order
    var conversations: map<string, ConversationStats>       // conversations
    var dnsLog: seq<DnsObservation>                         // requetes_dns
    var backgroundFlows: seq<BackgroundFlow>                // flux_arriere_plan

    function Snapshot(): State
      reads this
    {
      State(events, protocolStats, Table(conversationOrder, conversations), dnsLog, backgroundFlows)
    }

    ghost predicate Valid()
      reads this
    {
      Invariant(Snapshot())
    }

    constructor ()
      ensures Valid() && Snapshot() == Initial
    {
      events := [];
      protocolStats := map[];
      conversationOrder := [];
      conversations := map[];
      dnsLog := [];
      backgroundFlows := [];
    }

    /** `analyser`: feed every decoded packet in order; report whether the run completed. */
    method Analyse(capture: Capture) returns (completed: bool)
      requires Valid()
      modifies this
      ensures Valid()
      ensures completed <==> capture.Decoded? && !capture.decodeError
      ensures capture.FileNotFound? ==> Snapshot() == old(Snapshot())
      ensures capture.Decoded? ==> Snapshot() == Ingest(old(Snapshot()), capture.packets)
    {
      match capture
      case FileNotFound =>
        completed := false;
      case Decoded(packets, decodeError) =>
        var i := 0;
        while i < |packets|
          invariant 0 <= i <= |packets|
          invariant Valid()
          invariant Snapshot() == Ingest(old(Snapshot()), packets[..i])
        {
          AnalysePacket(packets[i]);
          assert packets[..i + 1][..i] == packets[..i];
          i := i + 1;
        }
        assert packets[..i] == packets;
        completed := !decodeError;
    }

    /** `_analyser_paquet`: the five updates, each behind its `hasattr` test. */
    method AnalysePacket(p: Packet)
      requires Valid()
      modifies this
      ensures Valid()
      ensures Snapshot() == Step(old(Snapshot()), p)
    {
      ghost var before := Snapshot();
      if p.highestLayer.Some? {
        var layer := p.highestLayer.value;
        protocolStats := protocolStats[layer := ProtocolCount(protocolStats, layer) + 1];
      }
      assert protocolStats == CountProtocol(before.protocolStats, p);
      if p.ip.Some? {
        AnalyseConversation(p);
      }
      assert Table(conversationOrder, conversations) == Step(before, p).conversations;
      if QueryName(p).Some? {
        AnalyseDns(p);
      }
      assert dnsLog == Step(before, p).dnsLog;
      assert events == before.events + DnsEvents(p);
      if UdpDstPort(p) == Some("443") {
        DetectQuic(p);
      }
      assert events == before.events + DnsEvents(p) + QuicEvents(p);
      if p.tcp.Some? {
        DetectSuspiciousPorts(p);
      }
      StepEvents(before, p);
      ghost var after := Step(before, p);
      assert events == after.events && protocolStats == after.protocolStats && dnsLog == after.dnsLog;
      assert backgroundFlows == after.flows;
      StepInvariant(before, p);
    }

    /** `_analyser_conversation`: count the packet on its own directional key. */
    method AnalyseConversation(p: Packet)
      modifies this
      ensures Table(conversationOrder, conversations) == Record(old(Table(conversationOrder, conversations)), p)
      ensures events == old(events) && protocolStats == old(protocolStats)
      ensures dnsLog == old(dnsLog) && backgroundFlows == old(backgroundFlows)
    {
      match Addresses(p)
      case None =>
      case Some((src, dst)) =>
        var key := Label(src, dst);
        // the defaultdict entry, created on first access
        var stats := if key in conversations then conversations[key] else FreshStats;
        if key !in conversations {
          conversationOrder := conversationOrder + [key];
        }
        stats := stats.(packets := stats.packets + 1);
        if p.length.Some? {
          stats := stats.(bytes := stats.bytes + p.length.value);
        }
        if p.sniffTimestamp.Some? {
          stats := stats.(timestamps := stats.timestamps + [p.sniffTimestamp.value]);
        }
        conversations := conversations[key := stats];
    }

    /** `_analyser_dns`: log the query, then apply the suspicious-domain rule. */
    method AnalyseDns(p: Packet)
      modifies this
      ensures dnsLog == old(dnsLog) + AsSeq(ObservationOf(p))
      ensures events == old(events) + DnsEvents(p)
      ensures protocolStats == old(protocolStats) && backgroundFlows == old(backgroundFlows)
      ensures conversationOrder == old(conversationOrder) && conversations == old(conversations)
    {
      match (QueryName(p), DnsSource(p))
      case (Some(domain), Some(src)) =>
        var timestamp := Timestamp(p);
        dnsLog := dnsLog + [DnsObservation(domain, timestamp, src)];
        if SuspiciousDomain(domain) {
          events := events + [Event(SuspiciousDns, "Domaine suspect: " + domain, High, timestamp)];
        }
      case _ =>
    }

    /** `_detecter_quic`: one MOYENNE finding when both addresses can be read. */
    method DetectQuic(p: Packet)
      modifies this
      ensures events == old(events) + AsSeq(QuicFinding(p))
      ensures protocolStats == old(protocolStats) && backgroundFlows == old(backgroundFlows) && dnsLog == old(dnsLog)
      ensures conversationOrder == old(conversationOrder) && conversations == old(conversations)
    {
      match Addresses(p)
      case Some((src, dst)) =>
        events := events + [Event(BackgroundQuic, src + " → " + dst + " (UDP 443)", Medium, Timestamp(p))];
      case None =>
    }

    /** `_detecter_ports_suspects`: one CRITIQUE finding for a listed destination port. */
    method DetectSuspiciousPorts(p: Packet)
      modifies this
      ensures events == old(events) + AsSeq(PortFinding(p))
      ensures protocolStats == old(protocolStats) && backgroundFlows == old(backgroundFlows) && dnsLog == old(dnsLog)
      ensures conversationOrder == old(conversationOrder) && conversations == old(conversations)
    {
      match p.tcp {
        case Some(PortLayer(Some(text))) =>
          match ParseInt(text) {
            case Some(port) =>
              if port in MaliciousPorts {
                match Addresses(p) {
                  case Some((src, dst)) =>
                    events := events + [Event(MaliciousPort,
                                              "Connexion vers port " + IntToDecimal(port) + " (" + src + " → " + dst + ")",
                                              Critical, Timestamp(p))];
                  case None =>
                }
              }
            case None =>
          }
        case _ =>
      }
    }

    /** `detecter_flux_persistants`: append a flow for each persistent conversation, in table order. */
    method DetectPersistentFlows()
      requires Valid()
      modifies this
      ensures Valid()
      ensures Snapshot() == AfterPersistentFlows(old(Snapshot()))
    {
      AppendPersistentFlows();
      PostPassesInvariant(old(Snapshot()));
    }

    /** The loop of `detecter_flux_persistants` over `conversations.items()`. */
    method AppendPersistentFlows()
      requires forall i :: 0 <= i < |conversationOrder| ==> conversationOrder[i] in conversations
      modifies this
      ensures conversationOrder == old(conversationOrder) && conversations == old(conversations)
      ensures backgroundFlows == old(backgroundFlows) + PersistentFlows(conversationOrder, conversations)
      ensures events == old(events) && protocolStats == old(protocolStats) && dnsLog == old(dnsLog)
    {
      var i := 0;
      while i < |conversationOrder|
        invariant 0 <= i <= |conversationOrder|
        invariant conversationOrder == old(conversationOrder) && conversations == old(conversations)
        invariant events == old(events) && protocolStats == old(protocolStats) && dnsLog == old(dnsLog)
        invariant backgroundFlows == old(backgroundFlows) + PersistentFlows(conversationOrder[..i], conversations)
      {
        var key := conversationOrder[i];
        var stats := conversations[key];
        if stats.packets > 50 {
          if |stats.timestamps| > 1 {
            var duration := stats.timestamps[|stats.timestamps| - 1] - stats.timestamps[0];
            if duration > 20.0 {
              var throughput := if duration > 0.0 then stats.bytes as real / duration else 0.0;
              backgroundFlows := backgroundFlows + [BackgroundFlow(key, stats.packets, stats.bytes, duration, throughput)];
            }
          }
        }
        PersistentFlowsStep(conversationOrder, i, conversations);
        i := i + 1;
      }
      assert conversationOrder[..i] == conversationOrder;
    }

    /** `analyser_frequence_dns`: count each domain, then report those seen more than 10 times. */
    method AnalyseDnsFrequency()
      requires Valid()
      modifies this
      ensures Valid()
      ensures Snapshot() == AfterDnsFrequency(old(Snapshot()))
    {
      var domains, counts := CountDomains(dnsLog);
      ReportFrequentDomains(domains, counts, multiset(Domains(dnsLog)));
      PostPassesInvariant(old(Snapshot()));
    }

    /** The reporting loop of `analyser_frequence_dns`, over the dictionary's keys in order. */
    method ReportFrequentDomains(domains: seq<string>, counts: map<string, nat>, ghost occurrences: multiset<string>)
      requires forall d :: d in domains ==> d in counts && counts[d] == occurrences[d]
      modifies this
      ensures events == old(events) + Render(Frequent(domains, occurrences), occurrences)
      ensures protocolStats == old(protocolStats) && dnsLog == old(dnsLog) && backgroundFlows == old(backgroundFlows)
      ensures conversationOrder == old(conversationOrder) && conversations == old(conversations)
    {
      var added: seq<Event> := [];
      var j := 0;
      while j < |domains|
        invariant 0 <= j <= |domains|
        invariant added == Render(Frequent(domains[..j], occurrences), occurrences)
        modifies {}
      {
        var domain := domains[j];
        var freq := counts[domain];
        ReportStep(domains, j, occurrences);
        if freq > 10 {
          added := added + [FrequencyEvent(domain, freq)];
        }
        j := j + 1;
      }
      assert domains[..j] == domains;
      events := events + added;
    }
  }

  /**
   * The counting loop of `analyser_frequence_dns`: the dictionary `domaines`
   * as its keys in insertion order and its counts. Each domain of the log is a
   * key exactly once, counted as often as it occurs.
   */
  method CountDomains(log: seq<DnsObservation>) returns (domains: seq<string>, counts: map<string, nat>)
    ensures domains == Distinct(Domains(log))
    ensures forall d :: d in counts <==> d in domains
    ensures forall d :: d in counts ==> counts[d] == Occurrences(log, d)
  {
    ghost var all := Domains(log);
    domains, counts := [], map[];
    var i := 0;
    while i < |log|
      invariant 0 <= i <= |log|
      invariant domains == Distinct(all[..i])
      invariant forall d :: d in counts <==> d in domains
      invariant forall d :: d in counts ==> counts[d] == multiset(all[..i])[d]
    {
      var d := log[i].domain;
      DistinctStep(all, i);
      MultisetStep(all, i);
      var seen := if d in counts then counts[d] else 0;
      if d !in counts {
        domains := domains + [d];
      }
      counts := counts[d := seen + 1];
      i := i + 1;
    }
    assert all[..i] == all;
  }
}
