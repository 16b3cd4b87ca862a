/**
 * The whole analyser state as a value, and the functions that say what each
 * method of `AnalyseurTraficSuspect` does to it. The class in module
 * `Analyseur` is proved against these functions; the lemmas here state what
 * the accumulated state satisfies after any sequence of packets.
 */
module Engine {
  import opened Wrappers
  import opened Text
  import opened Packets
  import opened Findings
  import opened Conversations
  import opened BackgroundFlows
  import opened DnsFrequency

  /** `flux_suspects`, `stats_protocoles`, `conversations`, `requetes_dns`, `flux_arriere_plan`. */
  datatype State = State(
    events: seq<Event>,
    protocolStats: map<string, nat>,
    conversations: Table,
    dnsLog: seq<DnsObservation>,
    flows: seq<BackgroundFlow>)

  /** The state `__init__` builds: every accumulator empty. */
  const Initial := State([], map[], EmptyTable, [], [])

  /** What every reachable state satisfies. */
  predicate Invariant(s: State)
  {
    && TableValid(s.conversations)
    && (forall e :: e in s.events ==> WellFormed(e))
    && (forall h :: h in s.protocolStats ==> s.protocolStats[h] >= 1)
    && (forall f :: f in s.flows ==> FlowValid(f))
  }

  /** The count of protocol `h`; the `defaultdict(int)` reads a new key as 0. */
  function ProtocolCount(stats: map<string, nat>, h: string): nat
  {
    if h in stats then stats[h] else 0
  }

  /** One more packet counted on its highest layer, when the packet names one. */
  function CountProtocol(stats: map<string, nat>, p: Packet): (r: map<string, nat>)
    ensures forall h :: ProtocolCount(r, h) == ProtocolCount(stats, h) + (if p.highestLayer == Some(h) then 1 else 0)
    ensures forall h :: h in r <==> h in stats || p.highestLayer == Some(h)
  {
    match p.highestLayer
    case Some(h) => stats[h := ProtocolCount(stats, h) + 1]
    case None => stats
  }

  /** `_analyser_paquet`: the five updates for one packet. */
  function Step(s: State, p: Packet): State
  {
    State(
      s.events + PacketEvents(p),
      CountProtocol(s.protocolStats, p),
      if p.ip.Some? then Record(s.conversations, p) else s.conversations,
      s.dnsLog + AsSeq(ObservationOf(p)),
      s.flows)
  }

  /** A packet without an IP layer has no addresses, so the guard on `ip` changes nothing. */
  lemma StepConversations(s: State, p: Packet)
    ensures Step(s, p).conversations == Record(s.conversations, p)
  {
    RecordEffect(s.conversations, p);
  }

  /**
   * The DNS log after one packet: unchanged without a query name; otherwise one
   * entry carrying the name, the capture time (0 when absent) and the source
   * address ('Unknown' without an IP layer), unless the IP layer hides its source.
   */
  lemma StepDnsLog(s: State, p: Packet)
    ensures QueryName(p).None? ==> Step(s, p).dnsLog == s.dnsLog
    ensures QueryName(p).Some? && p.ip.None? ==>
      Step(s, p).dnsLog == s.dnsLog + [DnsObservation(QueryName(p).value, Timestamp(p), "Unknown")]
    ensures QueryName(p).Some? && p.ip.Some? && p.ip.value.src.Some? ==>
      Step(s, p).dnsLog == s.dnsLog + [DnsObservation(QueryName(p).value, Timestamp(p), p.ip.value.src.value)]
    ensures QueryName(p).Some? && p.ip.Some? && p.ip.value.src.None? ==> Step(s, p).dnsLog == s.dnsLog
    ensures p.sniffTimestamp.None? ==> forall o :: o in Step(s, p).dnsLog[|s.dnsLog|..] ==> o.timestamp == 0.0
  {
    assert Step(s, p).dnsLog[|s.dnsLog|..] == AsSeq(ObservationOf(p));
  }

  /** The findings of a step, rule by rule. */
  lemma StepEvents(s: State, p: Packet)
    ensures Step(s, p).events == s.events + DnsEvents(p) + QuicEvents(p) + PortEvents(p)
  {
  }

  /** The `for paquet in capture` loop of `analyser`. */
  function Ingest(s: State, packets: seq<Packet>): State
  {
    if packets == [] then s
    else Step(Ingest(s, packets[..|packets| - 1]), packets[|packets| - 1])
  }

  /** `detecter_flux_persistants`: append the flows of the table, in table order. */
  function AfterPersistentFlows(s: State): State
    requires TableValid(s.conversations)
  {
    s.(flows := s.flows + PersistentFlows(s.conversations.order, s.conversations.stats))
  }

  /** `analyser_frequence_dns`: append the frequency findings of the DNS log. */
  function AfterDnsFrequency(s: State): State
  {
    s.(events := s.events + FrequencyEvents(s.dnsLog))
  }

  // ----- invariants ----------------------------------------------------------

  lemma StepInvariant(s: State, p: Packet)
    requires Invariant(s)
    ensures Invariant(Step(s, p))
  {
    PacketEventCounts(p, MaliciousPort);
    RecordEffect(s.conversations, p);
  }

  lemma {:induction false} IngestInvariant(s: State, packets: seq<Packet>)
    requires Invariant(s)
    ensures Invariant(Ingest(s, packets))
  {
    if packets != [] {
      IngestInvariant(s, packets[..|packets| - 1]);
      StepInvariant(Ingest(s, packets[..|packets| - 1]), packets[|packets| - 1]);
    }
  }

  lemma PostPassesInvariant(s: State)
    requires Invariant(s)
    ensures Invariant(AfterPersistentFlows(s))
    ensures Invariant(AfterDnsFrequency(s))
  {
    FrequencyEventsSpec(s.dnsLog);
  }

  // ----- what ingestion accumulates --------------------------------------------

  /** Number of packets whose highest layer is `h`. */
  function LayerCount(packets: seq<Packet>, h: string): nat
  {
    if packets == [] then 0
    else LayerCount(packets[..|packets| - 1], h) + (if packets[|packets| - 1].highestLayer == Some(h) then 1 else 0)
  }

  /** Number of packets on which the rule for `k` fires. */
  function Firings(packets: seq<Packet>, k: EventKind): nat
  {
    if packets == [] then 0
    else Firings(packets[..|packets| - 1], k) + (if RuleFires(packets[|packets| - 1], k) then 1 else 0)
  }

  /** Number of packets that append to the DNS log. */
  function Observed(packets: seq<Packet>): nat
  {
    if packets == [] then 0
    else Observed(packets[..|packets| - 1]) + (if ObservationOf(packets[|packets| - 1]).Some? then 1 else 0)
  }

  /** Each protocol count grows by the number of packets naming it as highest layer. */
  lemma {:induction false} IngestProtocolCounts(s: State, packets: seq<Packet>, h: string)
    ensures ProtocolCount(Ingest(s, packets).protocolStats, h) == ProtocolCount(s.protocolStats, h) + LayerCount(packets, h)
  {
    if packets != [] {
      IngestProtocolCounts(s, packets[..|packets| - 1], h);
    }
  }

  /**
   * Findings are only appended, and each kind grows by the number of packets
   * firing its rule: one finding per firing, none of 'DNS Fréquent'.
   */
  lemma {:induction false} IngestEvents(s: State, packets: seq<Packet>, k: EventKind)
    ensures |Ingest(s, packets).events| >= |s.events|
    ensures Ingest(s, packets).events[..|s.events|] == s.events
    ensures CountKind(Ingest(s, packets).events, k) == CountKind(s.events, k) + Firings(packets, k)
  {
    if packets != [] {
      var before := Ingest(s, packets[..|packets| - 1]);
      var p := packets[|packets| - 1];
      IngestEvents(s, packets[..|packets| - 1], k);
      CountKindAppend(before.events, PacketEvents(p), k);
      PacketEventCounts(p, k);
      assert (before.events + PacketEvents(p))[..|s.events|] == before.events[..|s.events|];
    }
  }

  /**
   * The DNS log is only appended to, one entry per packet that has a query
   * name and a readable source; ingestion leaves the flows alone.
   */
  lemma {:induction false} IngestDnsLog(s: State, packets: seq<Packet>)
    ensures |Ingest(s, packets).dnsLog| == |s.dnsLog| + Observed(packets)
    ensures Ingest(s, packets).dnsLog[..|s.dnsLog|] == s.dnsLog
    ensures Ingest(s, packets).flows == s.flows
  {
    if packets != [] {
      var before := Ingest(s, packets[..|packets| - 1]);
      var p := packets[|packets| - 1];
      IngestDnsLog(s, packets[..|packets| - 1]);
      assert (before.dnsLog + AsSeq(ObservationOf(p)))[..|s.dnsLog|] == before.dnsLog[..|s.dnsLog|];
    }
  }

  /** Protocol counts never decrease, whatever the packets. */
  lemma ProtocolCountsGrow(s: State, packets: seq<Packet>, h: string)
    ensures ProtocolCount(Ingest(s, packets).protocolStats, h) >= ProtocolCount(s.protocolStats, h)
    ensures h in s.protocolStats ==> h in Ingest(s, packets).protocolStats
  {
    IngestProtocolCounts(s, packets, h);
  }

  // ----- the three-packet run ----------------------------------------------------

  const QuicPacket := Packet(None, Some(IpLayer(Some("10.0.0.1"), Some("8.8.8.8"))), None, None,
                             Some(PortLayer(Some("443"))), None, None)
  const DnsPacket := Packet(None, Some(IpLayer(Some("10.0.0.1"), None)), None, None,
                            None, None, Some(DnsLayer(Some("update.tk"))))
  const PortPacket := Packet(None, Some(IpLayer(Some("10.0.0.1"), Some("1.2.3.4"))), None, None,
                             None, Some(PortLayer(Some("4444"))), None)

  /** The findings of a packet whose only firing rule is that of `k`. */
  lemma SingleFinding(p: Packet, k: EventKind)
    requires RuleFires(p, k)
    requires forall k' :: k' != k ==> !RuleFires(p, k')
    ensures |PacketEvents(p)| == 1 && PacketEvents(p)[0].kind == k && PacketEvents(p)[0].severity == SeverityOf(k)
  {
    DnsEventsShape(p);
    QuicEventsShape(p);
    PortEventsShape(p);
    assert !RuleFires(p, SuspiciousDns) || !RuleFires(p, BackgroundQuic) || !RuleFires(p, MaliciousPort);
  }

  lemma PortTextParses()
    ensures ParseInt("4444") == Some(4444)
  {
    Decimal4444();
    ParseIntOfDecimal("", 4444, "");
    assert NatToDecimal(4) == "4";
    assert NatToDecimal(44) == "44";
    assert NatToDecimal(444) == "444";
    assert NatToDecimal(4444) == "4444";
    assert "" + "4444" + "" == "4444";
  }

  lemma QuicPacketFinding()
    ensures |PacketEvents(QuicPacket)| == 1
    ensures PacketEvents(QuicPacket)[0].kind == BackgroundQuic && PacketEvents(QuicPacket)[0].severity == Medium
    ensures ObservationOf(QuicPacket) == None
  {
    SingleFinding(QuicPacket, BackgroundQuic);
  }

  lemma DnsPacketFinding()
    ensures |PacketEvents(DnsPacket)| == 1
    ensures PacketEvents(DnsPacket)[0].kind == SuspiciousDns && PacketEvents(DnsPacket)[0].severity == High
    ensures ObservationOf(DnsPacket) == Some(DnsObservation("update.tk", 0.0, "10.0.0.1"))
  {
    assert OccursAt("update.tk", SuspiciousTlds[0], 6);
    SuspiciousTldAnywhere("update.tk", 0, 6);
    SingleFinding(DnsPacket, SuspiciousDns);
  }

  lemma PortPacketFinding()
    ensures |PacketEvents(PortPacket)| == 1
    ensures PacketEvents(PortPacket)[0].kind == MaliciousPort && PacketEvents(PortPacket)[0].severity == Critical
    ensures ObservationOf(PortPacket) == None
  {
    PortTextParses();
    SingleFinding(PortPacket, MaliciousPort);
  }

  /**
   * A UDP/443 packet, a query for "update.tk" and a TCP packet to port 4444
   * give three findings, QUIC (MOYENNE), DNS Suspect (HAUTE) and Port
   * Malveillant (CRITIQUE) in that order, and two conversations of one packet
   * each; the DNS packet has no destination address and opens none.
   */
  lemma ThreePacketRun()
    ensures var s := Ingest(Initial, [QuicPacket, DnsPacket, PortPacket]);
      && |s.events| == 3
      && s.events[0].kind == BackgroundQuic && s.events[0].severity == Medium
      && s.events[1].kind == SuspiciousDns && s.events[1].severity == High
      && s.events[2].kind == MaliciousPort && s.events[2].severity == Critical
      && s.conversations.order == [Label("10.0.0.1", "8.8.8.8"), Label("10.0.0.1", "1.2.3.4")]
      && Lookup(s.conversations, Label("10.0.0.1", "8.8.8.8")).packets == 1
      && Lookup(s.conversations, Label("10.0.0.1", "1.2.3.4")).packets == 1
      && s.dnsLog == [DnsObservation("update.tk", 0.0, "10.0.0.1")]
  {
    IngestThree(Initial, QuicPacket, DnsPacket, PortPacket);
    QuicPacketFinding();
    DnsPacketFinding();
    PortPacketFinding();
    ThreeFindings(Initial, QuicPacket, DnsPacket, PortPacket);
    ThreePacketConversations();
  }

  /** Three packets of one finding each leave those findings in arrival order. */
  lemma ThreeFindings(s: State, a: Packet, b: Packet, c: Packet)
    requires |PacketEvents(a)| == 1 && |PacketEvents(b)| == 1 && |PacketEvents(c)| == 1
    ensures var r := Step(Step(Step(s, a), b), c);
      r.events == s.events + [PacketEvents(a)[0], PacketEvents(b)[0], PacketEvents(c)[0]]
  {
  }

  lemma IngestSnoc(s: State, packets: seq<Packet>, p: Packet)
    ensures Ingest(s, packets + [p]) == Step(Ingest(s, packets), p)
  {
    assert (packets + [p])[..|packets|] == packets;
  }

  lemma IngestThree(s: State, a: Packet, b: Packet, c: Packet)
    ensures Ingest(s, [a, b, c]) == Step(Step(Step(s, a), b), c)
  {
    IngestSnoc(s, [], a);
    assert [] + [a] == [a];
    IngestSnoc(s, [a], b);
    assert [a] + [b] == [a, b];
    IngestSnoc(s, [a, b], c);
    assert [a, b] + [c] == [a, b, c];
  }

  /** The first packet with addresses opens the first conversation, with one packet. */
  lemma FirstConversation(a: Packet, key: string)
    requires Addresses(a).Some? && key == Label(Addresses(a).value.0, Addresses(a).value.1)
    ensures var t := Step(Initial, a).conversations;
      && t.order == [key]
      && Lookup(t, key).packets == 1
      && forall other :: other != key ==> other !in t.stats
  {
    StepConversations(Initial, a);
    RecordEffect(EmptyTable, a);
  }

  /** A packet to a new key appends it and leaves the other conversations alone. */
  lemma NewConversation(s: State, c: Packet, key: string, old_key: string)
    requires Addresses(c).Some? && key == Label(Addresses(c).value.0, Addresses(c).value.1)
    requires key !in s.conversations.stats && old_key != key
    ensures var t := Step(s, c).conversations;
      && t.order == s.conversations.order + [key]
      && Lookup(t, key).packets == 1
      && Lookup(t, old_key) == Lookup(s.conversations, old_key)
  {
    StepConversations(s, c);
    RecordEffect(s.conversations, c);
  }

  /** Two packets from `x` to distinct destinations around one without addresses. */
  lemma TwoConversations(a: Packet, b: Packet, c: Packet, x: string, y: string, z: string)
    requires Addresses(a) == Some((x, y)) && Addresses(b) == None && Addresses(c) == Some((x, z)) && y != z
    ensures var t := Step(Step(Step(Initial, a), b), c).conversations;
      && t.order == [Label(x, y), Label(x, z)]
      && Lookup(t, Label(x, y)).packets == 1
      && Lookup(t, Label(x, z)).packets == 1
  {
    var k1, k2 := Label(x, y), Label(x, z);
    assert k1 != k2 by {
      assert k1[|x| + 3..] == y && k2[|x| + 3..] == z;
    }
    FirstConversation(a, k1);
    var s1 := Step(Initial, a);
    StepConversations(s1, b);
    RecordEffect(s1.conversations, b);
    var s2 := Step(s1, b);
    assert s2.conversations == s1.conversations;
    NewConversation(s2, c, k2, k1);
  }

  lemma ThreePacketConversations()
    ensures var t := Step(Step(Step(Initial, QuicPacket), DnsPacket), PortPacket).conversations;
      && t.order == [Label("10.0.0.1", "8.8.8.8"), Label("10.0.0.1", "1.2.3.4")]
      && Lookup(t, Label("10.0.0.1", "8.8.8.8")).packets == 1
      && Lookup(t, Label("10.0.0.1", "1.2.3.4")).packets == 1
  {
    assert "8.8.8.8"[0] != "1.2.3.4"[0];
    TwoConversations(QuicPacket, DnsPacket, PortPacket, "10.0.0.1", "8.8.8.8", "1.2.3.4");
  }
}
