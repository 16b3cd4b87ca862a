/**
 * The per-packet detection rules of `AnalyseurTraficSuspect`: the DNS log
 * entry and suspicious-domain rule of `_analyser_dns`, the UDP/443 rule of
 * `_detecter_quic` and the malicious-port rule of `_detecter_ports_suspects`.
 * Each rule is a function of one packet giving the finding it appends, if any.
 */
module Findings {
  import opened Wrappers
  import opened Text
  import opened Packets

  /** 'CRITIQUE', 'HAUTE', 'MOYENNE': the only severities the analyser emits. */
  datatype Severity = Critical | High | Medium

  /** 'Port Malveillant', 'DNS Suspect', 'QUIC en arrière-plan', 'DNS Fréquent'. */
  datatype EventKind = MaliciousPort | SuspiciousDns | BackgroundQuic | FrequentDns

  /** One entry of `flux_suspects`. */
  datatype Event = Event(kind: EventKind, detail: string, severity: Severity, timestamp: real)

  /** One entry of `requetes_dns`. */
  datatype DnsObservation = DnsObservation(domain: string, timestamp: real, source: string)

  function SeverityOf(k: EventKind): Severity
  {
    match k
    case MaliciousPort => Critical
    case SuspiciousDns => High
    case BackgroundQuic => Medium
    case FrequentDns => Medium
  }

  /** What holds of every finding the analyser appends. */
  predicate WellFormed(e: Event)
  {
    e.severity == SeverityOf(e.kind) && (e.kind == FrequentDns ==> e.timestamp == 0.0)
  }

  const SuspiciousTlds: seq<string> := [".tk", ".ml", ".ga", ".cf", ".gq"]
  const SuspiciousWords: seq<string> := ["temp", "tmp", "test", "malware", "c2", "cmd"]
  const MaliciousPorts: set<int> := {4444, 5555, 6666, 7777, 8080, 9999, 31337}

  /**
   * A suffix from `tlds_suspects` occurs in the raw domain (case-sensitive,
   * anywhere), or a word from `mots_suspects` occurs in the lower-cased domain.
   */
  predicate SuspiciousDomain(domain: string)
  {
    || (exists i :: 0 <= i < |SuspiciousTlds| && Contains(domain, SuspiciousTlds[i]))
    || (exists i :: 0 <= i < |SuspiciousWords| && Contains(ToLower(domain), SuspiciousWords[i]))
  }

  /** The `requetes_dns` entry `_analyser_dns` appends, if it gets that far. */
  function ObservationOf(p: Packet): Option<DnsObservation>
  {
    match (QueryName(p), DnsSource(p))
    case (Some(domain), Some(src)) => Some(DnsObservation(domain, Timestamp(p), src))
    case _ => None
  }

  /** The 'DNS Suspect' finding `_analyser_dns` appends after its log entry. */
  function DnsFinding(p: Packet): Option<Event>
  {
    match ObservationOf(p)
    case Some(o) =>
      if SuspiciousDomain(o.domain)
      then Some(Event(SuspiciousDns, "Domaine suspect: " + o.domain, High, o.timestamp))
      else None
    case None => None
  }

  /** The finding `_detecter_quic` appends; the port test is its caller's. */
  function QuicFinding(p: Packet): Option<Event>
  {
    match Addresses(p)
    case Some((src, dst)) =>
      Some(Event(BackgroundQuic, src + " → " + dst + " (UDP 443)", Medium, Timestamp(p)))
    case None => None
  }

  /**
   * The finding `_detecter_ports_suspects` appends: the TCP destination port text
   * must parse as an integer in `ports_malveillants`, and the detail must be able
   * to read both addresses.
   */
  function PortFinding(p: Packet): Option<Event>
  {
    match p.tcp
    case Some(PortLayer(Some(text))) =>
      (match ParseInt(text)
       case Some(port) =>
         if port in MaliciousPorts then
           match Addresses(p)
           case Some((src, dst)) =>
             Some(Event(MaliciousPort,
                        "Connexion vers port " + IntToDecimal(port) + " (" + src + " → " + dst + ")",
                        Critical, Timestamp(p)))
           case None => None
         else None
       case None => None)
    case _ => None
  }

  /** The three rule calls of `_analyser_paquet`, each behind its `hasattr` guard. */
  function DnsEvents(p: Packet): seq<Event>
  {
    if QueryName(p).Some? then AsSeq(DnsFinding(p)) else []
  }

  function QuicEvents(p: Packet): seq<Event>
  {
    if UdpDstPort(p) == Some("443") then AsSeq(QuicFinding(p)) else []
  }

  function PortEvents(p: Packet): seq<Event>
  {
    if p.tcp.Some? then AsSeq(PortFinding(p)) else []
  }

  /** The findings `_analyser_paquet` appends for one packet, in call order. */
  function PacketEvents(p: Packet): seq<Event>
  {
    DnsEvents(p) + QuicEvents(p) + PortEvents(p)
  }

  // ----- when each rule fires, stated on the packet's fields ------------------

  /** The malicious-port rule's firing condition, read off the packet. */
  predicate PortRuleFires(p: Packet)
  {
    && p.tcp.Some? && p.tcp.value.dstport.Some?
    && ParseInt(p.tcp.value.dstport.value).Some?
    && ParseInt(p.tcp.value.dstport.value).value in MaliciousPorts
    && Addresses(p).Some?
  }

  predicate RuleFires(p: Packet, k: EventKind)
  {
    match k
    case MaliciousPort => PortRuleFires(p)
    case SuspiciousDns => QueryName(p).Some? && DnsSource(p).Some? && SuspiciousDomain(QueryName(p).value)
    case BackgroundQuic => UdpDstPort(p) == Some("443") && Addresses(p).Some?
    case FrequentDns => false
  }

  /** Number of findings of kind `k` in `es`. */
  function CountKind(es: seq<Event>, k: EventKind): nat
  {
    if es == [] then 0
    else CountKind(es[..|es| - 1], k) + (if es[|es| - 1].kind == k then 1 else 0)
  }

  lemma {:induction false} CountKindAppend(a: seq<Event>, b: seq<Event>, k: EventKind)
    ensures CountKind(a + b, k) == CountKind(a, k) + CountKind(b, k)
    decreases |b|
  {
    if b != [] {
      assert (a + b)[..|a + b| - 1] == a + b[..|b| - 1];
      CountKindAppend(a, b[..|b| - 1], k);
    } else {
      assert a + b == a;
    }
  }

  /** Zero or one finding, of kind `k`, timestamped with the packet. */
  predicate AtMostOneOf(es: seq<Event>, k: EventKind, p: Packet)
  {
    |es| <= 1 && forall e :: e in es ==> e.kind == k && WellFormed(e) && e.timestamp == Timestamp(p)
  }

  lemma CountOfAtMostOne(es: seq<Event>, k: EventKind, p: Packet, k': EventKind)
    requires AtMostOneOf(es, k, p)
    ensures CountKind(es, k') == if k == k' then |es| else 0
  {
    if es != [] {
      assert es[..0] == [];
    }
  }

  lemma DnsEventsShape(p: Packet)
    ensures AtMostOneOf(DnsEvents(p), SuspiciousDns, p)
    ensures |DnsEvents(p)| == if RuleFires(p, SuspiciousDns) then 1 else 0
  {
  }

  lemma QuicEventsShape(p: Packet)
    ensures AtMostOneOf(QuicEvents(p), BackgroundQuic, p)
    ensures |QuicEvents(p)| == if RuleFires(p, BackgroundQuic) then 1 else 0
  {
  }

  lemma PortEventsShape(p: Packet)
    ensures AtMostOneOf(PortEvents(p), MaliciousPort, p)
    ensures |PortEvents(p)| == if RuleFires(p, MaliciousPort) then 1 else 0
  {
  }

  /**
   * One packet yields exactly one finding of each kind whose rule fires and
   * none of any other kind (a domain matching both a suffix and a keyword is
   * still one finding); every finding carries the packet's timestamp, or 0.
   */
  lemma PacketEventCounts(p: Packet, k: EventKind)
    ensures CountKind(PacketEvents(p), k) == if RuleFires(p, k) then 1 else 0
    ensures |PacketEvents(p)| <= 3
    ensures forall e :: e in PacketEvents(p) ==> WellFormed(e) && e.timestamp == Timestamp(p)
  {
    var d, q, t := DnsEvents(p), QuicEvents(p), PortEvents(p);
    DnsEventsShape(p);
    QuicEventsShape(p);
    PortEventsShape(p);
    CountKindAppend(d + q, t, k);
    CountKindAppend(d, q, k);
    CountOfAtMostOne(d, SuspiciousDns, p, k);
    CountOfAtMostOne(q, BackgroundQuic, p, k);
    CountOfAtMostOne(t, MaliciousPort, p, k);
  }

  /** A listed suffix anywhere in the domain text is enough. */
  lemma SuspiciousTldAnywhere(domain: string, tld: int, at: int)
    requires 0 <= tld < |SuspiciousTlds|
    requires OccursAt(domain, SuspiciousTlds[tld], at)
    ensures SuspiciousDomain(domain)
  {
    ContainsFromOccurrence(domain, SuspiciousTlds[tld], at);
  }

  /**
   * The domain rule in terms of occurrences: a suffix occurs in the raw text, or
   * a keyword occurs in the lower-cased text; nothing else makes it fire.
   */
  lemma SuspiciousDomainIff(domain: string)
    ensures SuspiciousDomain(domain) <==>
      || (exists i, at :: 0 <= i < |SuspiciousTlds| && OccursAt(domain, SuspiciousTlds[i], at))
      || (exists i, at :: 0 <= i < |SuspiciousWords| && OccursAt(ToLower(domain), SuspiciousWords[i], at))
  {
    forall i | 0 <= i < |SuspiciousTlds| {
      ContainsIff(domain, SuspiciousTlds[i]);
    }
    forall i | 0 <= i < |SuspiciousWords| {
      ContainsIff(ToLower(domain), SuspiciousWords[i]);
    }
  }

  /** The keyword test ignores case: an upper-case keyword in the domain counts. */
  lemma KeywordIgnoresCase(domain: string, at: int)
    requires OccursAt(domain, "TEMP", at)
    ensures SuspiciousDomain(domain)
  {
    var lower := ToLower(domain);
    assert domain[at..at + 4] == "TEMP";
    assert domain[at] == 'T' && domain[at + 1] == 'E' && domain[at + 2] == 'M' && domain[at + 3] == 'P' by {
      assert domain[at..at + 4][0] == domain[at];
      assert domain[at..at + 4][1] == domain[at + 1];
      assert domain[at..at + 4][2] == domain[at + 2];
      assert domain[at..at + 4][3] == domain[at + 3];
    }
    assert lower[at..at + 4] == "temp";
    assert OccursAt(lower, SuspiciousWords[0], at);
    ContainsFromOccurrence(lower, SuspiciousWords[0], at);
  }

  /**
   * For a packet carrying TCP port text, the rule fires exactly when `int()`
   * reads that text as a listed port and both addresses can be read: every
   * spelling `int()` accepts (" 4444\n", "04444", "+4444", "4_444") counts.
   */
  lemma MaliciousPortText(p: Packet, text: string)
    requires p.tcp == Some(PortLayer(Some(text)))
    ensures CountKind(PacketEvents(p), MaliciousPort) == 1 <==>
      ParseInt(text).Some? && ParseInt(text).value in MaliciousPorts && Addresses(p).Some?
  {
    PacketEventCounts(p, MaliciousPort);
  }

  /** The order in which `_analyser_paquet` calls the three rules. */
  function Rank(k: EventKind): nat
  {
    match k
    case SuspiciousDns => 0
    case BackgroundQuic => 1
    case MaliciousPort => 2
    case FrequentDns => 3
  }

  /** One packet's findings come in call order: DNS, then QUIC, then port. */
  lemma PacketEventsOrdered(p: Packet)
    ensures forall i, j :: 0 <= i < j < |PacketEvents(p)| ==> Rank(PacketEvents(p)[i].kind) < Rank(PacketEvents(p)[j].kind)
  {
    var d, q, t := DnsEvents(p), QuicEvents(p), PortEvents(p);
    DnsEventsShape(p);
    QuicEventsShape(p);
    PortEventsShape(p);
    var es := d + q + t;
    forall i, j | 0 <= i < j < |es|
      ensures Rank(es[i].kind) < Rank(es[j].kind)
    {
      assert es[i] in es && es[j] in es;
      if i < |d| {
        assert es[i] in d;
        assert j >= |d|;
        if j < |d| + |q| {
          assert es[j] == q[j - |d|];
        } else {
          assert es[j] == t[j - |d| - |q|];
        }
      } else {
        assert es[i] == q[i - |d|];
        assert j >= |d| + |q|;
        assert es[j] == t[j - |d| - |q|];
      }
    }
  }
}
