# Suspicious-traffic analyser, modelled in Dafny

This project models the analysis engine of a PCAP traffic analyser, the class
`AnalyseurTraficSuspect` in `analyseur.py`. The object reads the decoded
packets of one capture. For each packet it updates five accumulators:

- a per-protocol packet counter keyed by the packet's highest layer;
- a directional conversation table keyed by `"src → dst"`, holding packets, bytes and timestamps;
- a log of DNS queries;
- a list of suspicious findings, with three per-packet rules:
  - suspicious domain (HAUTE);
  - UDP/443 "QUIC" traffic (MOYENNE);
  - TCP connection to a listed malicious port (CRITIQUE).

Two passes then run over what was accumulated:

- **Persistent background flows.** A conversation qualifies with more than 50 packets, at least two timestamps and a span of more than 20 seconds.
- **DNS tunnelling.** A domain is reported when it was queried more than 10 times.

The model has eight modules, one file each, besides `Wrappers` (`wrappers.dfy`, the `Option` type):

- `Packets` (`packets.dfy`): the decoded packet as a record of optional layers and attributes. Every `hasattr` probe, and every attribute read that can raise `AttributeError`, is an `Option` in it.
- `Text` (`text.dfy`): substring search, ASCII lower-casing, and Python's base-10 `int()` and `str()` on integers.
- `Findings` (`findings.dfy`): the three per-packet rules, their constants and the findings they append.
- `Conversations` (`conversations.dfy`): the conversation table. It keeps its keys in `dict` insertion order.
- `BackgroundFlows` (`background.dfy`): the persistence test and the flows it yields.
- `DnsFrequency` (`dns_frequency.dfy`): domain counting in first-occurrence order, and the tunnelling report.
- `Engine` (`engine.dfy`): the whole analyser state as a value. It holds the functions `Step` (one packet), `Ingest` (a packet sequence) and the two passes, and lemmas about any run.
- `Analyseur` (`analyseur.dfy`): the class `TrafficAnalyser`. Its fields are the source's accumulators and its methods update them in place. The constructor, `Analyse`, `AnalysePacket`, `DetectPersistentFlows` and `AnalyseDnsFrequency` are proved to produce exactly the state the `Engine` function describes, and to keep `Engine.Invariant`. The helper methods they call (`AnalyseConversation`, `AnalyseDns`, `DetectQuic`, `DetectSuspiciousPorts`, `AppendPersistentFlows`, `ReportFrequentDomains`) are each proved to change their own accumulator as the functions of `Conversations`, `Findings`, `BackgroundFlows` or `DnsFrequency` say, and to leave the other accumulators unchanged.

Two choices in the model need a note:

- **Conversation order.** The conversation table is a sequence of keys in insertion order beside a map. Python's `dict` iterates in insertion order, and `detecter_flux_persistants` appends flows in that order.
- **Domain order.** The DNS frequency pass builds its counting dictionary in order of first occurrence. The model keeps that order (`DnsFrequency.Distinct`). It also proves the order-free statement: which domains are reported, once each.

## Model

| member | source | states |
|---|---|---|
| Analyseur.TrafficAnalyser.constructor | analyseur.py:16-22 | every accumulator starts empty (the state `Engine.Initial`), and the invariant holds |
| Analyseur.TrafficAnalyser.Analyse | analyseur.py:24-48 | a missing file leaves the state unchanged and does not complete. Otherwise the decoded packets are analysed one by one, in capture order, to the state `Ingest(old state, packets)`. The run completes exactly when decoding ended without error. The invariant is kept |
| Analyseur.TrafficAnalyser.AnalysePacket | analyseur.py:50-75 | the new state is `Step(old state, p)`: the five guarded updates in source order. The invariant is kept |
| Analyseur.TrafficAnalyser.AnalyseConversation | analyseur.py:77-92 | the conversation table becomes `Record(old table, p)`. Every other accumulator is unchanged |
| Analyseur.TrafficAnalyser.AnalyseDns | analyseur.py:94-120 | the DNS log grows by the packet's observation, if there is one. The findings grow by at most the 'DNS Suspect' finding. Nothing else changes |
| Analyseur.TrafficAnalyser.DetectQuic | analyseur.py:122-137 | appends the QUIC finding exactly when both addresses can be read. Nothing else changes |
| Analyseur.TrafficAnalyser.DetectSuspiciousPorts | analyseur.py:139-153 | appends the 'Port Malveillant' finding exactly when three things hold: the port text parses, the port is listed, and both addresses can be read. Nothing else changes |
| Analyseur.TrafficAnalyser.DetectPersistentFlows | analyseur.py:155-178 | the new state is `AfterPersistentFlows(old state)`. The invariant is kept |
| Analyseur.TrafficAnalyser.AppendPersistentFlows | analyseur.py:159-176 | the flows grow by `PersistentFlows` of the conversations, in table order. The table and every other accumulator are unchanged |
| Analyseur.TrafficAnalyser.AnalyseDnsFrequency | analyseur.py:180-200 | the new state is `AfterDnsFrequency(old state)`. Only the findings change. The invariant is kept |
| Analyseur.TrafficAnalyser.ReportFrequentDomains | analyseur.py:188-198 | appends one 'DNS Fréquent' finding per counted domain with a count above 10, in dictionary order. Nothing else changes |
| Analyseur.CountDomains | analyseur.py:184-186 | the counting dictionary has each logged domain as a key exactly once, in first-occurrence order. Each domain's count is its number of occurrences in the log |
| Engine.CountProtocol | analyseur.py:54-55 | the packet's highest layer gains exactly one count. Every other protocol's count is unchanged. A key exists afterwards iff it existed before or is the packet's layer |
| Engine.ProtocolCountsGrow | analyseur.py:54-55 | over any run, protocol counts never decrease and no protocol key disappears |
| Engine.IngestProtocolCounts | analyseur.py:54-55 | after any run, each protocol's count has grown by exactly the number of packets naming it as highest layer |
| Engine.StepConversations | analyseur.py:58-59 | guarding the conversation update on the IP layer is the same as applying `Record` to every packet |
| Engine.StepDnsLog | analyseur.py:94-104 | without a query name the DNS log is unchanged. With one, exactly one entry is appended: the name, the capture time (0 when absent), and the source address, or 'Unknown' without an IP layer. Nothing is appended when the IP layer has no source |
| Engine.StepInvariant | analyseur.py:50-75 | one packet keeps four things: a valid table, well-formed findings, positive protocol counts and valid flows |
| Engine.IngestInvariant | analyseur.py:33-38 | a run over any packet sequence keeps the invariant |
| Engine.PostPassesInvariant | analyseur.py:155-200 | both post-passes keep the invariant |
| Engine.IngestEvents | analyseur.py:50-75 | findings are only appended. Each kind grows by exactly the number of packets on which its rule fires. Ingestion creates no 'DNS Fréquent' finding |
| Engine.IngestDnsLog | analyseur.py:94-104 | the DNS log is only appended to, one entry per packet that yields an observation. Ingestion leaves the background flows alone |
| Engine.ThreePacketRun | analyseur.py:50-153 | a concrete run of three packets (QUIC, DNS for `update.tk`, TCP to port 4444) yields exactly three findings, with the right kinds, severities and order. It also yields two conversations in insertion order with one packet each, and one DNS log entry with source from the IP layer and timestamp 0 |
| Engine.TwoConversations | analyseur.py:80-84 | two packets from one source to different destinations open two conversations in arrival order, with one packet each. A packet without addresses in between changes nothing |
| Conversations.RecordEffect | analyseur.py:80-89 | four effects of recording a packet with both addresses. (1) The packet count of its own key `"src → dst"` goes up by exactly 1. (2) Bytes grow by the length if present. (3) The timestamp is appended if present. (4) A new key goes to the end of the key order, and no other key's entry or membership changes. A packet without both addresses changes nothing. Table validity is preserved |
| Conversations.ReverseDirectionUntouched | analyseur.py:80-84 | keys are directional: a packet A→B counts on `"A → B"` and leaves the entry `"B → A"` unchanged |
| Conversations.LabelInjective | analyseur.py:82 | for addresses without an arrow character, the key determines source and destination |
| Findings.PacketEventCounts | analyseur.py:61-72 | each rule adds exactly one finding of its kind when it fires and none otherwise, so a domain matching both the TLD and the keyword test counts once. A packet yields at most three findings. All of them are well-formed: the severity matches the kind, and the timestamp is the packet's, 0 when absent |
| Findings.DnsEventsShape | analyseur.py:62-63 | the DNS rule yields one 'DNS Suspect' finding iff three things hold: the packet has a query name, its source can be read, and the domain is suspicious. Otherwise it yields none |
| Findings.QuicEventsShape | analyseur.py:66-68 | the QUIC rule yields one finding iff the UDP destination port is the text `443` and both addresses can be read. Otherwise it yields none |
| Findings.PortEventsShape | analyseur.py:71-72 | the port rule yields one finding iff the TCP port text parses to a listed port and both addresses can be read. Otherwise it yields none |
| Findings.SuspiciousDomainIff | analyseur.py:107-111 | a domain is suspicious iff either (1) one of `.tk .ml .ga .cf .gq` occurs in the raw domain, case-sensitively, or (2) one of `temp tmp test malware c2 cmd` occurs in the lower-cased domain |
| Findings.SuspiciousTldAnywhere | analyseur.py:110 | a listed TLD text anywhere in the domain, not only at the end, makes it suspicious |
| Findings.KeywordIgnoresCase | analyseur.py:111 | an upper-case keyword (`TEMP`) makes the domain suspicious |
| Findings.MaliciousPortText | analyseur.py:144-145 | for a packet with TCP port text, exactly one 'Port Malveillant' finding is appended iff `int()` reads the text as a listed port and both addresses can be read; any spelling `int()` accepts counts, and text it rejects adds nothing, including text of more than 4300 digits |
| Findings.PacketEventsOrdered | analyseur.py:61-72 | one packet's findings come in the order the rules are called: the DNS finding before the QUIC finding before the port finding |
| BackgroundFlows.PersistentFlows | analyseur.py:160-176 | never more flows than conversations, and every flow is valid: more than 50 packets, duration over 20, throughput equal to bytes/duration |
| BackgroundFlows.PersistentFlowsIff | analyseur.py:160-176 | a flow is reported iff it belongs to a conversation of the table that is persistent. Such a conversation has more than 50 packets, at least two timestamps and a span over 20 seconds. The flow carries bytes/duration as throughput |
| BackgroundFlows.Thresholds | analyseur.py:162-174 | the thresholds are strict: 51 packets over 20.01 s qualify, while 20.0 s, 50 packets or a single timestamp do not. The duration is last appended minus first appended, not max minus min. The throughput is bytes/duration |
| DnsFrequency.Distinct | analyseur.py:184-186 | the dictionary keys are exactly the logged domains, each once |
| DnsFrequency.FrequentIff | analyseur.py:190-191 | a domain is reported iff it is a key with a count above 10 |
| DnsFrequency.FrequencyEventsSpec | analyseur.py:184-198 | four facts about the tunnelling report. (1) A domain is reported iff it occurs more than 10 times in the DNS log, so 10 occurrences yield nothing. (2) Each reported domain appears once. (3) Each finding carries its domain's exact count. (4) Each finding is MOYENNE with timestamp 0 |
| Text.ContainsIff | analyseur.py:110-111 | the substring test holds iff the needle occurs at some index of the haystack |
| Text.NatToDecimal | analyseur.py:148 | a port's decimal text is non-empty, all digits, and has no leading zero |
| Text.BodyValueOfDecimal | analyseur.py:144 | the digits of a natural number's decimal text read back to that number |
| Text.ParseIntOfDecimal | analyseur.py:144 | `int()` reads back the decimal text of any natural number of at most 4300 digits, also with whitespace `int()` strips on either side (ASCII 9-13 and 32, and the non-ASCII whitespace of `str.isspace`) |
| Text.LeadingZero | analyseur.py:144 | a leading zero does not change the value of a digit body; it only adds to the digit count `int()` limits |
| Text.DigitText | analyseur.py:144 | `int()` reads non-empty digit-only text as its value when it has at most 4300 digits, and rejects it otherwise |
| Text.ZeroPadding | analyseur.py:144 | `int()` reads a number's decimal text behind `k` zeros as that number iff the whole text has at most 4300 digits; beyond that it is a ValueError and nothing is read |
| Text.PortPastDigitLimit | analyseur.py:144 | 4297 zeros before `4444` (4301 digits) are rejected, while 4296 zeros (4300 digits) still read as 4444 |
| Text.PaddedPort | analyseur.py:144 | `int()` reads `" 4444\n"` as 4444 |
| Text.ZeroPaddedPort | analyseur.py:144 | `int()` reads `"04444"` as 4444 |
| Text.SignedPort | analyseur.py:144 | `int()` reads `"+4444"` as 4444 |
| Text.GroupedPort | analyseur.py:144 | `int()` reads `"4_444"` as 4444 |
| Text.PortSpellingsRejected | analyseur.py:144 | `int()` rejects text starting with the ASCII separator U+001C, a doubled or trailing underscore, and empty text, so the port rule adds nothing for them |

## Left out

- Opening the capture with pyshark, iterating it and closing it are not modelled. The decoded packets are a parameter: either no file, or the packets decoded before the stream ended plus a flag for a decoding error.
- `sys.exit(1)` and the progress and summary printing are not modelled. Exiting becomes the `completed` result of `Analyse`.
- The local `count` and `compteur` counters exist only to be printed, so they are not modelled.
- `round(..., 2)` on the duration and the throughput is float rounding and is not modelled. Flows carry the exact real values.
- Timestamps and lengths are exact reals and naturals. Floating-point error is not modelled.
- `int(paquet.length)` and `float(paquet.sniff_timestamp)` can raise `ValueError` on malformed text. In `_analyser_conversation`, `_analyser_dns` and `_detecter_quic` no handler recovers from it, and the run ends at analyseur.py:46-48. In `_detecter_ports_suspects`, the handler at analyseur.py:152 swallows a malformed timestamp and no finding is appended. The model takes lengths and timestamps as numbers, so it covers neither path.
- `Text.ParseInt`: non-ASCII Unicode digits, which Python's `int()` also accepts, are not modelled. Port text from the decoder is ASCII.
- `Text.ParseInt`: the digit limit is CPython's default of 4300 (`MaxStrDigits`). A limit changed through `sys.set_int_max_str_digits` or the `PYTHONINTMAXSTRDIGITS` environment variable is not modelled.
- `Text.ToLower`: only ASCII letters are lowered, not all of Unicode. Only two non-ASCII characters lower to ASCII letters, and they give 'i' and 'k'. Neither letter occurs in any keyword, so the keyword test has the same outcome.
- `Conversations.LabelInjective`: stated for addresses that contain no '→'. IP address text never does.
- The post-passes are modelled as the functions `AfterPersistentFlows` and `AfterDnsFrequency`. Calling a pass twice appends its findings or flows twice, in the model as in the source. Nothing about repeated calls is proved.
- `afficher_resume` and `generer_rapport_html` (presentation) are not part of this model.
- `rapport_generator.py`, `template_html.py`, `styles.py` and `main.py` are not part of this model.
