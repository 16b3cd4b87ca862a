/**
 * The decoded packet as the analyser sees it. Each field that the source
 * probes with `hasattr` is an `Option`; a layer whose own attribute the source
 * probes (`paquet.dns.qry_name`, `paquet.udp.dstport`, ...) holds an `Option`
 * for that attribute, so that every AttributeError path of the source is a
 * `None` somewhere in this record.
 */
module Packets {
  import opened Wrappers

  /** `paquet.ip`: source and destination address text. */
  datatype IpLayer = IpLayer(src: Option<string>, dst: Option<string>)

  /** `paquet.udp` or `paquet.tcp`: the destination port, still as text. */
  datatype PortLayer = PortLayer(dstport: Option<string>)

  /** `paquet.dns`: the query name. */
  datatype DnsLayer = DnsLayer(qryName: Option<string>)

  datatype Packet = Packet(
    highestLayer: Option<string>,
    ip: Option<IpLayer>,
    length: Option<nat>,
    sniffTimestamp: Option<real>,
    udp: Option<PortLayer>,
    tcp: Option<PortLayer>,
    dns: Option<DnsLayer>)

  /** The capture time of the packet, 0 when it carries none. */
  function Timestamp(p: Packet): real
  {
    match p.sniffTimestamp
    case Some(t) => t
    case None => 0.0
  }

  /** Source and destination address, or None where reading either raises AttributeError. */
  function Addresses(p: Packet): Option<(string, string)>
  {
    match p.ip
    case Some(IpLayer(Some(src), Some(dst))) => Some((src, dst))
    case _ => None
  }

  /** The source recorded for a DNS query: 'Unknown' without an IP layer; None where reading it raises AttributeError. */
  function DnsSource(p: Packet): Option<string>
  {
    match p.ip
    case None => Some("Unknown")
    case Some(layer) => layer.src
  }

  /** `paquet.dns.qry_name` when both `hasattr` probes succeed. */
  function QueryName(p: Packet): Option<string>
  {
    match p.dns
    case Some(DnsLayer(Some(name))) => Some(name)
    case _ => None
  }

  /** `paquet.udp.dstport` when both `hasattr` probes succeed. */
  function UdpDstPort(p: Packet): Option<string>
  {
    match p.udp
    case Some(PortLayer(Some(port))) => Some(port)
    case _ => None
  }
}
