/**
 * The directional conversation table of `_analyser_conversation`: a
 * `defaultdict` keyed by the text "src → dst", whose entries count packets and
 * bytes and keep the list of timestamps. Python dictionaries iterate in
 * insertion order, so the table is the map together with its key order.
 */
module Conversations {
  import opened Wrappers
  import opened Packets

  datatype ConversationStats = ConversationStats(packets: nat, bytes: nat, timestamps: seq<real>)

  /** `conversations`: keys in insertion order, and the entry of each key. */
  datatype Table = Table(order: seq<string>, stats: map<string, ConversationStats>)

  /** The entry the `defaultdict` factory creates: no packets, no bytes, no timestamps. */
  const FreshStats := ConversationStats(0, 0, [])

  const EmptyTable := Table([], map[])

  /** The conversation key `f"{src} → {dst}"`. */
  function Label(src: string, dst: string): string
  {
    src + " → " + dst
  }

  /** The entry for `key`, or the factory's fresh entry when there is none; creates nothing. */
  function Lookup(t: Table, key: string): ConversationStats
  {
    if key in t.stats then t.stats[key] else FreshStats
  }

  /** Keys listed once each, exactly the keys of the map; every entry was created by a packet. */
  predicate TableValid(t: Table)
  {
    && (forall i, j :: 0 <= i < j < |t.order| ==> t.order[i] != t.order[j])
    && (forall key :: key in t.stats ==> key in t.order)
    && (forall i :: 0 <= i < |t.order| ==> t.order[i] in t.stats)
    && (forall key :: key in t.stats ==> 1 <= t.stats[key].packets && |t.stats[key].timestamps| <= t.stats[key].packets)
  }

  /** An entry with one more packet of `p` counted on it. */
  function Count(s: ConversationStats, p: Packet): ConversationStats
  {
    var s := s.(packets := s.packets + 1);
    var s := if p.length.Some? then s.(bytes := s.bytes + p.length.value) else s;
    if p.sniffTimestamp.Some? then s.(timestamps := s.timestamps + [p.sniffTimestamp.value]) else s
  }

  /** The table after `_analyser_conversation`; unchanged when an address cannot be read. */
  function Record(t: Table, p: Packet): Table
  {
    match Addresses(p)
    case None => t
    case Some((src, dst)) =>
      var key := Label(src, dst);
      Table(if key in t.stats then t.order else t.order + [key], t.stats[key := Count(Lookup(t, key), p)])
  }

  /**
   * With both addresses readable, the packet's own key gains one packet, its
   * length in bytes and its timestamp at the end of its list; every other key
   * keeps its entry; a new key goes to the end of the order. The table stays
   * valid.
   */
  lemma RecordEffect(t: Table, p: Packet)
    ensures Addresses(p).None? ==> Record(t, p) == t
    ensures Addresses(p).Some? ==>
      var r := Record(t, p);
      var key := Label(Addresses(p).value.0, Addresses(p).value.1);
      && key in r.stats
      && r.stats[key].packets == Lookup(t, key).packets + 1
      && r.stats[key].bytes == Lookup(t, key).bytes + (if p.length.Some? then p.length.value else 0)
      && r.stats[key].timestamps == Lookup(t, key).timestamps + (if p.sniffTimestamp.Some? then [p.sniffTimestamp.value] else [])
      && r.order == (if key in t.stats then t.order else t.order + [key])
      && (forall other :: other != key ==> Lookup(r, other) == Lookup(t, other) && (other in r.stats <==> other in t.stats))
    ensures TableValid(t) ==> TableValid(Record(t, p))
  {
  }

  /** Before the arrow's index, `Label(src, dst)` holds no arrow. */
  lemma ArrowPosition(src: string, dst: string)
    requires '→' !in src
    ensures |Label(src, dst)| > |src| + 1 && Label(src, dst)[|src| + 1] == '→'
    ensures forall i :: 0 <= i <= |src| ==> Label(src, dst)[i] != '→'
  {
    var l := Label(src, dst);
    assert l[|src|] == ' ';
    forall i | 0 <= i < |src| ensures l[i] != '→' {
      assert l[i] == src[i];
    }
  }

  /**
   * Distinct address pairs get distinct keys, provided no address text holds
   * the arrow character (IP address text never does).
   */
  lemma {:induction false} LabelInjective(a: string, b: string, c: string, d: string)
    requires '→' !in a && '→' !in b && '→' !in c && '→' !in d
    requires Label(a, b) == Label(c, d)
    ensures a == c && b == d
  {
    ArrowPosition(a, b);
    ArrowPosition(c, d);
    var l := Label(a, b);
    assert |a| == |c|;
    assert a == l[..|a|] == c;
    assert b == l[|a| + 3..] == d;
  }

  /**
   * Conversations are directional: a packet from `a` to `b` counts on
   * "a → b" only, and leaves "b → a" as it was.
   */
  lemma ReverseDirectionUntouched(t: Table, p: Packet, a: string, b: string)
    requires Addresses(p) == Some((a, b)) && a != b
    requires '→' !in a && '→' !in b
    ensures Label(a, b) != Label(b, a)
    ensures Lookup(Record(t, p), Label(b, a)) == Lookup(t, Label(b, a))
    ensures Lookup(Record(t, p), Label(a, b)).packets == Lookup(t, Label(a, b)).packets + 1
  {
    if Label(a, b) == Label(b, a) {
      LabelInjective(a, b, b, a);
    }
    RecordEffect(t, p);
  }
}
