/**
 * The post-pass `analyser_frequence_dns`: count how often each domain occurs
 * in the DNS log and report every domain seen more than 10 times. The counting
 * dictionary's keys iterate in first-occurrence order, which `Distinct` models.
 */
module DnsFrequency {
  import opened Text
  import opened Findings

  /** The domains of the DNS log, in log order. */
  function Domains(log: seq<DnsObservation>): seq<string>
  {
    seq(|log|, i requires 0 <= i < |log| => log[i].domain)
  }

  /** The count of `d` after the counting loop: exact, case-sensitive matches. */
  function Occurrences(log: seq<DnsObservation>, d: string): nat
  {
    multiset(Domains(log))[d]
  }

  /** The distinct elements of `s` in order of first occurrence. */
  function Distinct(s: seq<string>): (r: seq<string>)
    ensures forall x :: x in r <==> x in s
    ensures forall i, j :: 0 <= i < j < |r| ==> r[i] != r[j]
  {
    if s == [] then []
    else
      var prefix := Distinct(s[..|s| - 1]);
      assert s == s[..|s| - 1] + [s[|s| - 1]];
      if s[|s| - 1] in prefix then prefix else prefix + [s[|s| - 1]]
  }

  /** One more element read: it joins the distinct list unless already there. */
  lemma DistinctStep(s: seq<string>, i: nat)
    requires i < |s|
    ensures Distinct(s[..i + 1]) == if s[i] in s[..i] then Distinct(s[..i]) else Distinct(s[..i]) + [s[i]]
  {
    assert s[..i + 1][..i] == s[..i];
  }

  /** One more element read: its count goes up by one, no other count moves. */
  lemma MultisetStep(s: seq<string>, i: nat)
    requires i < |s|
    ensures forall x :: multiset(s[..i + 1])[x] == multiset(s[..i])[x] + (if x == s[i] then 1 else 0)
  {
    assert s[..i + 1] == s[..i] + [s[i]];
  }

  /** The elements of `ds` counted more than 10 times, order kept. */
  function Frequent(ds: seq<string>, counts: multiset<string>): seq<string>
  {
    if ds == [] then []
    else Frequent(ds[..|ds| - 1], counts) + (if counts[ds[|ds| - 1]] > 10 then [ds[|ds| - 1]] else [])
  }

  /** The 'DNS Fréquent' finding for a domain seen `n` times. */
  function FrequencyEvent(domain: string, n: nat): Event
  {
    Event(FrequentDns, domain + " contacté " + NatToDecimal(n) + " fois (possible DNS tunneling)", Medium, 0.0)
  }

  /** One finding per listed domain, in list order. */
  function Render(ds: seq<string>, counts: multiset<string>): seq<Event>
  {
    if ds == [] then []
    else Render(ds[..|ds| - 1], counts) + [FrequencyEvent(ds[|ds| - 1], counts[ds[|ds| - 1]])]
  }

  /** One more domain visited: its finding, if any, goes at the end. */
  lemma ReportStep(ds: seq<string>, j: nat, counts: multiset<string>)
    requires j < |ds|
    ensures Render(Frequent(ds[..j + 1], counts), counts)
         == Render(Frequent(ds[..j], counts), counts)
            + (if counts[ds[j]] > 10 then [FrequencyEvent(ds[j], counts[ds[j]])] else [])
  {
    assert ds[..j + 1][..j] == ds[..j];
    var chosen := Frequent(ds[..j], counts);
    if counts[ds[j]] > 10 {
      assert Frequent(ds[..j + 1], counts) == chosen + [ds[j]];
      assert (chosen + [ds[j]])[..|chosen|] == chosen;
    } else {
      assert Frequent(ds[..j + 1], counts) == chosen;
    }
  }

  /** The domains reported, in the dictionary's iteration order. */
  function FrequentDomains(log: seq<DnsObservation>): seq<string>
  {
    Frequent(Distinct(Domains(log)), multiset(Domains(log)))
  }

  /** The findings `analyser_frequence_dns` appends. */
  function FrequencyEvents(log: seq<DnsObservation>): seq<Event>
  {
    Render(FrequentDomains(log), multiset(Domains(log)))
  }

  lemma {:induction false} FrequentIff(ds: seq<string>, counts: multiset<string>, d: string)
    ensures d in Frequent(ds, counts) <==> d in ds && counts[d] > 10
  {
    if ds != [] {
      assert ds == ds[..|ds| - 1] + [ds[|ds| - 1]];
      FrequentIff(ds[..|ds| - 1], counts, d);
    }
  }

  lemma {:induction false} FrequentDistinct(ds: seq<string>, counts: multiset<string>)
    requires forall i, j :: 0 <= i < j < |ds| ==> ds[i] != ds[j]
    ensures forall i, j :: 0 <= i < j < |Frequent(ds, counts)| ==> Frequent(ds, counts)[i] != Frequent(ds, counts)[j]
  {
    if ds != [] {
      var prefix := ds[..|ds| - 1];
      FrequentDistinct(prefix, counts);
      FrequentIff(prefix, counts, ds[|ds| - 1]);
    }
  }

  lemma {:induction false} RenderShape(ds: seq<string>, counts: multiset<string>)
    ensures |Render(ds, counts)| == |ds|
    ensures forall i :: 0 <= i < |ds| ==> Render(ds, counts)[i] == FrequencyEvent(ds[i], counts[ds[i]])
  {
    if ds != [] {
      RenderShape(ds[..|ds| - 1], counts);
    }
  }

  /**
   * A domain is reported iff it occurs more than 10 times in the log (10 is
   * not enough); no domain is reported twice; the i-th finding names the i-th
   * reported domain with its count, severity MOYENNE and timestamp 0.
   */
  lemma FrequencyEventsSpec(log: seq<DnsObservation>)
    ensures forall d :: d in FrequentDomains(log) <==> Occurrences(log, d) > 10
    ensures forall i, j :: 0 <= i < j < |FrequentDomains(log)| ==> FrequentDomains(log)[i] != FrequentDomains(log)[j]
    ensures |FrequencyEvents(log)| == |FrequentDomains(log)|
    ensures forall i :: 0 <= i < |FrequentDomains(log)| ==>
      FrequencyEvents(log)[i] == FrequencyEvent(FrequentDomains(log)[i], Occurrences(log, FrequentDomains(log)[i]))
    ensures forall e :: e in FrequencyEvents(log) ==> WellFormed(e) && e.kind == FrequentDns
  {
    var names := Domains(log);
    forall d ensures d in FrequentDomains(log) <==> Occurrences(log, d) > 10 {
      FrequentIff(Distinct(names), multiset(names), d);
    }
    FrequentDistinct(Distinct(names), multiset(names));
    RenderShape(FrequentDomains(log), multiset(names));
  }
}
