/** The exporter of main.go: its construction (newExporter) and one scrape
    (Exporter.Collect). The Consul answers of a scrape arrive as a Registry
    snapshot and the observations leave on a MetricChannel. */
module Exporter {
  import opened Wrappers
  import opened Consul
  import opened Metrics
  import opened Decimal
  import opened TagLabels
  import opened CheckReduce

  /** The six identity label names that precede the configured tag labels. */
  const IdentityLabels: seq<string> := ["dc", "node_addr", "name", "id", "addr", "port"]

  /** all_tags in newExporter: the label names of the per-instance gauge. */
  function LabelSchema(tags: seq<string>): seq<string>
  {
    IdentityLabels + tags
  }

  /** consul_desc: the registry liveness gauge, labelled by the server address. */
  function RegistryDesc(): Desc
  {
    Desc("dial_consul", "consul state", ["addr"])
  }

  /** up_desc: the per-instance up gauge. */
  function UpDesc(tags: seq<string>): Desc
  {
    Desc("dial_up", "consul service state", LabelSchema(tags))
  }

  /** The liveness observation: 1 when the leader probe succeeded, 0 otherwise. */
  function RegistryUp(addr: string, leaderOk: bool): (m: Metric)
    ensures m.desc == RegistryDesc() && WellFormed(m)
    ensures m.labelValues == [addr]
    ensures m.value == 1 <==> leaderOk
    ensures m.value == 0 || m.value == 1
  {
    ConstGauge(RegistryDesc(), if leaderOk then 1 else 0, [addr])
  }

  /** The values of the six identity labels for one instance of service `name`. */
  function IdentityValues(e: ServiceEntry, name: string): seq<string>
  {
    [e.node.datacenter, e.node.address, name, e.service.id, e.service.address, FormatInt(e.service.port)]
  }

  /** Go's map index: the zero value "" for a missing key. */
  function Lookup(labels: map<string, string>, key: string): string
  {
    if key in labels then labels[key] else ""
  }

  /** The label values of the up gauge: identity values, then one value per
      configured tag label, in configured order. */
  function LabelVector(e: ServiceEntry, name: string, tags: seq<string>, labels: map<string, string>): seq<string>
  {
    IdentityValues(e, name) + seq(|tags|, i requires 0 <= i < |tags| => Lookup(labels, tags[i]))
  }

  /** What one instance contributes to a scrape: one up gauge when a check
      decides, nothing otherwise. Missing labels do not suppress it. */
  function InstanceObservations(tags: seq<string>, name: string, e: ServiceEntry): seq<Metric>
  {
    match Decide(e.checks)
    case None => []
    case Some(v) =>
      [ConstGauge(UpDesc(tags), v, LabelVector(e, name, tags, ResolvedLabels(tags, e.service.tags)))]
  }

  /** The instances of one service, in the order the registry returned them. */
  function EntriesObservations(tags: seq<string>, name: string, entries: seq<ServiceEntry>): seq<Metric>
  {
    if entries == [] then []
    else EntriesObservations(tags, name, entries[..|entries| - 1])
         + InstanceObservations(tags, name, entries[|entries| - 1])
  }

  /** What one service contributes: nothing when its health fetch failed. */
  function ServiceObservations(tags: seq<string>, name: string, fetched: HealthResult): seq<Metric>
  {
    match fetched
    case HealthError => []
    case HealthOk(entries) => EntriesObservations(tags, name, entries)
  }

  /** The per-service part of a scrape, visiting the services in the given order. */
  function ScrapeServices(tags: seq<string>, names: seq<string>, reg: Registry, q: QueryOptions): seq<Metric>
  {
    if names == [] then []
    else ServiceObservations(tags, names[0], reg.healthService(names[0], q)) + ScrapeServices(tags, names[1..], reg, q)
  }

  /** The services a scrape visits: the cached or configured set when it is
      non-empty, otherwise the catalog listing (None when listing fails). */
  function ScrapeTargets(cached: set<string>, reg: Registry, q: QueryOptions): Option<set<string>>
  {
    if cached != {} then Some(cached) else reg.catalogServices(q)
  }

  lemma {:induction false} ScrapeConcat(tags: seq<string>, a: seq<string>, b: seq<string>, reg: Registry, q: QueryOptions)
    ensures ScrapeServices(tags, a + b, reg, q) == ScrapeServices(tags, a, reg, q) + ScrapeServices(tags, b, reg, q)
  {
    if a == [] {
      assert a + b == b;
    } else {
      assert (a + b)[1..] == a[1..] + b;
      ScrapeConcat(tags, a[1..], b, reg, q);
    }
  }

  lemma ScrapeServicesSnoc(tags: seq<string>, names: seq<string>, name: string, reg: Registry, q: QueryOptions)
    ensures ScrapeServices(tags, names + [name], reg, q)
            == ScrapeServices(tags, names, reg, q) + ServiceObservations(tags, name, reg.healthService(name, q))
  {
    ScrapeConcat(tags, names, [name], reg, q);
    assert ScrapeServices(tags, [name], reg, q) == ServiceObservations(tags, name, reg.healthService(name, q)) + [];
  }

  predicate Distinct(names: seq<string>) {
    forall i, j :: 0 <= i < j < |names| ==> names[i] != names[j]
  }

  /** `names` with every occurrence of `s` removed. */
  function Without(names: seq<string>, s: string): seq<string>
  {
    if names == [] then []
    else if names[0] == s then Without(names[1..], s)
    else [names[0]] + Without(names[1..], s)
  }

  /** The values loop of main.go:141-154. */
  method BuildValues(e: ServiceEntry, name: string, tags: seq<string>, labels: map<string, string>)
    returns (values: seq<string>)
    ensures |values| == |LabelSchema(tags)|
    ensures values[..|IdentityLabels|] == IdentityValues(e, name)
    ensures forall i :: 0 <= i < |tags| ==>
      LabelSchema(tags)[|IdentityLabels| + i] == tags[i] && values[|IdentityLabels| + i] == Lookup(labels, tags[i])
    ensures values == LabelVector(e, name, tags, labels)
  {
    values := [e.node.datacenter, e.node.address, name, e.service.id, e.service.address, FormatInt(e.service.port)];
    for i := 0 to |tags|
      invariant |values| == |IdentityLabels| + i
      invariant values[..|IdentityLabels|] == IdentityValues(e, name)
      invariant forall j :: 0 <= j < i ==> values[|IdentityLabels| + j] == Lookup(labels, tags[j])
    {
      values := values + [Lookup(labels, tags[i])];
    }
  }

  /** One instance yields at most one up gauge, exactly when a check decides;
      its value is the decision, its labels line up with the schema, and each
      configured label carries the first non-empty value a tag gives it, or ""
      when no tag does (the instance is still reported). */
  lemma InstanceObservationMeaning(tags: seq<string>, name: string, e: ServiceEntry)
    ensures |InstanceObservations(tags, name, e)| == if Decide(e.checks).Some? then 1 else 0
    ensures forall m :: m in InstanceObservations(tags, name, e) ==>
      && m.desc == UpDesc(tags)
      && m.value == Decide(e.checks).value
      && WellFormed(m)
      && m.labelValues[..|IdentityLabels|] == IdentityValues(e, name)
      && forall i :: 0 <= i < |tags| ==> m.labelValues[|IdentityLabels| + i] == FirstValue(tags[i], e.service.tags)
  {
    ResolveMeaning(tags, e.service.tags);
  }

  lemma {:induction false} EntriesWellFormed(tags: seq<string>, name: string, entries: seq<ServiceEntry>)
    ensures forall m :: m in EntriesObservations(tags, name, entries) ==>
      m.desc == UpDesc(tags) && WellFormed(m) && (m.value == 0 || m.value == 1)
  {
    if entries != [] {
      EntriesWellFormed(tags, name, entries[..|entries| - 1]);
    }
  }

  /** Every up gauge of a scrape reports 0 or 1 and carries exactly one value
      per schema label, so the label count given to MustNewConstMetric always
      matches. */
  lemma {:induction false} ScrapeWellFormed(tags: seq<string>, names: seq<string>, reg: Registry, q: QueryOptions)
    ensures forall m :: m in ScrapeServices(tags, names, reg, q) ==>
      m.desc == UpDesc(tags) && WellFormed(m) && (m.value == 0 || m.value == 1)
  {
    if names != [] {
      ScrapeWellFormed(tags, names[1..], reg, q);
      match reg.healthService(names[0], q) {
        case HealthError =>
        case HealthOk(entries) => EntriesWellFormed(tags, names[0], entries);
      }
    }
  }

  /** An observation is in a scrape exactly when one of the visited services produced it. */
  lemma {:induction false} ScrapeMembership(tags: seq<string>, names: seq<string>, reg: Registry, q: QueryOptions, m: Metric)
    ensures m in ScrapeServices(tags, names, reg, q) <==>
      exists i :: 0 <= i < |names| && m in ServiceObservations(tags, names[i], reg.healthService(names[i], q))
  {
    if names != [] {
      var rest := names[1..];
      ScrapeMembership(tags, rest, reg, q, m);
      assert forall i :: 0 <= i < |rest| ==> rest[i] == names[i + 1];
    }
  }

  lemma MultisetCancel(prefix: seq<string>, x: string, a: seq<string>, b: seq<string>)
    requires multiset(prefix + [x]) == multiset(a + [x] + b)
    ensures multiset(prefix) == multiset(a + b)
  {
    assert multiset(prefix + [x]) == multiset(prefix) + multiset([x]);
    assert multiset(a + [x] + b) == multiset(a + b) + multiset([x]);
    forall e
      ensures multiset(prefix)[e] == multiset(a + b)[e]
    {
      assert (multiset(prefix) + multiset([x]))[e] == (multiset(a + b) + multiset([x]))[e];
    }
  }

  lemma ScrapeAround(tags: seq<string>, a: seq<string>, x: string, b: seq<string>, reg: Registry, q: QueryOptions)
    ensures ScrapeServices(tags, a + [x] + b, reg, q)
            == ScrapeServices(tags, a, reg, q) + ServiceObservations(tags, x, reg.healthService(x, q))
               + ScrapeServices(tags, b, reg, q)
  {
    ScrapeConcat(tags, a + [x], b, reg, q);
    ScrapeServicesSnoc(tags, a, x, reg, q);
  }

  /** The order in which the services are visited (Go map iteration order)
      changes only the order of the observations, not which ones are sent. */
  lemma {:induction false} ScrapeOrderIrrelevant(tags: seq<string>, names1: seq<string>, names2: seq<string>, reg: Registry, q: QueryOptions)
    requires multiset(names1) == multiset(names2)
    ensures multiset(ScrapeServices(tags, names1, reg, q)) == multiset(ScrapeServices(tags, names2, reg, q))
    decreases |names1|
  {
    if names1 == [] {
      assert |names2| == |multiset(names2)| == 0;
    } else {
      var prefix, x := names1[..|names1| - 1], names1[|names1| - 1];
      assert names1 == prefix + [x];
      assert x in multiset(names2);
      var k :| 0 <= k < |names2| && names2[k] == x;
      var a, b := names2[..k], names2[k + 1..];
      assert names2 == a + [x] + b;
      MultisetCancel(prefix, x, a, b);
      ScrapeOrderIrrelevant(tags, prefix, a + b, reg, q);
      ScrapeConcat(tags, a, b, reg, q);
      ScrapeAround(tags, a, x, b, reg, q);
      ScrapeServicesSnoc(tags, prefix, x, reg, q);
    }
  }

  /** A service whose health fetch fails is skipped and nothing else is:
      the scrape is the one in which that service was never listed. */
  lemma {:induction false} FailedServiceIsolated(tags: seq<string>, names: seq<string>, reg: Registry, broken: Registry, q: QueryOptions, s: string)
    requires broken.healthService(s, q).HealthError?
    requires forall n :: n != s ==> broken.healthService(n, q) == reg.healthService(n, q)
    ensures ScrapeServices(tags, names, broken, q) == ScrapeServices(tags, Without(names, s), reg, q)
  {
    if names != [] {
      FailedServiceIsolated(tags, names[1..], reg, broken, q, s);
      if names[0] != s {
        var rest := Without(names[1..], s);
        assert ([names[0]] + rest)[1..] == rest;
      }
    }
  }

  /** The exporter object: configuration fixed at construction, and the
      service set, which the first successful catalog listing fills in. */
  class Exporter {
    const addr: string
    /** The client's address: `addr` with the scheme defaulted (newConsulClient). */
    const endpoint: string
    /** The --consul.dc flag, read by newQueryOption. */
    const datacenter: string
    const tags: seq<string>
    const consulDesc: Desc
    const upDesc: Desc
    var services: set<string>

    predicate Valid() {
      consulDesc == RegistryDesc() && upDesc == UpDesc(tags)
    }

    /** newExporter(addr, services, tags). */
    constructor (addr: string, services: seq<string>, tags: seq<string>, datacenter: string)
      ensures Valid()
      ensures this.addr == addr && this.tags == tags && this.datacenter == datacenter
      ensures endpoint == WithScheme(addr)
      ensures forall s :: s in this.services <==> s in services
      ensures upDesc.labelNames == IdentityLabels + tags
    {
      var srvs: set<string> := {};
      for i := 0 to |services|
        invariant forall s :: s in srvs <==> s in services[..i]
      {
        assert services[..i + 1] == services[..i] + [services[i]];
        srvs := srvs + {services[i]};
      }
      assert services[..|services|] == services;
      var allTags := IdentityLabels + tags;
      this.addr := addr;
      this.endpoint := WithScheme(addr);
      this.datacenter := datacenter;
      this.tags := tags;
      this.services := srvs;
      this.consulDesc := RegistryDesc();
      this.upDesc := Desc("dial_up", "consul service state", allTags);
    }

    /** The body of the service loop of Collect (main.go:100-179) for one
        service: a failed fetch sends nothing, otherwise every instance sends
        its up gauge, if any, in the order the registry returned them. */
    method SendService(ch: MetricChannel, name: string, fetched: HealthResult)
      requires Valid()
      modifies ch
      ensures ch.sent == old(ch.sent) + ServiceObservations(tags, name, fetched)
    {
      match fetched {
        case HealthError =>  // get health services failed: skip this service
        case HealthOk(entries) =>
          for j := 0 to |entries|
            invariant ch.sent == old(ch.sent) + EntriesObservations(tags, name, entries[..j])
          {
            assert entries[..j + 1][..j] == entries[..j];
            var e := entries[j];
            var labels := ResolveLabels(tags, e.service.tags);
            var values := BuildValues(e, name, tags, labels);
            var up := Reduce(e.checks);
            if up.Some? {
              ch.Send(ConstGauge(upDesc, up.value, values));
            }
          }
          assert entries[..|entries|] == entries;
      }
    }

    /** The service loop of Collect (main.go:100-179): every service of the
        set is fetched once, in an order the model leaves open (Go map
        iteration), and sends what its instances report. */
    method SendServices(ch: MetricChannel, names: set<string>, reg: Registry, q: QueryOptions)
      returns (ghost visited: seq<string>)
      requires Valid()
      modifies ch
      ensures forall n :: n in visited <==> n in names
      ensures Distinct(visited)
      ensures ch.sent == old(ch.sent) + ScrapeServices(tags, visited, reg, q)
    {
      visited := [];
      var pending := names;
      while pending != {}
        invariant pending <= names
        invariant forall n :: n in visited ==> n in names && n !in pending
        invariant forall n :: n in names ==> n in visited || n in pending
        invariant Distinct(visited)
        invariant ch.sent == old(ch.sent) + ScrapeServices(tags, visited, reg, q)
        decreases pending
      {
        var name :| name in pending;
        pending := pending - {name};
        SendService(ch, name, reg.healthService(name, q));
        ScrapeServicesSnoc(tags, visited, name, reg, q);
        visited := visited + [name];
      }
    }

    /** One scrape. The liveness gauge goes first; then, when the service set
        is empty, the catalog listing fills it (it stays filled for later
        scrapes) or, failing that, the scrape ends; then every service is
        fetched once, in an order the model leaves open. */
    method Collect(ch: MetricChannel, reg: Registry) returns (ghost visited: seq<string>)
      requires Valid()
      modifies this`services, ch
      ensures ScrapeTargets(old(services), reg, NewQueryOptions(datacenter)).None? ==>
        && services == old(services)
        && visited == []
        && ch.sent == old(ch.sent) + [RegistryUp(addr, reg.leaderOk)]
      ensures ScrapeTargets(old(services), reg, NewQueryOptions(datacenter)).Some? ==>
        && services == ScrapeTargets(old(services), reg, NewQueryOptions(datacenter)).value
        && (forall n :: n in visited <==> n in services)
        && Distinct(visited)
        && ch.sent == old(ch.sent) + [RegistryUp(addr, reg.leaderOk)]
                      + ScrapeServices(tags, visited, reg, NewQueryOptions(datacenter))
      ensures forall i :: |old(ch.sent)| <= i < |ch.sent| ==> WellFormed(ch.sent[i])
    {
      // registry liveness
      ch.Send(RegistryUp(addr, reg.leaderOk));
      ghost var base := ch.sent;
      var q := NewQueryOptions(datacenter);

      // the service set: `services` is filled in place when empty
      if |services| == 0 {
        var listing := reg.catalogServices(q);
        if listing.None? {
          visited := [];
          return;  // catalog listing failed
        }
        var rest := listing.value;
        while rest != {}
          invariant rest <= listing.value
          invariant services == listing.value - rest
          invariant ch.sent == base
          decreases rest
        {
          var name :| name in rest;
          services := services + {name};
          rest := rest - {name};
        }
      }

      // per-service health
      visited := SendServices(ch, services, reg, q);

      ScrapeWellFormed(tags, visited, reg, q);
      forall i | |old(ch.sent)| <= i < |ch.sent|
        ensures WellFormed(ch.sent[i])
      {
        if i > |old(ch.sent)| {
          assert ch.sent[i] in ScrapeServices(tags, visited, reg, q);
        }
      }
    }
  }
}
