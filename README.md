# consul_service_exporter — a verified model of the scrape

The exporter turns Consul's view of registered services into Prometheus
gauges. On every scrape, `Exporter.Collect` does four things. It reports
whether the Consul server answers (`dial_consul{addr}`). It picks the services
to look at. It fetches the health-annotated instances of each service. For
every instance, it rebuilds labels from the instance's `key=value` tags and
reduces the instance's checks to one `dial_up` gauge.

This project models that translation in Dafny and proves what it promises.

- `wrappers.dfy`: `Option`.
- `consul.dfy`: the shapes the Consul API returns (`Node`, `AgentService`,
  `HealthCheck`, `ServiceEntry`). It also has a `Registry` snapshot holding
  what the three API calls answer during one scrape, `newQueryOption`, and the
  scheme default of `newConsulClient`.
- `metrics.dfy`: descriptors, constant gauges and the metric channel. The
  channel is a class whose `sent` sequence grows with every send.
- `decimal.dfy`: `fmt.Sprintf("%d", port)`. It comes with a parser and the
  round-trip proof.
- `tag_labels.dfy`: tag label resolution.
  - `ResolveLabels` is the in-place loop.
  - `ApplyTag` and `ApplyTags` are the fold it follows.
  - `FirstValue` is an independent, label-by-label reference definition.
    `ResolveMeaning` proves the fold and the reference agree.
- `check_reduce.dfy`: check reduction.
  - `Reduce` is the loop with `break`.
  - `Decide` is its specification.
  - Two lemmas characterise `Decide` completely.
- `exporter.dfy`: the `Exporter` class.
  - The constructor models `newExporter`: the configured service set and the
    label schema.
  - `Collect` models one scrape, with `SendServices` and `SendService` as its
    loops. Its result is specified by `ScrapeTargets`, `ScrapeServices`,
    `ServiceObservations` and `InstanceObservations`.
  - Liveness comes from a dedicated probe: the `dial_consul` value is the
    result of `Status().Leader()`, not inferred from the catalog listing.
  - Lemmas about the scrape cover label alignment, isolation of failed
    services and independence from the visiting order.

Behaviour of the code that is easy to miss, which the model follows:

- **Missing labels are lenient.** An instance with a configured label that no
  tag defines is still reported, with `""` in that position. The skip in
  main.go is commented out.
- **The discovered service set is cached.** `srvs_map` aliases `e.services`.
  The first catalog listing that returns names therefore fills the exporter's
  own set, and later scrapes reuse that set without listing again.
  `Collect` keeps `services` as object state and its postcondition says so.
  A configured, non-empty set is never changed.

## Model

| member | source | states |
|---|---|---|
| `Consul.NewQueryOptions` | main.go:231-238 | The query is scoped to the configured datacenter. An empty datacenter leaves the zero value, which is the agent's default scope. |
| `Consul.WithScheme` | main.go:215-218 | The result always names a scheme. A URI that already contains `://` is kept as it is. Otherwise exactly `http://` is prepended, and the URI survives unchanged as the suffix. |
| `Consul.WithSchemeIdempotent` | main.go:216-218 | Defaulting the scheme twice gives the same address as doing it once. |
| `Decimal.FormatNat` | main.go:145 | The port text is non-empty, made only of digits, and has no leading zero. Port 0 is written exactly `0`. |
| `Decimal.FormatInt` | main.go:145 | The text starts with `-` exactly when the port is negative. After that optional sign come one or more digits, with no leading zero unless the port is 0, which is written exactly `0`. |
| `Decimal.ParseFormatInt` | main.go:145 | Parsing the port text gives back the port, so the `port` label identifies it. |
| `TagLabels.SplitFirst` | main.go:123-127 | There is no pair exactly when the tag has no `=`. Otherwise the tag is key, `=`, value, and the key contains no `=`. |
| `TagLabels.SplitAtFirstOnly` | main.go:123-137 | A tag is split at its first `=` only. The key is the text before it. The value is everything after it, later `=` included. |
| `TagLabels.EmptyLabels` | main.go:112-115 | Before any tag is read, exactly the configured names are labels, and each holds `""`. |
| `TagLabels.ApplyTag` | main.go:118-138 | No tag adds a label: unknown keys are ignored. A label that already holds a non-empty value keeps it. Empty tags, tags without `=`, and tags whose key is not configured leave the map unchanged. A tag whose configured key already holds a non-empty value leaves the map unchanged. A tag whose configured key still holds `""` writes its value to that key and changes nothing else. |
| `TagLabels.FirstNonEmptyWins` | main.go:133-137 | Once a label holds a non-empty value, no later tag changes it. |
| `TagLabels.EmptyValueDoesNotBlock` | main.go:133-137 | A `key=` tag with an empty value, at any position among the tags, does not block a later `key=value`. The resolved labels are the same as without that tag. |
| `TagLabels.DuplicateTagKeepsFirst` | main.go:133-137 | With `key=first` then `key=second` and `first` non-empty, the label resolves to `first`. |
| `TagLabels.ResolveMeaning` | main.go:112-138 | After all tags, the labels are exactly the configured names. Each holds the value of the first tag that gives it a non-empty value, or `""` when none does. |
| `TagLabels.ResolveLabels` | main.go:112-138 | The in-place loop builds the label map of the fold. Its keys are the configured names, and each value is the first non-empty definition, or `""`. |
| `CheckReduce.UpValue` | main.go:164-173 | The deciding check gives 1 exactly when its status is `passing`, and 0 otherwise. |
| `CheckReduce.Decide` | main.go:162-176 | An applicable check always gives 0 or 1. |
| `CheckReduce.DecideNoneIffOnlyMembership` | main.go:162-176 | There is no observation exactly when every check is `serfHealth`. This includes an instance with no checks. |
| `CheckReduce.DecideByFirstApplicable` | main.go:162-176 | The first check whose ID is not `serfHealth` decides the value. Later checks do not matter. |
| `CheckReduce.Reduce` | main.go:162-176 | The loop that stops at the first non-membership check returns what `Decide` specifies. |
| `Exporter.RegistryUp` | main.go:75-84 | The liveness gauge uses the `dial_consul` descriptor. Its one label value is the exporter's `addr`. Its value is 1 exactly when the leader probe succeeded, and 0 otherwise. |
| `Exporter.BuildValues` | main.go:141-154 | The value vector is as long as the label schema. It starts with datacenter, node address, service name, ID, address and decimal port. At schema position 6+i, where the label name is configured tag i, it holds that tag's resolved value, or `""` when the label is missing. |
| `Exporter.InstanceObservationMeaning` | main.go:109-176 | An instance yields one up gauge when a check decides, and none otherwise. Missing labels never suppress it. The gauge's value is the decision, it has one label value per schema name, and its identity values come first. Configured label i carries the first non-empty value a tag gives it, or `""`. |
| `Exporter.ScrapeWellFormed` | main.go:141-176 | Every up gauge of a scrape uses the `dial_up` descriptor, reports 0 or 1, and has exactly one value per label name, so the label count given to `MustNewConstMetric` always matches. |
| `Exporter.ScrapeMembership` | main.go:100-106 | An observation is in a scrape exactly when one of the visited services produced it. |
| `Exporter.ScrapeOrderIrrelevant` | main.go:100 | Visiting the same services in another order (Go map iteration) gives the same multiset of observations. |
| `Exporter.FailedServiceIsolated` | main.go:102-106 | When one service's fetch fails, the scrape is exactly the scrape with that service removed. Every other service is reported as before. |
| `Exporter.Exporter.constructor` | main.go:182-213 | The service set is the set of configured names. The up descriptor's labels are the six identity names followed by the configured tags in order. The client address is `addr` with the scheme defaulted. |
| `Exporter.Exporter.SendService` | main.go:102-178 | For one service, the sends are that service's observations: nothing if its fetch failed, otherwise one gauge per deciding instance, in registry order. |
| `Exporter.Exporter.SendServices` | main.go:100-179 | Every service of the set is visited exactly once, in some order. The sends are the observations of the services in that order. |
| `Exporter.Exporter.Collect` | main.go:73-181 | The liveness gauge is always sent first. If the service set is empty and the catalog listing fails, it is the only send and the set stays empty. Otherwise the set becomes the cached, configured or listed set, which persists for later scrapes. Each of its services is then visited once, and every gauge sent has one value per label name. |

## Left out

- The HTTP listener, landing page and `main` (main.go:36-56) are process plumbing.
- Flag parsing in `init` (main.go:25-34) is left out. The configuration comes in as constructor parameters instead: address, services, tags and datacenter.
- `Describe` (main.go:69-72) only sends the two descriptors. The model keeps the descriptors as constants of the exporter.
- The Consul API calls are foreign. `Status().Leader()`, `Catalog().Services` and `Health().Service` are fields of a `Registry` snapshot given to `Collect`. The fixed arguments of `Health().Service` (tag `""`, passingOnly `false`) are not modelled. The catalog's tag lists are dropped, because only the names are used.
- `url.Parse` and `consul_api.NewClient` are foreign library calls. So the construction failure of `newConsulClient` and `newExporter` is not modelled. The model keeps the scheme-defaulted address as `endpoint`.
- Log lines (`log.Warnf`, `log.Errorf`) have no effect on the output.
- Gauge values are `float64` in Go. Here they are integers, because the exporter only ever reports 0 and 1.
- The order in which Go iterates over a map is not modelled. The services are visited in an order `Collect` leaves open, returned as a ghost sequence. Properties about the order are stated per service, or as a multiset (`ScrapeOrderIrrelevant`).
- Concurrent scrapes on one exporter are not modelled: the cached service set is shared state between them.
- `MustNewConstMetric` also checks that label values are valid UTF-8. That check is not modelled, because strings are sequences of characters here.
- `Exporter.ScrapeWellFormed`: only the label count is proved to match. Whether the label names are valid and distinct is not modelled. A configured tag such as `dc`, `port`, `env-name` or a repeated tag makes the descriptor invalid, and registering the exporter then fails (main.go:42).
