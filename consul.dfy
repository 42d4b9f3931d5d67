/** The shape of what the Consul HTTP API returns to the exporter, and the two
    small helpers of main.go that prepare a client: the scheme default of
    newConsulClient and the query options of newQueryOption. The API calls
    themselves are abstract inputs gathered in a Registry snapshot. */
module Consul {
  import opened Wrappers

  /** The node an instance runs on (api.Node, the fields the exporter reads). */
  datatype Node = Node(datacenter: string, address: string)

  /** One registered service instance (api.AgentService). */
  datatype AgentService = AgentService(id: string, address: string, port: int, tags: seq<string>)

  /** One health check result (api.HealthCheck). */
  datatype HealthCheck = HealthCheck(checkId: string, status: string, output: string)

  /** One element of the answer of Health().Service (api.ServiceEntry). */
  datatype ServiceEntry = ServiceEntry(node: Node, service: AgentService, checks: seq<HealthCheck>)

  /** api.QueryOptions; an empty datacenter means the agent's default scope. */
  datatype QueryOptions = QueryOptions(datacenter: string)

  /** The answer of Health().Service(name, "", false, q): an error or the instances. */
  datatype HealthResult = HealthError | HealthOk(entries: seq<ServiceEntry>)

  /** What the registry answers during one scrape:
      - leaderOk: whether Status().Leader() returned without error;
      - catalogServices: Catalog().Services(q), None when it fails;
      - healthService: Health().Service(name, "", false, q). */
  datatype Registry = Registry(
    leaderOk: bool,
    catalogServices: QueryOptions -> Option<set<string>>,
    healthService: (string, QueryOptions) -> HealthResult)

  /** newQueryOption: the datacenter is set only when it is non-empty;
      otherwise the field keeps its zero value, the default scope. */
  function NewQueryOptions(dc: string): (q: QueryOptions)
    ensures q.datacenter == dc
  {
    var qo := QueryOptions("");
    if dc != "" then qo.(datacenter := dc) else qo
  }

  predicate IsPrefix(prefix: string, s: string) {
    |prefix| <= |s| && s[..|prefix|] == prefix
  }

  /** strings.Contains(s, sub). */
  predicate Contains(s: string, sub: string)
    decreases |s|
  {
    IsPrefix(sub, s) || (|s| > 0 && Contains(s[1..], sub))
  }

  /** An occurrence of sub at position i makes s contain sub. */
  lemma {:induction false} ContainsAt(s: string, sub: string, i: nat)
    requires i <= |s| && IsPrefix(sub, s[i..])
    ensures Contains(s, sub)
    decreases i
  {
    if i > 0 {
      assert s[1..][i - 1..] == s[i..];
      ContainsAt(s[1..], sub, i - 1);
    }
  }

  const SchemeSeparator: string := "://"
  const DefaultScheme: string := "http://"

  /** The scheme default of newConsulClient: "http://" is prepended when the
      URI names no scheme. The result always names one, and the given URI is
      kept, unchanged, as its suffix. */
  function WithScheme(uri: string): (r: string)
    ensures Contains(r, SchemeSeparator)
    ensures Contains(uri, SchemeSeparator) ==> r == uri
    ensures |r| >= |uri| && r[|r| - |uri|..] == uri
    ensures r != uri ==> r[..|r| - |uri|] == DefaultScheme
  {
    if Contains(uri, SchemeSeparator) then uri
    else
      var r := DefaultScheme + uri;
      assert r[4..][..3] == SchemeSeparator;
      ContainsAt(r, SchemeSeparator, 4);
      r
  }

  /** Defaulting the scheme twice is the same as doing it once. */
  lemma WithSchemeIdempotent(uri: string)
    ensures WithScheme(WithScheme(uri)) == WithScheme(uri)
  {
  }
}
