/** Check reduction in Exporter.Collect (main.go:162-176): the first check
    that is not Consul's cluster-membership check decides whether the
    instance is up. */
module CheckReduce {
  import opened Wrappers
  import opened Consul

  /** The synthetic check Consul attaches to every node for cluster membership. */
  const SerfHealth: string := "serfHealth"
  const Passing: string := "passing"

  /** The gauge value a deciding check reports: 1 for passing, 0 otherwise. */
  function UpValue(status: string): (v: int)
    ensures v == 1 <==> status == Passing
    ensures v == 0 || v == 1
  {
    if status == Passing then 1 else 0
  }

  /** The value the checks of one instance report, None when no check other
      than the membership check exists. */
  function Decide(checks: seq<HealthCheck>): (r: Option<int>)
    ensures r.Some? ==> r.value == 0 || r.value == 1
  {
    if checks == [] then None
    else if checks[0].checkId != SerfHealth then Some(UpValue(checks[0].status))
    else Decide(checks[1..])
  }

  /** No observation exactly when every check is the membership check
      (in particular when there are no checks at all). */
  lemma {:induction false} DecideNoneIffOnlyMembership(checks: seq<HealthCheck>)
    ensures Decide(checks).None? <==> forall i :: 0 <= i < |checks| ==> checks[i].checkId == SerfHealth
  {
    if checks != [] {
      DecideNoneIffOnlyMembership(checks[1..]);
      if checks[0].checkId == SerfHealth {
        assert forall i :: 1 <= i < |checks| ==> checks[i] == checks[1..][i - 1];
      }
    }
  }

  /** The first non-membership check is authoritative: later checks, whatever
      their status, do not matter. */
  lemma {:induction false} DecideByFirstApplicable(checks: seq<HealthCheck>, i: nat)
    requires i < |checks| && checks[i].checkId != SerfHealth
    requires forall j :: 0 <= j < i ==> checks[j].checkId == SerfHealth
    ensures Decide(checks) == Some(UpValue(checks[i].status))
  {
    if i > 0 {
      DecideByFirstApplicable(checks[1..], i - 1);
    }
  }

  /** The loop of main.go:162-176 that stops at the first deciding check. */
  method Reduce(checks: seq<HealthCheck>) returns (up: Option<int>)
    ensures up == Decide(checks)
  {
    up := None;
    var i := 0;
    while i < |checks|
      invariant 0 <= i <= |checks|
      invariant up == None
      invariant Decide(checks[i..]) == Decide(checks)
    {
      var check := checks[i];
      if check.checkId != SerfHealth {
        up := Some(UpValue(check.status));
        break;
      }
      assert checks[i..][1..] == checks[i + 1..];
      i := i + 1;
    }
  }
}
