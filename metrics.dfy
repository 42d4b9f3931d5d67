/** The Prometheus side, seen from the exporter: metric descriptors, constant
    gauge observations and the channel that Collect sends them on. */
module Metrics {

  /** prometheus.Desc: fully-qualified name, help text, variable label names. */
  datatype Desc = Desc(fqName: string, help: string, labelNames: seq<string>)

  /** prometheus.MustNewConstMetric(desc, GaugeValue, value, labelValues...).
      The exporter only ever reports 0 or 1, so the value is an integer. */
  datatype Metric = ConstGauge(desc: Desc, value: int, labelValues: seq<string>)

  /** MustNewConstMetric panics unless exactly one value is given per label name. */
  predicate WellFormed(m: Metric) {
    |m.labelValues| == |m.desc.labelNames|
  }

  /** The channel `ch chan<- prometheus.Metric` handed to Collect: every send
      appends to what has been sent so far. */
  class MetricChannel {
    var sent: seq<Metric>

    constructor ()
      ensures sent == []
    {
      sent := [];
    }

    method Send(m: Metric)
      modifies this
      ensures sent == old(sent) + [m]
    {
      sent := sent + [m];
    }
  }
}
