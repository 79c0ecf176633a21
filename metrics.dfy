/** The metric record model shared by every builder: one gauge record, the
    envelope that appendMetrics stamps onto it, and the batch that one
    reporting cycle fills. */
module Metrics {

  /** A gauge value (a 64-bit float in the agent); passed through unchanged. */
  type Value

  /** The cycle's timestamp; copied into every entry, never inspected. */
  type Timestamp

  /** The only record kind the node builders produce. */
  const GaugeKind := "gauge"

  /** The source path every node entry is filed under. */
  const NodeMetricsPath := "/node/metrics"

  /** One record of a builder's record set (BasicMetric). */
  datatype BasicMetric = BasicMetric(name: string, labels: string, kind: string, value: Value)

  /** The metric category of an entry; the node builders only use NODE. */
  datatype Category = Node

  /** The identity and time appendMetrics puts on every entry it adds. */
  datatype Envelope = Envelope(path: string, category: Category, nodeId: string, partition: int, ts: Timestamp)

  /** One entry of the outgoing batch: a record together with its envelope. */
  datatype Metric = Metric(envelope: Envelope, record: BasicMetric)

  /** The entries appendMetrics adds for a record set: one per record, in order. */
  function Stamp(records: seq<BasicMetric>, e: Envelope): seq<Metric>
  {
    if records == [] then [] else [Metric(e, records[0])] + Stamp(records[1..], e)
  }

  lemma {:induction false} StampAt(records: seq<BasicMetric>, e: Envelope)
    ensures |Stamp(records, e)| == |records|
    ensures forall i :: 0 <= i < |records| ==> Stamp(records, e)[i] == Metric(e, records[i])
  {
    if records != [] {
      StampAt(records[1..], e);
    }
  }

  lemma {:induction false} StampConcat(a: seq<BasicMetric>, b: seq<BasicMetric>, e: Envelope)
    ensures Stamp(a + b, e) == Stamp(a, e) + Stamp(b, e)
  {
    if a == [] {
      assert a + b == b;
    } else {
      assert (a + b)[1..] == a[1..] + b;
      StampConcat(a[1..], b, e);
    }
  }

  /** Every record of the set is a gauge. */
  predicate AllGauge(records: seq<BasicMetric>)
  {
    forall i :: 0 <= i < |records| ==> records[i].kind == GaugeKind
  }

  lemma AllGaugeConcat(a: seq<BasicMetric>, b: seq<BasicMetric>)
    requires AllGauge(a) && AllGauge(b)
    ensures AllGauge(a + b)
  {
    forall i | 0 <= i < |a + b|
      ensures (a + b)[i].kind == GaugeKind
    {
      if i >= |a| {
        assert (a + b)[i] == b[i - |a|];
      }
    }
  }

  /** Every entry carries envelope e and a gauge record. */
  predicate StampedGauges(entries: seq<Metric>, e: Envelope)
  {
    forall i :: 0 <= i < |entries| ==> entries[i].envelope == e && entries[i].record.kind == GaugeKind
  }

  lemma StampKeepsGauges(records: seq<BasicMetric>, e: Envelope)
    requires AllGauge(records)
    ensures StampedGauges(Stamp(records, e), e)
  {
    StampAt(records, e);
  }

  /** The outgoing batch (pb.Metrics); builders only ever append to it. */
  class Batch {
    var metrics: seq<Metric>

    constructor ()
      ensures metrics == []
    {
      metrics := [];
    }
  }
}
