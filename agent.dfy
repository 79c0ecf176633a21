/** The node-metric side of the agent: the four builders that append to one
    shared batch, and the reporting cycle that runs them in order. */
module Agent {
  import opened Metrics
  import opened NodeStats
  import opened NodeMetrics
  import opened Strings

  class NexAgent {
    /** The host identity every node entry is labelled with. */
    const hostName: string
    /** The OS family of the host (hostInfo.OS), fixed at startup. */
    const hostOS: string

    constructor (hostName: string, hostOS: string)
      ensures this.hostName == hostName && this.hostOS == hostOS
    {
      this.hostName := hostName;
      this.hostOS := hostOS;
    }

    /** appendMetrics: one entry per record, in order, each carrying the envelope. */
    method AppendMetrics(metrics: Batch, records: seq<BasicMetric>, path: string, category: Category,
                         nodeId: string, partition: int, ts: Timestamp)
      modifies metrics
      ensures metrics.metrics == old(metrics.metrics) + Stamp(records, Envelope(path, category, nodeId, partition, ts))
    {
      metrics.metrics := metrics.metrics + Stamp(records, Envelope(path, category, nodeId, partition, ts));
    }

    /** addNodeLoadMetric: three load averages, or nothing (and nil) when load.Avg fails. */
    method AddNodeLoadMetric(metrics: Batch, ts: Timestamp, stats: StatProvider) returns (r: Batch?)
      modifies metrics
      ensures metrics.metrics == old(metrics.metrics) + Stamp(LoadContribution(hostName, stats.loadAvg), NodeEnvelope(hostName, ts))
      ensures r == if stats.loadAvg.Ok? then metrics else null
    {
      if stats.loadAvg.Err? {
        return null;
      }
      var avgStat := stats.loadAvg.value;
      var labels := "host=" + hostName;
      var loadMetrics := [ Gauge("node_cpu_load_avg_1", labels, avgStat.load1),
                           Gauge("node_cpu_load_avg_5", labels, avgStat.load5),
                           Gauge("node_cpu_load_avg_15", labels, avgStat.load15) ];
      AppendMetrics(metrics, loadMetrics, NodeMetricsPath, Node, hostName, 0, ts);
      return metrics;
    }

    /** addNodeCpuMetric: user/system/idle for the aggregate and every core,
        appended stat by stat, only once both cpu.Times queries succeeded. */
    method AddNodeCpuMetric(metrics: Batch, ts: Timestamp, stats: StatProvider) returns (r: Batch)
      modifies metrics
      ensures r == metrics
      ensures metrics.metrics == old(metrics.metrics)
        + Stamp(CpuContribution(hostName, stats.cpuTimes, stats.perCpuTimes), NodeEnvelope(hostName, ts))
    {
      if stats.cpuTimes.Err? {
        return metrics;
      }
      var cpuStats := stats.cpuTimes.value;
      if stats.perCpuTimes.Err? {
        return metrics;
      }
      var perCpuStats := stats.perCpuTimes.value;
      cpuStats := cpuStats + perCpuStats;

      ghost var e := NodeEnvelope(hostName, ts);
      for i := 0 to |cpuStats|
        invariant metrics.metrics == old(metrics.metrics) + Stamp(CpuRecords(hostName, cpuStats[..i]), e)
      {
        var cpuStat := cpuStats[i];
        var labels := "host=" + hostName + ",cpu=" + cpuStat.cpu;
        var cpuMetrics := [ Gauge("node_cpu_user", labels, cpuStat.user),
                            Gauge("node_cpu_system", labels, cpuStat.system),
                            Gauge("node_cpu_idle", labels, cpuStat.idle) ];
        ghost var before := CpuRecords(hostName, cpuStats[..i]);
        AppendMetrics(metrics, cpuMetrics, NodeMetricsPath, Node, hostName, 0, ts);

        assert cpuMetrics == TimesRecords(hostName, cpuStat);
        CpuRecordsStep(hostName, cpuStats, i);
        StampConcat(before, cpuMetrics, e);
      }
      assert cpuStats[..|cpuStats|] == cpuStats;
      return metrics;
    }

    /** addNodeMemoryMetric: five base gauges, plus buffers and cached on
        linux, or nothing when mem.VirtualMemory fails. */
    method AddNodeMemoryMetric(metrics: Batch, ts: Timestamp, stats: StatProvider) returns (r: Batch)
      modifies metrics
      ensures r == metrics
      ensures metrics.metrics == old(metrics.metrics)
        + Stamp(MemoryContribution(hostName, hostOS, stats.virtualMemory), NodeEnvelope(hostName, ts))
    {
      if stats.virtualMemory.Err? {
        return metrics;
      }
      var vMemStat := stats.virtualMemory.value;
      var labels := "host=" + hostName;
      var memoryMetrics := [ Gauge("node_memory_total", labels, vMemStat.total),
                             Gauge("node_memory_available", labels, vMemStat.available),
                             Gauge("node_memory_used", labels, vMemStat.used),
                             Gauge("node_memory_used_percent", labels, vMemStat.usedPercent),
                             Gauge("node_memory_free", labels, vMemStat.free) ];
      if hostOS == "linux" {
        memoryMetrics := memoryMetrics + [Gauge("node_memory_buffers", "host=" + hostName + ",os=linux", vMemStat.buffers)];
        memoryMetrics := memoryMetrics + [Gauge("node_memory_cached", "host=" + hostName + ",os=linux", vMemStat.cached)];
      }
      assert memoryMetrics == MemoryRecords(hostName, hostOS, vMemStat);
      AppendMetrics(metrics, memoryMetrics, NodeMetricsPath, Node, hostName, 0, ts);
      return metrics;
    }

    /** addNodeDiskMetric: partitions in order, three gauges for each one whose
        device resolves to /dev/sd, stopping at the first usage error with the
        entries of earlier partitions left in the batch. */
    method AddNodeDiskMetric(metrics: Batch, ts: Timestamp, stats: StatProvider) returns (r: Batch)
      modifies metrics
      ensures r == metrics
      ensures metrics.metrics == old(metrics.metrics)
        + Stamp(DiskContribution(hostName, stats.partitions, stats.usage), NodeEnvelope(hostName, ts))
    {
      if stats.partitions.Err? {
        return metrics;
      }
      var parts := stats.partitions.value;

      ghost var e := NodeEnvelope(hostName, ts);
      for i := 0 to |parts|
        invariant forall j :: 0 <= j < i ==> Probes(parts[j], stats.usage)
        invariant metrics.metrics == old(metrics.metrics) + Stamp(DiskScan(hostName, parts[..i], stats.usage), e)
      {
        var part := parts[i];
        var u := stats.usage(part.mountpoint);
        if u.Err? {
          DiskScanHalt(hostName, parts, stats.usage, i);
          return metrics;
        }
        var p := stats.usage(part.device);
        if p.Err? {
          DiskScanHalt(hostName, parts, stats.usage, i);
          return metrics;
        }

        var labels := "host=" + hostName;
        DiskScanStep(hostName, parts, stats.usage, i, u.value, p.value);
        ghost var before := DiskScan(hostName, parts[..i], stats.usage);
        if Contains(p.value.path, "/dev/sd") {
          var diskMetrics := [ Gauge("node_disk_total", labels, u.value.total),
                               Gauge("node_disk_free", labels, u.value.free),
                               Gauge("node_disk_used", labels, u.value.used) ];
          assert diskMetrics == DiskRecords(hostName, u.value);
          AppendMetrics(metrics, diskMetrics, NodeMetricsPath, Node, hostName, 0, ts);
          StampConcat(before, diskMetrics, e);
          assert DiskScan(hostName, parts[..i + 1], stats.usage) == before + diskMetrics;
        } else {
          assert DiskScan(hostName, parts[..i + 1], stats.usage) == before;
        }
      }
      assert parts[..|parts|] == parts;
      return metrics;
    }

    /** sendNodeMetrics up to the transport call: a fresh, empty batch filled
        by the load, CPU, memory and disk builders, in that order. */
    method SendNodeMetrics(ts: Timestamp, stats: StatProvider) returns (metrics: Batch)
      ensures fresh(metrics)
      ensures metrics.metrics == CycleMetrics(hostName, hostOS, ts, stats)
    {
      metrics := new Batch();
      var _ := AddNodeLoadMetric(metrics, ts, stats);
      var _ := AddNodeCpuMetric(metrics, ts, stats);
      var _ := AddNodeMemoryMetric(metrics, ts, stats);
      var _ := AddNodeDiskMetric(metrics, ts, stats);
    }
  }
}
