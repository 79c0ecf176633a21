/** What each node builder adds to the batch, as functions of the stat
    queries' outcomes, and the properties of those record sets: exact names,
    labels and values, conditional fields, and each builder's failure policy.
    The builder methods of Agent.NexAgent are proved against these. */
module NodeMetrics {
  import opened Metrics
  import opened NodeStats
  import opened Strings

  /** A gauge record. */
  function Gauge(name: string, labels: string, value: Value): BasicMetric
  {
    BasicMetric(name, labels, GaugeKind, value)
  }

  /** The envelope every node builder passes to appendMetrics. */
  function NodeEnvelope(hostName: string, ts: Timestamp): Envelope
  {
    Envelope(NodeMetricsPath, Node, hostName, 0, ts)
  }

  // ---------------------------------------------------------------- load

  /** The record set of addNodeLoadMetric once load.Avg succeeded. */
  function LoadRecords(hostName: string, s: AvgStat): seq<BasicMetric>
  {
    var labels := "host=" + hostName;
    [ Gauge("node_cpu_load_avg_1", labels, s.load1),
      Gauge("node_cpu_load_avg_5", labels, s.load5),
      Gauge("node_cpu_load_avg_15", labels, s.load15) ]
  }

  /** What addNodeLoadMetric appends: nothing when load.Avg fails. */
  function LoadContribution(hostName: string, loadAvg: Result<AvgStat>): seq<BasicMetric>
  {
    match loadAvg
    case Err(_) => []
    case Ok(s) => LoadRecords(hostName, s)
  }

  lemma LoadContributionSpec(hostName: string, loadAvg: Result<AvgStat>)
    ensures loadAvg.Err? ==> LoadContribution(hostName, loadAvg) == []
    ensures loadAvg.Ok? ==>
      var c, s := LoadContribution(hostName, loadAvg), loadAvg.value;
      && |c| == 3
      && c[0].name == "node_cpu_load_avg_1" && c[0].value == s.load1
      && c[1].name == "node_cpu_load_avg_5" && c[1].value == s.load5
      && c[2].name == "node_cpu_load_avg_15" && c[2].value == s.load15
      && (forall i :: 0 <= i < 3 ==> c[i].labels == "host=" + hostName && c[i].kind == "gauge")
  {
  }

  // ----------------------------------------------------------------- cpu

  /** The record set addNodeCpuMetric builds for one TimesStat. */
  function TimesRecords(hostName: string, s: TimesStat): seq<BasicMetric>
  {
    var labels := "host=" + hostName + ",cpu=" + s.cpu;
    [ Gauge("node_cpu_user", labels, s.user),
      Gauge("node_cpu_system", labels, s.system),
      Gauge("node_cpu_idle", labels, s.idle) ]
  }

  /** The records appended by the loop over cpuStats, in order. */
  function CpuRecords(hostName: string, stats: seq<TimesStat>): seq<BasicMetric>
  {
    if stats == [] then [] else TimesRecords(hostName, stats[0]) + CpuRecords(hostName, stats[1..])
  }

  /** What addNodeCpuMetric appends: the aggregate stats followed by the
      per-core stats, or nothing when either cpu.Times query fails. */
  function CpuContribution(hostName: string, cpuTimes: Result<seq<TimesStat>>, perCpuTimes: Result<seq<TimesStat>>): seq<BasicMetric>
  {
    if cpuTimes.Err? || perCpuTimes.Err? then []
    else CpuRecords(hostName, cpuTimes.value + perCpuTimes.value)
  }

  /** The stat at position i contributes entries 3i, 3i+1 and 3i+2. */
  lemma {:induction false} CpuRecordsAt(hostName: string, stats: seq<TimesStat>)
    ensures |CpuRecords(hostName, stats)| == 3 * |stats|
    ensures forall i :: 0 <= i < |stats| ==>
      var r, labels := CpuRecords(hostName, stats), "host=" + hostName + ",cpu=" + stats[i].cpu;
      && r[3 * i] == BasicMetric("node_cpu_user", labels, "gauge", stats[i].user)
      && r[3 * i + 1] == BasicMetric("node_cpu_system", labels, "gauge", stats[i].system)
      && r[3 * i + 2] == BasicMetric("node_cpu_idle", labels, "gauge", stats[i].idle)
  {
    if stats != [] {
      CpuRecordsAt(hostName, stats[1..]);
      var r := CpuRecords(hostName, stats);
      assert r == TimesRecords(hostName, stats[0]) + CpuRecords(hostName, stats[1..]);
      forall i | 1 <= i < |stats|
        ensures r[3 * i] == CpuRecords(hostName, stats[1..])[3 * (i - 1)]
        ensures r[3 * i + 1] == CpuRecords(hostName, stats[1..])[3 * (i - 1) + 1]
        ensures r[3 * i + 2] == CpuRecords(hostName, stats[1..])[3 * (i - 1) + 2]
        ensures stats[i] == stats[1..][i - 1]
      {
      }
    }
  }

  lemma {:induction false} CpuRecordsGauges(hostName: string, stats: seq<TimesStat>)
    ensures AllGauge(CpuRecords(hostName, stats))
  {
    if stats != [] {
      CpuRecordsGauges(hostName, stats[1..]);
    }
  }

  /** Records of consecutive stat sequences are concatenated in order. */
  lemma {:induction false} CpuRecordsConcat(hostName: string, a: seq<TimesStat>, b: seq<TimesStat>)
    ensures CpuRecords(hostName, a + b) == CpuRecords(hostName, a) + CpuRecords(hostName, b)
  {
    if a == [] {
      assert a + b == b;
    } else {
      assert (a + b)[1..] == a[1..] + b;
      CpuRecordsConcat(hostName, a[1..], b);
    }
  }

  /** One turn of the loop over cpuStats adds the records of stat i. */
  lemma CpuRecordsStep(hostName: string, stats: seq<TimesStat>, i: nat)
    requires i < |stats|
    ensures CpuRecords(hostName, stats[..i + 1]) == CpuRecords(hostName, stats[..i]) + TimesRecords(hostName, stats[i])
  {
    assert stats[..i + 1] == stats[..i] + [stats[i]];
    assert [stats[i]][1..] == [];
    CpuRecordsConcat(hostName, stats[..i], [stats[i]]);
  }

  /** CPU all-or-nothing: no output unless both queries succeed; otherwise
      three records per stat, the aggregate stats first. */
  lemma CpuContributionSpec(hostName: string, cpuTimes: Result<seq<TimesStat>>, perCpuTimes: Result<seq<TimesStat>>)
    ensures cpuTimes.Err? || perCpuTimes.Err? ==> CpuContribution(hostName, cpuTimes, perCpuTimes) == []
    ensures cpuTimes.Ok? && perCpuTimes.Ok? ==>
      && CpuContribution(hostName, cpuTimes, perCpuTimes)
         == CpuRecords(hostName, cpuTimes.value) + CpuRecords(hostName, perCpuTimes.value)
      && |CpuContribution(hostName, cpuTimes, perCpuTimes)| == 3 * (|cpuTimes.value| + |perCpuTimes.value|)
  {
    if cpuTimes.Ok? && perCpuTimes.Ok? {
      CpuRecordsConcat(hostName, cpuTimes.value, perCpuTimes.value);
      CpuRecordsAt(hostName, cpuTimes.value + perCpuTimes.value);
    }
  }

  // -------------------------------------------------------------- memory

  /** The record set of addNodeMemoryMetric once mem.VirtualMemory succeeded. */
  function MemoryRecords(hostName: string, os: string, s: VirtualMemoryStat): seq<BasicMetric>
  {
    var labels := "host=" + hostName;
    var base := [ Gauge("node_memory_total", labels, s.total),
                  Gauge("node_memory_available", labels, s.available),
                  Gauge("node_memory_used", labels, s.used),
                  Gauge("node_memory_used_percent", labels, s.usedPercent),
                  Gauge("node_memory_free", labels, s.free) ];
    if os == "linux" then
      var linuxLabels := "host=" + hostName + ",os=linux";
      base + [ Gauge("node_memory_buffers", linuxLabels, s.buffers),
               Gauge("node_memory_cached", linuxLabels, s.cached) ]
    else base
  }

  /** What addNodeMemoryMetric appends: nothing when mem.VirtualMemory fails. */
  function MemoryContribution(hostName: string, os: string, virtualMemory: Result<VirtualMemoryStat>): seq<BasicMetric>
  {
    match virtualMemory
    case Err(_) => []
    case Ok(s) => MemoryRecords(hostName, os, s)
  }

  lemma MemoryContributionSpec(hostName: string, os: string, virtualMemory: Result<VirtualMemoryStat>)
    ensures virtualMemory.Err? ==> MemoryContribution(hostName, os, virtualMemory) == []
    ensures virtualMemory.Ok? ==>
      var c, s := MemoryContribution(hostName, os, virtualMemory), virtualMemory.value;
      && |c| == (if os == "linux" then 7 else 5)
      && c[0] == BasicMetric("node_memory_total", "host=" + hostName, "gauge", s.total)
      && c[1] == BasicMetric("node_memory_available", "host=" + hostName, "gauge", s.available)
      && c[2] == BasicMetric("node_memory_used", "host=" + hostName, "gauge", s.used)
      && c[3] == BasicMetric("node_memory_used_percent", "host=" + hostName, "gauge", s.usedPercent)
      && c[4] == BasicMetric("node_memory_free", "host=" + hostName, "gauge", s.free)
      && (os == "linux" ==>
            && c[5] == BasicMetric("node_memory_buffers", "host=" + hostName + ",os=linux", "gauge", s.buffers)
            && c[6] == BasicMetric("node_memory_cached", "host=" + hostName + ",os=linux", "gauge", s.cached))
      && (os != "linux" ==>
            forall i :: 0 <= i < |c| ==> c[i].name != "node_memory_buffers" && c[i].name != "node_memory_cached")
  {
  }

  // ---------------------------------------------------------------- disk

  /** The record set addNodeDiskMetric builds from a mountpoint's usage. */
  function DiskRecords(hostName: string, u: UsageStat): seq<BasicMetric>
  {
    var labels := "host=" + hostName;
    [ Gauge("node_disk_total", labels, u.total),
      Gauge("node_disk_free", labels, u.free),
      Gauge("node_disk_used", labels, u.used) ]
  }

  /** The physical-device filter: the device usage resolved to a /dev/sd path. */
  predicate IsPhysical(device: UsageStat)
  {
    Contains(device.path, "/dev/sd")
  }

  /** The two usage queries made for one partition: by mountpoint, then by device. */
  datatype Probe = Probed(mount: UsageStat, device: UsageStat) | Failed

  function ProbePartition(part: PartitionStat, usage: string -> Result<UsageStat>): Probe
  {
    match usage(part.mountpoint)
    case Err(_) => Failed
    case Ok(u) =>
      match usage(part.device)
      case Err(_) => Failed
      case Ok(p) => Probed(u, p)
  }

  /** Both usage queries of a partition succeeded. */
  predicate Probes(part: PartitionStat, usage: string -> Result<UsageStat>)
  {
    ProbePartition(part, usage).Probed?
  }

  /** The records the partition loop appends: partitions in order, each
      adding its three records when its device is physical, until the first
      partition whose usage queries fail. */
  function DiskScan(hostName: string, parts: seq<PartitionStat>, usage: string -> Result<UsageStat>): seq<BasicMetric>
  {
    if parts == [] then []
    else match ProbePartition(parts[0], usage)
      case Failed => []
      case Probed(u, p) =>
        (if IsPhysical(p) then DiskRecords(hostName, u) else []) + DiskScan(hostName, parts[1..], usage)
  }

  /** What addNodeDiskMetric appends: nothing when disk.Partitions fails. */
  function DiskContribution(hostName: string, partitions: Result<seq<PartitionStat>>, usage: string -> Result<UsageStat>): seq<BasicMetric>
  {
    match partitions
    case Err(_) => []
    case Ok(parts) => DiskScan(hostName, parts, usage)
  }

  /** Disk: a failed partition listing contributes nothing; otherwise the
      partition scan over the listed partitions. */
  lemma DiskContributionSpec(hostName: string, partitions: Result<seq<PartitionStat>>, usage: string -> Result<UsageStat>)
    ensures partitions.Err? ==> DiskContribution(hostName, partitions, usage) == []
    ensures partitions.Ok? ==> DiskContribution(hostName, partitions, usage) == DiskScan(hostName, partitions.value, usage)
  {
  }

  /** The index of the first partition whose usage queries fail (|parts| if none). */
  function FirstFailure(parts: seq<PartitionStat>, usage: string -> Result<UsageStat>): (k: nat)
    ensures k <= |parts|
    ensures forall j :: 0 <= j < k ==> Probes(parts[j], usage)
    ensures k < |parts| ==> !Probes(parts[k], usage)
  {
    if parts == [] || !Probes(parts[0], usage) then 0
    else 1 + FirstFailure(parts[1..], usage)
  }

  /** The number of partitions that are probed and physical. */
  function PhysicalCount(parts: seq<PartitionStat>, usage: string -> Result<UsageStat>): nat
  {
    if parts == [] then 0
    else (match ProbePartition(parts[0], usage)
          case Failed => 0
          case Probed(_, p) => if IsPhysical(p) then 1 else 0)
         + PhysicalCount(parts[1..], usage)
  }

  /** One partition on its own: three records taken from the mountpoint's
      usage and labelled host=H when both queries succeed and the device is
      physical, and nothing otherwise. */
  lemma DiskScanOne(hostName: string, part: PartitionStat, usage: string -> Result<UsageStat>)
    ensures var r := DiskScan(hostName, [part], usage);
      match ProbePartition(part, usage)
      case Failed => r == []
      case Probed(u, p) =>
        if Contains(p.path, "/dev/sd") then
          r == [ BasicMetric("node_disk_total", "host=" + hostName, "gauge", u.total),
                 BasicMetric("node_disk_free", "host=" + hostName, "gauge", u.free),
                 BasicMetric("node_disk_used", "host=" + hostName, "gauge", u.used) ]
        else r == []
  {
    assert [part][1..] == [];
  }

  /** Partitions are processed in order: after a run of successfully probed
      partitions, the scan continues with the rest. */
  lemma {:induction false} DiskScanConcat(hostName: string, a: seq<PartitionStat>, b: seq<PartitionStat>, usage: string -> Result<UsageStat>)
    requires forall j :: 0 <= j < |a| ==> Probes(a[j], usage)
    ensures DiskScan(hostName, a + b, usage) == DiskScan(hostName, a, usage) + DiskScan(hostName, b, usage)
  {
    if a == [] {
      assert a + b == b;
    } else {
      assert (a + b)[0] == a[0];
      assert (a + b)[1..] == a[1..] + b;
      assert Probes(a[0], usage);
      DiskScanConcat(hostName, a[1..], b, usage);
    }
  }

  /** One turn of the partition loop, after i partitions probed successfully,
      when both usage queries of partition i succeed: its records, if any,
      follow those of the earlier partitions. */
  lemma DiskScanStep(hostName: string, parts: seq<PartitionStat>, usage: string -> Result<UsageStat>, i: nat,
                     u: UsageStat, p: UsageStat)
    requires i < |parts|
    requires forall j :: 0 <= j < i ==> Probes(parts[j], usage)
    requires usage(parts[i].mountpoint) == Ok(u) && usage(parts[i].device) == Ok(p)
    ensures forall j :: 0 <= j < i + 1 ==> Probes(parts[j], usage)
    ensures DiskScan(hostName, parts[..i + 1], usage)
      == DiskScan(hostName, parts[..i], usage) + (if Contains(p.path, "/dev/sd") then DiskRecords(hostName, u) else [])
  {
    assert ProbePartition(parts[i], usage) == Probed(u, p);
    assert parts[..i + 1] == parts[..i] + [parts[i]];
    DiskScanConcat(hostName, parts[..i], [parts[i]], usage);
    assert [parts[i]][1..] == [];
  }

  /** One turn of the partition loop that hits a usage error on partition i:
      the scan ends with the records of the earlier partitions. */
  lemma DiskScanHalt(hostName: string, parts: seq<PartitionStat>, usage: string -> Result<UsageStat>, i: nat)
    requires i < |parts|
    requires forall j :: 0 <= j < i ==> Probes(parts[j], usage)
    requires usage(parts[i].mountpoint).Err? || usage(parts[i].device).Err?
    ensures DiskScan(hostName, parts, usage) == DiskScan(hostName, parts[..i], usage)
  {
    assert parts == parts[..i] + parts[i..];
    assert parts[i..][0] == parts[i];
    DiskScanConcat(hostName, parts[..i], parts[i..], usage);
  }

  /** A partition whose usage queries fail stops the scan: nothing after it is added. */
  lemma {:induction false} DiskScanStopsAtFirstFailure(hostName: string, parts: seq<PartitionStat>, usage: string -> Result<UsageStat>)
    ensures DiskScan(hostName, parts, usage) == DiskScan(hostName, parts[..FirstFailure(parts, usage)], usage)
  {
    var k := FirstFailure(parts, usage);
    assert parts == parts[..k] + parts[k..];
    DiskScanConcat(hostName, parts[..k], parts[k..], usage);
    if k < |parts| {
      assert parts[k..][0] == parts[k];
    } else {
      assert parts[k..] == [];
    }
  }

  /** Records added for earlier partitions stay: the scan of any prefix of
      the partitions is a prefix of the scan of all of them. */
  lemma {:induction false} DiskScanKeepsEarlier(hostName: string, parts: seq<PartitionStat>, usage: string -> Result<UsageStat>, k: nat)
    requires k <= |parts|
    ensures DiskScan(hostName, parts[..k], usage) <= DiskScan(hostName, parts, usage)
  {
    if k > 0 {
      assert parts[..k][0] == parts[0];
      assert parts[..k][1..] == parts[1..][..k - 1];
      DiskScanKeepsEarlier(hostName, parts[1..], usage, k - 1);
    }
  }

  /** Three records for each physical partition before the first failure. */
  lemma {:induction false} DiskScanCount(hostName: string, parts: seq<PartitionStat>, usage: string -> Result<UsageStat>)
    ensures |DiskScan(hostName, parts, usage)| == 3 * PhysicalCount(parts[..FirstFailure(parts, usage)], usage)
  {
    if parts != [] && Probes(parts[0], usage) {
      DiskScanCount(hostName, parts[1..], usage);
      var k := FirstFailure(parts, usage);
      assert parts[..k][0] == parts[0];
      assert parts[..k][1..] == parts[1..][..k - 1];
    }
  }

  lemma {:induction false} DiskScanGauges(hostName: string, parts: seq<PartitionStat>, usage: string -> Result<UsageStat>)
    ensures AllGauge(DiskScan(hostName, parts, usage))
  {
    if parts != [] && Probes(parts[0], usage) {
      DiskScanGauges(hostName, parts[1..], usage);
    }
  }

  // --------------------------------------------------------------- cycle

  /** The batch sendNodeMetrics hands to the collector: the contributions of
      the load, CPU, memory and disk builders, in that order, each stamped
      with the node envelope. */
  function CycleMetrics(hostName: string, os: string, ts: Timestamp, stats: StatProvider): seq<Metric>
  {
    var e := NodeEnvelope(hostName, ts);
    Stamp(LoadContribution(hostName, stats.loadAvg), e)
      + Stamp(CpuContribution(hostName, stats.cpuTimes, stats.perCpuTimes), e)
      + Stamp(MemoryContribution(hostName, os, stats.virtualMemory), e)
      + Stamp(DiskContribution(hostName, stats.partitions, stats.usage), e)
  }

  /** The cycle's batch is the four record sets, concatenated in builder order,
      turned into entries with one envelope. */
  lemma CycleIsConcatenation(hostName: string, os: string, ts: Timestamp, stats: StatProvider)
    ensures CycleMetrics(hostName, os, ts, stats)
      == Stamp(LoadContribution(hostName, stats.loadAvg)
               + CpuContribution(hostName, stats.cpuTimes, stats.perCpuTimes)
               + MemoryContribution(hostName, os, stats.virtualMemory)
               + DiskContribution(hostName, stats.partitions, stats.usage),
               NodeEnvelope(hostName, ts))
  {
    var e := NodeEnvelope(hostName, ts);
    var l, c, m, d := LoadContribution(hostName, stats.loadAvg),
                      CpuContribution(hostName, stats.cpuTimes, stats.perCpuTimes),
                      MemoryContribution(hostName, os, stats.virtualMemory),
                      DiskContribution(hostName, stats.partitions, stats.usage);
    StampConcat(l, c, e);
    StampConcat(l + c, m, e);
    StampConcat(l + c + m, d, e);
  }

  /** Every builder produces gauges only. */
  lemma ContributionsAreGauges(hostName: string, os: string, stats: StatProvider)
    ensures AllGauge(LoadContribution(hostName, stats.loadAvg))
    ensures AllGauge(CpuContribution(hostName, stats.cpuTimes, stats.perCpuTimes))
    ensures AllGauge(MemoryContribution(hostName, os, stats.virtualMemory))
    ensures AllGauge(DiskContribution(hostName, stats.partitions, stats.usage))
  {
    if stats.cpuTimes.Ok? && stats.perCpuTimes.Ok? {
      CpuRecordsGauges(hostName, stats.cpuTimes.value + stats.perCpuTimes.value);
    }
    if stats.partitions.Ok? {
      DiskScanGauges(hostName, stats.partitions.value, stats.usage);
    }
  }

  /** Every entry of the cycle's batch is a gauge carrying the same timestamp,
      the path /node/metrics, category NODE, the host name and partition 0. */
  lemma CycleEntries(hostName: string, os: string, ts: Timestamp, stats: StatProvider)
    ensures var b := CycleMetrics(hostName, os, ts, stats);
      forall i :: 0 <= i < |b| ==>
        && b[i].envelope == Envelope("/node/metrics", Node, hostName, 0, ts)
        && b[i].record.kind == "gauge"
  {
    var e := NodeEnvelope(hostName, ts);
    var l, c, m, d := LoadContribution(hostName, stats.loadAvg),
                      CpuContribution(hostName, stats.cpuTimes, stats.perCpuTimes),
                      MemoryContribution(hostName, os, stats.virtualMemory),
                      DiskContribution(hostName, stats.partitions, stats.usage);
    ContributionsAreGauges(hostName, os, stats);
    AllGaugeConcat(l, c);
    AllGaugeConcat(l + c, m);
    AllGaugeConcat(l + c + m, d);
    CycleIsConcatenation(hostName, os, ts, stats);
    StampKeepsGauges(l + c + m + d, e);
  }
}
