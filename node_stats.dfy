/** The host statistics the node builders read, as values. Each query the
    agent makes to the OS stat library (load.Avg, cpu.Times, mem.VirtualMemory,
    disk.Partitions, disk.Usage) is an input here: either its result or an
    error. */
module NodeStats {
  import opened Metrics

  /** The outcome of one stat query. */
  datatype Result<T> = Ok(value: T) | Err(message: string)

  /** load.Avg: the 1, 5 and 15 minute load averages. */
  datatype AvgStat = AvgStat(load1: Value, load5: Value, load15: Value)

  /** One element of cpu.Times: CPU time accounting of one core, or of all cores together. */
  datatype TimesStat = TimesStat(cpu: string, user: Value, system: Value, idle: Value)

  /** mem.VirtualMemory. */
  datatype VirtualMemoryStat = VirtualMemoryStat(
    total: Value, available: Value, used: Value, usedPercent: Value,
    free: Value, buffers: Value, cached: Value)

  /** One element of disk.Partitions. */
  datatype PartitionStat = PartitionStat(device: string, mountpoint: string)

  /** disk.Usage: usage of the filesystem at a path, and the path it resolved. */
  datatype UsageStat = UsageStat(path: string, total: Value, free: Value, used: Value)

  /** What every stat query of one cycle answers.
      cpuTimes is cpu.Times(false), perCpuTimes is cpu.Times(true),
      partitions is disk.Partitions(false), usage(p) is disk.Usage(p). */
  datatype StatProvider = StatProvider(
    loadAvg: Result<AvgStat>,
    cpuTimes: Result<seq<TimesStat>>,
    perCpuTimes: Result<seq<TimesStat>>,
    virtualMemory: Result<VirtualMemoryStat>,
    partitions: Result<seq<PartitionStat>>,
    usage: string -> Result<UsageStat>)
}
