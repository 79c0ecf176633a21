# NexClipper agent: node metric pipeline

This project models how the NexClipper agent builds node metrics. It is a model in Dafny, with proofs about it.

In each reporting cycle, `sendNodeMetrics` creates an empty batch (`pb.Metrics`). It then runs four builders in a fixed order: load, CPU, memory and disk. Each builder reads host statistics and appends gauge records to that same batch, in place, through `appendMetrics`. Every entry carries one envelope: path `/node/metrics`, category NODE, the host name as node id, partition 0 and the cycle's timestamp.

Files and modules:

- `metrics.dfy`, module `Metrics`: the record model. It holds `BasicMetric`, the envelope, the batch entry `Metric` and the class `Batch` with its `metrics` sequence. `Stamp` gives the entries that `appendMetrics` adds for a record set.
- `node_stats.dfy`, module `NodeStats`: the stat queries' outcomes as input values (`StatProvider`). Each outcome is a `Result`.
- `strings.dfy`, module `Strings`: `strings.Contains`, used by the physical-device filter.
- `node_metrics.dfy`, module `NodeMetrics`: a pure function for each builder's record set, the builders' failure policies, and the cycle's batch `CycleMetrics`. The lemmas about them are here too.
- `agent.dfy`, module `Agent`: the class `NexAgent`. Its builder methods modify the shared `Batch`, using loops where the source loops. Each method is proved to append exactly the record set its function describes.

Each builder handles failures differently:

- Load and memory skip their output when their one query fails.
- CPU is all-or-nothing over its two queries.
- Disk stops at the first usage error. Entries already appended for earlier partitions stay in the batch.

Disk is not all-or-nothing. The code appends inside the partition loop (`pkg/nexagent/metric_node.go:196`) and returns early on a usage error (`:165`, `:169`). Entries already appended for earlier partitions therefore stay (`DiskScanKeepsEarlier`, `DiskScanStopsAtFirstFailure`).

Every CPU label, including the aggregate stat's, copies the provider's `CPU` field verbatim (`:69`); the model uses `stat.cpu`.

## Model

| member | source | states |
|---|---|---|
| `Metrics.Batch.constructor` | pkg/nexagent/metric_node.go:209-211 | a new batch has no entries |
| `Metrics.StampAt` | pkg/nexagent/metric_node.go:44 | appendMetrics adds exactly one entry per record, in record order, each carrying the given envelope and the record unchanged |
| `Metrics.StampConcat` | pkg/nexagent/metric_node.go:87 | appending two record sets one after the other gives the same entries as appending their concatenation |
| `Metrics.StampKeepsGauges` | pkg/nexagent/metric_node.go:44 | appending gauge records gives entries that all carry the envelope and are gauges |
| `Strings.ContainsIff` | pkg/nexagent/metric_node.go:175 | the substring test used on the device path holds exactly when the substring occurs at some position of the string |
| `NodeMetrics.LoadContributionSpec` | pkg/nexagent/metric_node.go:16-44 | a failed load query contributes nothing; otherwise exactly three gauges `node_cpu_load_avg_1`, `_5`, `_15` in that order, labelled `host=H`, with values Load1, Load5, Load15 |
| `NodeMetrics.CpuRecordsAt` | pkg/nexagent/metric_node.go:65-88 | the loop contributes 3 records per stat; stat i gives records 3i, 3i+1, 3i+2 named `node_cpu_user`, `node_cpu_system`, `node_cpu_idle`, labelled `host=H,cpu=<stat.CPU>`, with that stat's user, system and idle values |
| `NodeMetrics.CpuRecordsGauges` | pkg/nexagent/metric_node.go:70 | every CPU record is a gauge |
| `NodeMetrics.CpuRecordsStep` | pkg/nexagent/metric_node.go:65-88 | one turn of the loop over cpuStats adds exactly the three records of that stat after those of the earlier stats |
| `NodeMetrics.CpuRecordsConcat` | pkg/nexagent/metric_node.go:63-65 | the records for two sequences of stats, joined, are the records of the first sequence followed by those of the second |
| `NodeMetrics.CpuContributionSpec` | pkg/nexagent/metric_node.go:53-63 | if either cpu.Times query fails, the builder contributes nothing; otherwise the aggregate stats' records come first, then the per-core stats' records, 3 × (aggregate count + per-core count) in all |
| `NodeMetrics.MemoryContributionSpec` | pkg/nexagent/metric_node.go:94-148 | a failed memory query contributes nothing; otherwise total, available, used, used_percent and free labelled `host=H`, then buffers and cached labelled `host=H,os=linux` exactly when the OS is `linux`: 7 records on linux, 5 otherwise, and neither buffers nor cached off linux |
| `NodeMetrics.FirstFailure` | pkg/nexagent/metric_node.go:162-170 | the index of the first partition whose mountpoint or device usage query fails: every earlier partition succeeds on both, and the partition at that index fails |
| `NodeMetrics.DiskContributionSpec` | pkg/nexagent/metric_node.go:155-198 | a failed partition listing contributes nothing; otherwise the contribution is the partition scan over the listed partitions |
| `NodeMetrics.DiskScanOne` | pkg/nexagent/metric_node.go:163-197 | a single partition contributes `node_disk_total`, `node_disk_free`, `node_disk_used` labelled `host=H` with the mountpoint usage's values when both queries succeed and the device path contains `/dev/sd`; otherwise it contributes nothing |
| `NodeMetrics.DiskScanConcat` | pkg/nexagent/metric_node.go:162-198 | partitions are processed in order: after a run of partitions whose queries succeed, the scan goes on with the rest |
| `NodeMetrics.DiskScanStep` | pkg/nexagent/metric_node.go:162-198 | one turn of the loop whose two usage queries succeed: the partition's records (three if its device path contains `/dev/sd`, none otherwise) follow those of the earlier partitions |
| `NodeMetrics.DiskScanHalt` | pkg/nexagent/metric_node.go:163-170 | one turn of the loop that hits a mountpoint or device usage error: the scan's records are those of the earlier partitions only |
| `NodeMetrics.DiskScanStopsAtFirstFailure` | pkg/nexagent/metric_node.go:163-170 | the disk records are exactly those of the partitions before the first usage error; nothing after it is processed |
| `NodeMetrics.DiskScanKeepsEarlier` | pkg/nexagent/metric_node.go:196 | the records for any leading run of partitions are a prefix of the records for all partitions, so a later error does not remove entries already appended |
| `NodeMetrics.DiskScanCount` | pkg/nexagent/metric_node.go:175-197 | the disk builder contributes 3 records per physical partition before the first usage error |
| `NodeMetrics.DiskScanGauges` | pkg/nexagent/metric_node.go:179 | every disk record is a gauge |
| `NodeMetrics.CycleIsConcatenation` | pkg/nexagent/metric_node.go:209-216 | the cycle's batch is the load, CPU, memory and disk contributions, in that order, appended to an empty batch with one envelope |
| `NodeMetrics.ContributionsAreGauges` | pkg/nexagent/metric_node.go:27-179 | every record of the load, CPU, memory and disk contributions has type `gauge` |
| `NodeMetrics.CycleEntries` | pkg/nexagent/metric_node.go:209-216 | every entry of the cycle's batch is a gauge with path `/node/metrics`, category NODE, node id = host name, partition 0 and the cycle's timestamp |
| `Agent.NexAgent.AppendMetrics` | pkg/nexagent/metric_node.go:44 | the batch becomes its old entries followed by one entry per record with the given envelope |
| `Agent.NexAgent.AddNodeLoadMetric` | pkg/nexagent/metric_node.go:15-50 | the batch becomes its old entries followed by the load contribution; returns nil when the load query fails, the batch otherwise |
| `Agent.NexAgent.AddNodeCpuMetric` | pkg/nexagent/metric_node.go:52-91 | the batch becomes its old entries followed by the CPU contribution (nothing unless both queries succeed), appended one stat at a time |
| `Agent.NexAgent.AddNodeMemoryMetric` | pkg/nexagent/metric_node.go:93-151 | the batch becomes its old entries followed by the memory contribution, with the linux-only records added conditionally |
| `Agent.NexAgent.AddNodeDiskMetric` | pkg/nexagent/metric_node.go:154-200 | the batch becomes its old entries followed by the disk scan's records; an error partway leaves the earlier partitions' entries in place |
| `Agent.NexAgent.SendNodeMetrics` | pkg/nexagent/metric_node.go:202-216 | a fresh batch ends up holding exactly the cycle's entries: load, CPU, memory and disk, in that order |

## Left out

- The stat library calls (`load.Avg`, `cpu.Times`, `mem.VirtualMemory`, `disk.Partitions`, `disk.Usage`) are foreign I/O. They are inputs gathered in `StatProvider`. `disk.Usage` is a function of its path argument, so two queries of the same path within one cycle get the same answer in the model.
- `collectorClient.ReportMetrics` and `s.ctx` (`:218-221`) are a network call. The model stops at the finished batch, which `SendNodeMetrics` returns.
- The `defer`/`recover` panic guard (`:203-207`) and all `log.Printf` calls are runtime fault handling and logging. They have no modelled effect.
- Values are an abstract type `Value`, passed through unchanged. Float semantics and the `float64(...)` conversions of the uint64 memory and disk sizes are not modelled. The stat fields already hold the converted value.
- The timestamp is an abstract type `Timestamp` that is copied into entries.
- The body of `appendMetrics` and the protobuf layout of `pb.Metric` are not part of this model. An entry is an envelope plus the record. `appendMetrics` appends one entry per record, in order; this is inferred from its call sites.
- The unused `usage` slice (`:160`, `:173`) and the capacity hint `10` (`:210`) are not modelled. Neither changes the batch.
- Metric categories other than NODE are not used by this code and are not modelled.
- Host names, labels and device paths are character strings (`seq<char>`); byte strings that are not valid UTF-8 are not represented, and `strings.Contains` is modelled on characters rather than bytes (the two agree for the ASCII needle `/dev/sd` on valid UTF-8).
