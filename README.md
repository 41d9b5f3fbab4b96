# kafka-lag: consumer-group lag, modelled in Dafny

kafka-lag runs periodically. Each run reads one configuration per namespace and builds a Kafka
client for each namespace's cluster. It then lists that cluster's consumer groups and works out
each group's lag. A partition's lag is the newest offset minus the group's committed offset. It
sums those lags per topic and pushes one text line per topic, for example
`kafka_lag{namespace="ns", Consumer_Group="g", Topic="t"} 42`.

This project models, in Dafny, the two computations that decide what gets pushed:

- `calculateGroupLag` (module `GroupLag`). It walks every member of the group description, then
  every topic of the member's assignment, then every partition of that topic. Each partition
  adds its lag to an int64 per-topic map. The walk stops at the first error. Once the walk is
  done, one line per map entry is emitted.
- The configuration and version-matching loop of `Get_kafka_info` (modules `Versions` and
  `KafkaInfo`), plus a sequential run of `calculateGroupLag` over every group of every resolved
  cluster.

The broker is reduced to its answers: a `GroupLag.Broker` value holds the group description or
its error, whether the offset manager opened, the newest offset of each (topic, partition), and
the partition offset manager of each (topic, partition). That manager is an error, nil, or the
committed offset it reports. The configuration service and the client library are inputs too.

Go iterates maps in an unspecified order. Every loop over a Go map therefore picks its next key
with `:|`, so each method is verified for every visiting order. When an error can be met, which
error is returned depends on that order. The model states that the returned error is one of
the errors the walk can meet, and that an error is returned exactly when one can be met.

int64 arithmetic wraps around (`GoInt.Wrap`, `GoInt.Add`, `GoInt.Sub`). The specification
functions sum lags exactly, and the map holds the wrapped sums. `GoInt.WrapAdd` shows that
wrapping after each `+=` gives the same result as wrapping the exact total once.

Files:

- `wrappers.dfy`: `Option` and `Result`.
- `go_int.dfy`: Go's int64.
- `exposition.dfy`: the pushed text line and a parser for it, used only to state what a line
  carries.
- `group_lag.dfy`: calculateGroupLag.
- `versions.dfy`: the version lookup.
- `kafka_info.dfy`: Get_kafka_info.

An unsupported version does not merely exclude its own cluster. At main.go:95-98 the code
`return`s from `Get_kafka_info` at the first namespace whose configured version is unsupported,
so no cluster and no group of that run is processed, including the clusters already resolved.
`KafkaInfo.Instances` and `KafkaInfo.GetKafkaInfo` model that return.

## Model

| member | source | states |
|---|---|---|
| `GoInt.WrapAdd` | main.go:198 | Go's `+=` on int64 keeps the entry equal to the wrapped exact sum, whatever the number of steps |
| `GoInt.Sub` | main.go:197 | `newest - committed` as Go's int64 subtraction, i.e. the exact difference wrapped to int64 |
| `GoInt.Add` | main.go:198 | the entry plus the lag as Go's int64 addition, i.e. the exact sum wrapped to int64 |
| `Exposition.DecimalString` | main.go:205 | `%d` of the lag is non-empty and starts with `-` exactly when the lag is negative |
| `Exposition.DecimalRoundTrip` | main.go:205 | reading back the printed lag gives the lag |
| `Exposition.MetricLineRoundTrip` | main.go:205 | the pushed line carries exactly the namespace, group, topic and lag it was built from, when no label value holds a double quote |
| `GroupLag.PartitionLag` | main.go:191-197 | the int64 lag each counted partition adds to its topic: an unset (`-1`) committed offset gives lag 0. Otherwise the lag is `newest - committed` whenever that fits in int64, and it is negative when the committed offset is past the newest (not clamped) |
| `GroupLag.VisitPartition` | main.go:172-199 | one partition: a failing GetOffset or ManagePartition returns that error; a nil partition manager leaves the map unchanged; otherwise the topic's entry gets the int64 lag added, with an unset committed offset replaced by the newest |
| `GroupLag.AddPartitions` | main.go:171-200 | the partitions of one topic, in slice order: fails exactly when some partition's read fails, with the first such error; otherwise the entry holds the wrapped sum of the partitions' lags and is created exactly when some partition is counted |
| `GroupLag.TallyStep` | main.go:183-198 | visiting one more partition that does not fail is exactly one more `+=` of its lag, or nothing for a nil partition manager |
| `GroupLag.ExampleTopicLag` | main.go:191-198 | partitions 10 behind, never committed (0) and 5 ahead (-5) give the topic a lag of 5 |
| `GroupLag.PartitionsSum` | main.go:171-199 | a topic that no partition is counted for sums to 0 |
| `GroupLag.PartitionsPermutation` | main.go:171-199 | any reordering of a topic's partitions gives the same sum and creates the entry under the same condition |
| `GroupLag.SkippedPartitionAddsNothing` | main.go:183-187 | a partition whose manager is nil adds nothing, creates no entry and raises no error |
| `GroupLag.AddMember` | main.go:162-201 | one member, topics in any map order: fails exactly when its assignment does not decode or a partition of one of its topics fails, with one of those errors; otherwise adds each topic's sum to its entry |
| `GroupLag.NothingAssigned` | main.go:166-169 | a nil assignment or nil Topics raises no error and leaves the map unchanged |
| `GroupLag.UnassignedMemberAddsNothing` | main.go:166-169 | such a member adds nothing to any topic's sum and touches no topic, among any set of members |
| `GroupLag.TopicsAddedStep` | main.go:170-201 | after one more topic of a member, the map holds the sums of every topic visited so far |
| `GroupLag.MembersSum` | main.go:161-202 | a topic that no member's partition is counted for sums to 0 over any set of members |
| `GroupLag.MembersSumRemove` | main.go:161 | members may be summed in any order: any member can be taken out first |
| `GroupLag.DescriptionsSum` | main.go:160-203 | a topic that no member of any description is counted for sums to 0 |
| `GroupLag.AddDescription` | main.go:161-202 | one description, members in any map order: fails with an error of that description, or succeeds exactly when it has none and adds every member's lags |
| `GroupLag.MembersTalliedStep` | main.go:161-198 | after one more member, the map holds for each topic the wrapped sum over the earlier descriptions and the members visited so far |
| `GroupLag.DescriptionDone` | main.go:160-203 | after every member of a description, the map tallies the descriptions so far and that description raised no error |
| `GroupLag.GroupDone` | main.go:160-203 | after every description, no error could be met and the map is the group's lag: one entry per topic some partition is counted for, holding the wrapped sum |
| `GroupLag.GroupSucceedsIff` | main.go:150-182 | the group's lag is computed exactly when describe succeeds, the offset manager opens, every assignment decodes and every partition of every assigned topic is read without error |
| `GroupLag.CalculateGroupLag` | main.go:145-210 | for any map order: returns one of the errors the walk can meet, and no line, exactly when one can be met; otherwise returns exactly one line per topic of the group's lag, each line carrying that topic's int64 lag |
| `GroupLag.EmitLines` | main.go:204-208 | one line per map entry, each entry exactly once, in map order |
| `Versions.FirstMatchIsFirst` | main.go:88-94 | the first supported version equal to the configured one is found, and none is found exactly when none is equal |
| `Versions.MatchVersion` | main.go:86-94 | the search loop stops at the first equal version and reports not-found exactly when the configured version is not supported |
| `KafkaInfo.ResolveClusters` | main.go:70-116 | the first loop yields the clients that `Instances` describes, or gives up on the run |
| `KafkaInfo.AbortStays` | main.go:95-98 | once a namespace's version is unsupported, the run stays given up whatever follows |
| `KafkaInfo.InstancesAbortIff` | main.go:73-98 | the run gives up exactly when some namespace with a configuration names an unsupported version |
| `KafkaInfo.InstancesContents` | main.go:73-115 | otherwise there is one client per namespace with a configuration, built from that configuration with the first supported version equal to the configured one |
| `KafkaInfo.ComputeGroups` | main.go:130-139 | every group a cluster lists is computed on its own, with the outcome calculateGroupLag specifies, and the results of other clusters are left as they were |
| `KafkaInfo.GetKafkaInfo` | main.go:69-143 | no group is computed when the run gives up; otherwise exactly the groups of the resolved clusters are computed, each with the outcome calculateGroupLag specifies |

## Left out

- Reading the configuration service is left out: the Apollo client, its namespace lookup and the
  type assertions on its values. A namespace's configuration is an input map, and a nil
  configuration cache is a namespace missing from that map.
- Cron scheduling and the blocking `select {}` are left out. The model covers one run.
- Construction of the sarama client, cluster admin and offset managers is left out, along with
  `Close` and `defer`. These are calls into the client library. Their results are the
  `GroupLag.Broker` inputs, and a namespace's client is its `KafkaInfo.ClientConfig`.
- `log.Fatalf` on a failing client, admin or group listing is left out. It ends the process. The
  model treats those calls as succeeding and treats a cluster's group list as an input.
- `strconv.ParseBool` of `kafka.sasl.enable` is left out, because it is a library call whose
  error is ignored. `KafkaInfo.ClientConfig` therefore has no SASL-enable flag.
- The goroutines and the `sync.WaitGroup` of Get_kafka_info are left out. The groups are
  computed one after the other, each on its own broker answers, and the model does not capture
  interleaving.
- The closure in Get_kafka_info reads the `namespace` and `client` loop variables rather than
  copies. Before Go 1.22 a goroutine could therefore see a later cluster. The model passes each
  group's own namespace and broker.
- `log.Printf` messages are left out. The error a group fails with is the `Failure` in its result.
- Pushing a line over HTTP (push_metrics/push_metrics.go) is left out. The model returns the
  lines in the order they are pushed.
- ManagePartition's refusal of a (topic, partition) already managed is left out. The offset
  manager's answers are a fixed function of (topic, partition), so a (topic, partition) reached
  twice anywhere in the group's walk (twice in one assignment, or in the assignments of two
  members or two descriptions) is counted twice, where the client library would fail the second
  ManagePartition at main.go:179-182.
- Version strings are taken as given. The printed form of sarama's supported versions is an
  input sequence, and the matched version is its index there.
