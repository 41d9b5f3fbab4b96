/** One run of Get_kafka_info (main.go:69-143), made sequential: resolve a client configuration
    for every namespace whose configuration is available, then compute the lag of every consumer
    group of every resolved cluster. The configuration service, the client library and the
    brokers are inputs: `caches` holds the configuration of each namespace that has one,
    `supported` the printed forms of the library's supported versions, `groupsOf` the groups a
    cluster lists and `brokerOf` the answers a cluster gives about one group. */
module KafkaInfo {
  import opened Wrappers
  import opened Versions
  import opened GroupLag

  /** A namespace's configuration, as the key/value pairs the configuration cache holds. */
  type Config = map<string, string>

  /** Go's read of a missing key of a map[string]string: the empty string. */
  function Lookup(config: Config, key: string): (v: string)
    ensures key !in config ==> v == ""
    ensures key in config ==> v == config[key]
  {
    if key in config then config[key] else ""
  }

  /** What a namespace's client is built from (main.go:100-108); `version` indexes the supported
      versions. */
  datatype ClientConfig = ClientConfig(brokers: string, saslUser: string, saslPassword: string, saslMechanism: string, version: nat)

  function ClientOf(config: Config, version: nat): ClientConfig {
    ClientConfig(Lookup(config, "kafka.brokers"), Lookup(config, "kafka.sasl.user"),
                 Lookup(config, "kafka.sasl.password"), Lookup(config, "kafka.sasl.mechanism"), version)
  }

  /** The clients after the first n namespaces: None once a namespace with a configuration names
      a version that is not supported, since Get_kafka_info then returns. */
  function Instances(namespaces: seq<string>, caches: map<string, Config>, supported: seq<string>, n: nat): Option<map<string, ClientConfig>>
    requires n <= |namespaces|
  {
    if n == 0 then Some(map[])
    else match Instances(namespaces, caches, supported, n - 1)
      case None => None
      case Some(m) =>
        var namespace := namespaces[n - 1];
        if namespace !in caches then Some(m)
        else match FirstMatch(supported, Lookup(caches[namespace], "version"), 0)
          case None => None
          case Some(v) => Some(m[namespace := ClientOf(caches[namespace], v)])
  }

  /** A namespace whose configuration names a version the library does not support. */
  predicate Unsupported(namespace: string, caches: map<string, Config>, supported: seq<string>) {
    namespace in caches && Lookup(caches[namespace], "version") !in supported
  }

  /** The first loop of Get_kafka_info (main.go:70-116): skip a namespace without configuration,
      look its version up, give up on the whole run at an unsupported one, and otherwise record
      the namespace's client. */
  method ResolveClusters(namespaces: seq<string>, caches: map<string, Config>, supported: seq<string>)
    returns (r: Option<map<string, ClientConfig>>)
    ensures r == Instances(namespaces, caches, supported, |namespaces|)
  {
    var kafkaInstances: map<string, ClientConfig> := map[];
    var i := 0;
    while i < |namespaces|
      invariant 0 <= i <= |namespaces|
      invariant Instances(namespaces, caches, supported, i) == Some(kafkaInstances)
    {
      var namespace := namespaces[i];
      i := i + 1;
      if namespace !in caches {
        continue;
      }
      var config := caches[namespace];
      var version := MatchVersion(supported, Lookup(config, "version"));
      if version.None? {
        AbortStays(namespaces, caches, supported, i);
        return None;
      }
      kafkaInstances := kafkaInstances[namespace := ClientOf(config, version.value)];
    }
    return Some(kafkaInstances);
  }

  /** Once the run has given up, later namespaces do not resume it. */
  lemma {:induction false} AbortStays(namespaces: seq<string>, caches: map<string, Config>, supported: seq<string>, n: nat)
    requires n <= |namespaces| && Instances(namespaces, caches, supported, n).None?
    ensures Instances(namespaces, caches, supported, |namespaces|).None?
    decreases |namespaces| - n
  {
    if n < |namespaces| {
      AbortStays(namespaces, caches, supported, n + 1);
    }
  }

  /** The run gives up exactly when some namespace with a configuration names an unsupported
      version; the namespaces before it do not prevent that. */
  lemma {:induction false} InstancesAbortIff(namespaces: seq<string>, caches: map<string, Config>, supported: seq<string>, n: nat)
    requires n <= |namespaces|
    ensures Instances(namespaces, caches, supported, n).None? <==>
      exists j :: 0 <= j < n && Unsupported(namespaces[j], caches, supported)
  {
    if n > 0 {
      InstancesAbortIff(namespaces, caches, supported, n - 1);
      var namespace := namespaces[n - 1];
      if namespace in caches {
        FirstMatchIsFirst(supported, Lookup(caches[namespace], "version"), 0);
      }
    }
  }

  /** When the run goes on, there is one client per namespace with a configuration, built from
      that configuration and the first supported version equal to the configured one. */
  lemma {:induction false} InstancesContents(namespaces: seq<string>, caches: map<string, Config>, supported: seq<string>, n: nat)
    requires n <= |namespaces| && Instances(namespaces, caches, supported, n).Some?
    ensures var m := Instances(namespaces, caches, supported, n).value;
      forall namespace :: namespace in m <==> exists j :: 0 <= j < n && namespaces[j] == namespace && namespace in caches
    ensures var m := Instances(namespaces, caches, supported, n).value;
      forall namespace | namespace in m ::
        var wanted := Lookup(caches[namespace], "version");
        && m[namespace].version < |supported|
        && supported[m[namespace].version] == wanted
        && (forall j :: 0 <= j < m[namespace].version ==> supported[j] != wanted)
        && m[namespace] == ClientOf(caches[namespace], m[namespace].version)
  {
    if n > 0 {
      InstancesContents(namespaces, caches, supported, n - 1);
      var namespace := namespaces[n - 1];
      if namespace in caches {
        FirstMatchIsFirst(supported, Lookup(caches[namespace], "version"), 0);
      }
    }
  }

  /** The (namespace, group) pairs of the groups the clusters in `namespaces` list. */
  function GroupsOf(namespaces: set<string>, groupsOf: string -> set<string>): set<(string, string)> {
    set namespace, group | namespace in namespaces && group in groupsOf(namespace) :: (namespace, group)
  }

  /** Every group computed so far ended as calculateGroupLag specifies for its own broker. */
  ghost predicate Computed(brokerOf: (string, string) -> Broker, results: map<(string, string), Result<seq<string>, Error>>,
                           orders: map<(string, string), seq<Topic>>)
  {
    forall key | key in results :: key in orders && GroupOutcome(brokerOf(key.0, key.1), key.0, key.1, results[key], orders[key])
  }

  /** Get_kafka_info (main.go:69-143) with the goroutines run one after the other: nothing is
      computed when the run gives up on a version; otherwise each group of each resolved cluster
      is computed on its own, and `results` maps (namespace, group) to calculateGroupLag's
      outcome (the metric lines it pushes, or the error it logs). */
  method GetKafkaInfo(namespaces: seq<string>, caches: map<string, Config>, supported: seq<string>,
                      groupsOf: string -> set<string>, brokerOf: (string, string) -> Broker)
    returns (results: map<(string, string), Result<seq<string>, Error>>, ghost orders: map<(string, string), seq<Topic>>)
    ensures Instances(namespaces, caches, supported, |namespaces|).None? ==> results == map[]
    ensures Instances(namespaces, caches, supported, |namespaces|).Some? ==>
      results.Keys == GroupsOf(Instances(namespaces, caches, supported, |namespaces|).value.Keys, groupsOf)
    ensures Computed(brokerOf, results, orders)
  {
    results, orders := map[], map[];
    var kafkaInstances := ResolveClusters(namespaces, caches, supported);
    if kafkaInstances.None? {
      return;
    }
    var pending := kafkaInstances.value.Keys;
    ghost var done: set<string> := {};
    while pending != {}
      invariant pending <= kafkaInstances.value.Keys && done == kafkaInstances.value.Keys - pending
      invariant results.Keys == GroupsOf(done, groupsOf)
      invariant Computed(brokerOf, results, orders)
      decreases pending
    {
      var namespace :| namespace in pending;
      pending := pending - {namespace};
      results, orders := ComputeGroups(namespace, groupsOf(namespace), brokerOf, results, orders);
      GroupsOfAdd(done, namespace, groupsOf);
      done := done + {namespace};
    }
  }

  /** The groups of one cluster, one after the other in map order (main.go:130-139). */
  method ComputeGroups(namespace: string, groups: set<string>, brokerOf: (string, string) -> Broker,
                       results: map<(string, string), Result<seq<string>, Error>>, ghost orders: map<(string, string), seq<Topic>>)
    returns (results': map<(string, string), Result<seq<string>, Error>>, ghost orders': map<(string, string), seq<Topic>>)
    requires Computed(brokerOf, results, orders)
    ensures results'.Keys == results.Keys + set group | group in groups :: (namespace, group)
    ensures Computed(brokerOf, results', orders')
    ensures forall key | key in results && key.0 != namespace :: results'[key] == results[key] && orders'[key] == orders[key]
  {
    results', orders' := results, orders;
    var pending := groups;
    while pending != {}
      invariant pending <= groups
      invariant results'.Keys == results.Keys + set group | group in groups - pending :: (namespace, group)
      invariant Computed(brokerOf, results', orders')
      invariant forall key | key in results && key.0 != namespace :: results'[key] == results[key] && orders'[key] == orders[key]
      decreases pending
    {
      var group :| group in pending;
      pending := pending - {group};
      var r, order := CalculateGroupLag(brokerOf(namespace, group), namespace, group);
      results', orders' := results'[(namespace, group) := r], orders'[(namespace, group) := order];
    }
  }

  lemma GroupsOfAdd(done: set<string>, namespace: string, groupsOf: string -> set<string>)
    ensures GroupsOf(done + {namespace}, groupsOf) == GroupsOf(done, groupsOf) + set group | group in groupsOf(namespace) :: (namespace, group)
  {
  }
}
