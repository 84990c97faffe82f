/** The invocation context the initialize handler writes to a temporary file
    for the scripts it spawns: a snapshot of the host's state with the
    service description cut down to an allow-list of truthy fields. */
module Context {
  import opened Js

  /** The fields of the host (the `serverless` object) that the snapshot reads. */
  datatype Host = Host(
    invocationId: Value,
    version: Value,
    cliCommands: Value,
    cliOptions: Value,
    servicePath: string,
    service: map<string, Value>)

  /** The snapshot of src/index.js lines 98-109. */
  datatype ServerlessContext = ServerlessContext(
    invocationId: Value,
    version: Value,
    cliCommands: Value,
    cliOptions: Value,
    servicePath: string,
    service: map<string, Value>)

  /** The thirteen service fields the snapshot may carry. */
  const ServiceAllowList: seq<string> :=
    ["service", "custom", "plugins", "provider", "functions", "resources",
     "package", "frameworkVersion", "app", "tenant", "org", "layers", "outputs"]

  /** lodash `pick(obj, paths)` for top-level paths: the fields of `obj`
      named in `paths`, taken in the order of `paths`. */
  function Pick(obj: map<string, Value>, paths: seq<string>): (r: map<string, Value>)
    ensures forall k :: k in r <==> k in obj && k in paths
    ensures forall k :: k in r ==> r[k] == obj[k]
  {
    if paths == [] then map[]
    else
      var rest := Pick(obj, paths[1..]);
      if paths[0] in obj then rest[paths[0] := obj[paths[0]]] else rest
  }

  /** lodash `pickBy(obj)` with the identity predicate: the truthy fields. */
  function PickTruthy(obj: map<string, Value>): (r: map<string, Value>)
    ensures r.Keys <= obj.Keys
    ensures forall k :: k in obj ==> (k in r <==> Truthy(obj[k]))
    ensures forall k :: k in r ==> r[k] == obj[k]
  {
    map k | k in obj && Truthy(obj[k]) :: obj[k]
  }

  /** The `service` of the snapshot: exactly the allow-listed fields of the
      host's service whose values are truthy, with those values. */
  function FilterService(service: map<string, Value>): (r: map<string, Value>)
    ensures forall k :: k in r <==> k in ServiceAllowList && k in service && Truthy(service[k])
    ensures forall k :: k in r ==> r[k] == service[k] && Truthy(r[k])
    ensures |r| <= |ServiceAllowList|
  {
    var r := PickTruthy(Pick(service, ServiceAllowList));
    AllowListBound(r.Keys);
    r
  }

  /** A set of allow-listed names has at most thirteen elements. */
  lemma AllowListBound(ks: set<string>)
    requires forall k :: k in ks ==> k in ServiceAllowList
    ensures |ks| <= |ServiceAllowList|
  {
    SetOfSeqBound(ks, ServiceAllowList);
  }

  lemma {:induction false} SetOfSeqBound(ks: set<string>, names: seq<string>)
    requires forall k :: k in ks ==> k in names
    ensures |ks| <= |names|
  {
    if names != [] {
      var rest := ks - {names[0]};
      forall k | k in rest ensures k in names[1..] {
        assert k in names && k != names[0];
      }
      SetOfSeqBound(rest, names[1..]);
    } else {
      assert ks == {};
    }
  }

  /** `createServerlessContext` (src/index.js lines 96-110). */
  function CreateServerlessContext(host: Host): (c: ServerlessContext)
    ensures c.invocationId == host.invocationId && c.version == host.version
    ensures c.cliCommands == host.cliCommands && c.cliOptions == host.cliOptions
    ensures c.servicePath == host.servicePath
    ensures forall k :: k in c.service <==> k in ServiceAllowList && k in host.service && Truthy(host.service[k])
    ensures forall k :: k in c.service ==> c.service[k] == host.service[k]
  {
    ServerlessContext(host.invocationId, host.version, host.cliCommands, host.cliOptions,
                      host.servicePath, FilterService(host.service))
  }
}
