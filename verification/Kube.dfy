/** The Kubernetes values the controller reads and writes, and the API server's admission rules for them. */
module Kube {
  datatype Option<+T> = None | Some(value: T)

  newtype Byte = b: int | 0 <= b < 256
  type Bytes = seq<Byte>
  type Data = map<Bytes, Bytes>
  type Labels = map<string, string>

  datatype Key = Key(ns: string, name: string)

  datatype Resources = Resources(requests: map<string, string>, limits: map<string, string>)

  datatype Secret = Secret(kind: string, labels: Labels, data: Data)

  datatype Container = Container(name: string, image: string, resources: Resources)

  /** `rest` stands for every field of the object that the controller never assigns. */
  datatype Deployment = Deployment(
    labels: Labels,
    selector: Option<Labels>,
    replicas: int,
    templateLabels: Labels,
    annotations: Labels,
    pullSecrets: seq<string>,
    volumes: seq<string>,
    containers: seq<Container>,
    rest: string)

  datatype Service = Service(labels: Labels, kind: string, selector: Labels, ports: seq<int>, rest: string)

  /** One managed control plane: the cluster the collector is installed into. */
  datatype Mcp = Mcp(
    namespaces: set<string>,
    secrets: map<Key, Secret>,
    configMaps: map<Key, Data>,
    deployments: map<Key, Deployment>,
    services: map<Key, Service>)

  function Lookup<K, V>(m: map<K, V>, k: K): Option<V> {
    if k in m then Some(m[k]) else None
  }

  predicate SubMap(a: Labels, b: Labels) {
    forall k | k in a :: k in b && b[k] == a[k]
  }

  /** The API server accepts a Deployment only if it has a selector that its own template labels satisfy. */
  predicate Admissible(d: Deployment) {
    d.selector.Some? && SubMap(d.selector.value, d.templateLabels)
  }

  predicate McpAdmissible(m: Mcp) {
    forall k | k in m.deployments :: Admissible(m.deployments[k])
  }
}
