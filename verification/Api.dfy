/** OtelCollectorService and ProviderConfig as values, and how a service's settings fall back to the config's. */
module Api {
  import opened Kube

  const FINALIZER := "otelcollector.services.openmcp.cloud/finalizer"

  const READY := "Ready"
  const PHASE_READY := "Ready"
  const PHASE_PROGRESSING := "Progressing"
  const PHASE_TERMINATING := "Terminating"

  datatype Truth = True | False | Unknown

  datatype Condition = Condition(
    kind: string, status: Truth, observedGeneration: nat, reason: string, message: string, lastTransition: int)

  datatype Status = Status(conditions: seq<Condition>, observedGeneration: nat, phase: string)

  /** The status of an object nobody has written a status for; it is omitted from the stored object. */
  const NO_STATUS := Status([], 0, "")

  datatype ServiceSpec = ServiceSpec(
    image: Option<string>, version: Option<string>, resources: Option<Resources>, namespace: Option<string>)

  /** An OtelCollectorService as stored in the onboarding cluster. `uid` tells incarnations of one name apart. */
  datatype Obj = Obj(
    uid: nat, generation: nat, spec: ServiceSpec, deleting: bool, finalizers: set<string>, status: Status)

  datatype Config = Config(
    pollInterval: Option<int>,
    image: Option<string>,
    version: Option<string>,
    pullSecrets: seq<string>,
    resources: Option<Resources>,
    namespace: Option<string>)

  const ONE_MINUTE := 60

  function PollInterval(c: Config): int {
    if c.pollInterval.None? then ONE_MINUTE else c.pollInterval.value
  }

  function FirstSet<T>(a: Option<T>, b: Option<T>): Option<T> {
    if a.Some? then a else b
  }

  function OrElse<T>(a: Option<T>, default: T): T {
    if a.Some? then a.value else default
  }

  function ResolveNamespace(spec: ServiceSpec, c: Config): string {
    OrElse(FirstSet(spec.namespace, c.namespace), "observability")
  }

  function ResolveImage(spec: ServiceSpec, c: Config): string {
    OrElse(FirstSet(spec.image, c.image), "otel/opentelemetry-collector-contrib")
  }

  function ResolveVersion(spec: ServiceSpec, c: Config): string {
    OrElse(FirstSet(spec.version, c.version), "0.146.1")
  }

  function ResolveResources(spec: ServiceSpec, c: Config): Option<Resources> {
    FirstSet(spec.resources, c.resources)
  }

  /** Field by field: what a service sets no config changes, what it leaves open the config sets, and what both leave
      open is the built-in default. */
  lemma SpecBeforeConfig(spec: ServiceSpec, c: Config)
    ensures spec.image.Some? ==> ResolveImage(spec, c) == spec.image.value
    ensures spec.image.None? && c.image.Some? ==> ResolveImage(spec, c) == c.image.value
    ensures spec.image.None? && c.image.None? ==> ResolveImage(spec, c) == "otel/opentelemetry-collector-contrib"
    ensures spec.version.Some? ==> ResolveVersion(spec, c) == spec.version.value
    ensures spec.version.None? && c.version.Some? ==> ResolveVersion(spec, c) == c.version.value
    ensures spec.version.None? && c.version.None? ==> ResolveVersion(spec, c) == "0.146.1"
    ensures spec.namespace.Some? ==> ResolveNamespace(spec, c) == spec.namespace.value
    ensures spec.namespace.None? && c.namespace.Some? ==> ResolveNamespace(spec, c) == c.namespace.value
    ensures spec.namespace.None? && c.namespace.None? ==> ResolveNamespace(spec, c) == "observability"
    ensures spec.resources.Some? ==> ResolveResources(spec, c) == spec.resources
    ensures spec.resources.None? ==> ResolveResources(spec, c) == c.resources
  {
  }
}
