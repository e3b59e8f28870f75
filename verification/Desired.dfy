/** The objects the controller maintains in a managed control plane, and how one create-or-update moves them. */
module Desired {
  import opened Kube
  import opened Api

  const CONFIG_MAP := "otel-collector-conf"
  const CONFIG_MAP_KEY := "otel-collector-config"
  const SECRET := "otel-collector-secret"
  const DEPLOYMENT := "otel-collector"
  const SERVICE := "otel-collector"
  const CONTAINER := "otel-collector"
  const MANAGED_BY := "app.kubernetes.io/managed-by"
  const PROVIDER := "service-provider-otel-collector"
  const APP := "app"
  const APP_VALUE := "otel-collector"
  const HASH_ANNOTATION := "otelcollector.services.openmcp.cloud/config-hash"
  const DOCKER_CONFIG := "kubernetes.io/dockerconfigjson"

  const OWN_LABELS: Labels := map[APP := APP_VALUE, MANAGED_BY := PROVIDER]
  const SELECTOR: Labels := map[APP := APP_VALUE]
  const NO_RESOURCES := Resources(map[], map[])

  datatype DeploymentOpts = DeploymentOpts(
    image: string, version: string, resources: Option<Resources>, pullSecrets: seq<string>, configHash: string)

  function OptsFor(spec: ServiceSpec, c: Config, hash: string): DeploymentOpts {
    DeploymentOpts(ResolveImage(spec, c), ResolveVersion(spec, c), ResolveResources(spec, c), c.pullSecrets, hash)
  }

  const NEW_DEPLOYMENT := Deployment(map[], None, 0, map[], map[], [], [], [], "")

  /** The mutate closure of ReconcileDeployment: the selector is set only when there is none, one annotation is
      overwritten, and the container list is replaced. */
  function MutateDeployment(d: Deployment, o: DeploymentOpts): Deployment {
    d.(labels := OWN_LABELS,
       selector := if d.selector.None? then Some(SELECTOR) else d.selector,
       replicas := 1,
       templateLabels := OWN_LABELS,
       annotations := d.annotations[HASH_ANNOTATION := o.configHash],
       pullSecrets := o.pullSecrets,
       volumes := [CONFIG_MAP + "/" + CONFIG_MAP_KEY],
       containers := [Container(CONTAINER, o.image + ":" + o.version, OrElse(o.resources, NO_RESOURCES))])
  }

  /** A Deployment that is what these options ask for. */
  predicate Meets(d: Deployment, o: DeploymentOpts) {
    && d.labels == OWN_LABELS && d.templateLabels == OWN_LABELS && d.replicas == 1
    && HASH_ANNOTATION in d.annotations && d.annotations[HASH_ANNOTATION] == o.configHash
    && d.pullSecrets == o.pullSecrets
    && d.volumes == [CONFIG_MAP + "/" + CONFIG_MAP_KEY]
    && |d.containers| == 1
    && d.containers[0].name == CONTAINER
    && d.containers[0].image == o.image + ":" + o.version
    && (o.resources.Some? ==> d.containers[0].resources == o.resources.value)
    && (o.resources.None? ==> d.containers[0].resources == NO_RESOURCES)
  }

  /** What the mutation does not own stays: a selector that is there, other annotations, and every other field. */
  lemma MutationKeepsTheRest(d: Deployment, o: DeploymentOpts)
    ensures var d' := MutateDeployment(d, o);
      && d'.rest == d.rest
      && (d.selector.Some? ==> d'.selector == d.selector)
      && (d.selector.None? ==> d'.selector == Some(map["app" := "otel-collector"]))
      && (forall k | k != "otelcollector.services.openmcp.cloud/config-hash" ::
            && (k in d'.annotations <==> k in d.annotations)
            && (k in d.annotations ==> d'.annotations[k] == d.annotations[k]))
  {
  }

  const NEW_SERVICE := Service(map[], "", map[], [], "")

  /** The mutate closure of ReconcileService replaces the whole spec. */
  function MutateService(s: Service): Service {
    s.(labels := OWN_LABELS, kind := "ClusterIP", selector := SELECTOR, ports := [4317, 4318, 8888])
  }

  predicate ServiceMeets(s: Service) {
    s.labels == OWN_LABELS && s.kind == "ClusterIP" && s.selector == SELECTOR && s.ports == [4317, 4318, 8888]
  }

  /** A Deployment settles on what was asked for exactly where the mutation no longer moves it. */
  lemma FixedExactlyWhenMet(d: Deployment, o: DeploymentOpts)
    requires d.selector.Some?
    ensures Meets(d, o) <==> MutateDeployment(d, o) == d
  {
    if Meets(d, o) {
      assert d.annotations[HASH_ANNOTATION := o.configHash] == d.annotations;
      assert d.containers == [d.containers[0]];
    }
    assert HASH_ANNOTATION in MutateDeployment(d, o).annotations;
  }

  /** What a pull secret becomes: the data is always the platform's; type and labels only if it is new. */
  function SyncSecret(was: Option<Secret>, src: Secret): Secret {
    match was
    case None => Secret(DOCKER_CONFIG, map[MANAGED_BY := PROVIDER], src.data)
    case Some(dst) => dst.(data := src.data)
  }

  /** The API server takes the updated Deployment exactly if the kept selector still selects the new pods.
      A Deployment somebody else created with another selector is therefore refused on every pass. */
  lemma UpdateAdmitted(d: Deployment, o: DeploymentOpts)
    ensures Admissible(MutateDeployment(d, o)) <==> (d.selector.None? || SubMap(d.selector.value, OWN_LABELS))
  {
  }

  /** The pods of a controller-made Deployment carry the labels its selector and the Service ask for. */
  lemma ServiceReachesPods(d: Deployment, s: Service, o: DeploymentOpts)
    requires Meets(d, o) && d.selector == Some(SELECTOR) && ServiceMeets(s)
    ensures SubMap(s.selector, d.templateLabels) && SubMap(d.selector.value, d.templateLabels)
  {
  }
}
