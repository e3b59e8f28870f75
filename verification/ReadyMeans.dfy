/** What a stored Ready says of the control plane, spelled out setting by setting. */
module ReadyMeans {
  import opened Kube
  import opened Api
  import opened Desired
  import opened Machine
  import opened Converge
  import opened Idempotence
  import Digest
  import ReadyRuns
  import Recovery
  import FaultFree
  import Deletion

  /** The Deployment runs one collector with what the service sets, else what the config sets, else what is built in; it
      pulls with the config's secrets, mounts the users' ConfigMap, and carries the digest in its pod template. */
  predicate AsAsked(d: Deployment, spec: ServiceSpec, c: Config, hash: string) {
    && |d.containers| == 1
    && d.containers[0].name == "otel-collector"
    && d.containers[0].image ==
         (if spec.image.Some? then spec.image.value
          else if c.image.Some? then c.image.value
          else "otel/opentelemetry-collector-contrib")
         + ":"
         + (if spec.version.Some? then spec.version.value
            else if c.version.Some? then c.version.value
            else "0.146.1")
    && d.containers[0].resources ==
         (if spec.resources.Some? then spec.resources.value
          else if c.resources.Some? then c.resources.value
          else Resources(map[], map[]))
    && d.pullSecrets == c.pullSecrets
    && d.volumes == ["otel-collector-conf/otel-collector-config"]
    && d.replicas == 1
    && "otelcollector.services.openmcp.cloud/config-hash" in d.annotations
    && d.annotations["otelcollector.services.openmcp.cloud/config-hash"] == hash
    && d.labels == d.templateLabels
    && d.templateLabels ==
         map["app" := "otel-collector", "app.kubernetes.io/managed-by" := "service-provider-otel-collector"]
  }

  /** The Service offers the collector's ports on the pods with its label. */
  predicate Serves(s: Service) {
    && s.labels == map["app" := "otel-collector", "app.kubernetes.io/managed-by" := "service-provider-otel-collector"]
    && s.kind == "ClusterIP" && s.selector == map["app" := "otel-collector"] && s.ports == [4317, 4318, 8888]
  }

  /** Where it all goes: the service's namespace, else the config's, else the built-in one. */
  function HomeOf(spec: ServiceSpec, c: Config): string {
    if spec.namespace.Some? then spec.namespace.value
    else if c.namespace.Some? then c.namespace.value
    else "observability"
  }

  lemma MeetsAsAsked(d: Deployment, spec: ServiceSpec, c: Config, hash: string)
    ensures Meets(d, OptsFor(spec, c, hash)) <==> AsAsked(d, spec, c, hash)
  {
    assert CONFIG_MAP + "/" + CONFIG_MAP_KEY == "otel-collector-conf/otel-collector-config";
  }

  /** Round `r` read the object and the config, and in the namespace they say it saw or put all there has to be. */
  ghost predicate StandsOn(log: seq<Entry>, r: nat, ev: Evidence) {
    && var ns := HomeOf(ev.read.spec, ev.config);
    && Entry(r, Began(ev.config)) in log && Entry(r, ObjectRead(ev.read)) in log
    && Entry(r, NamespaceHeld(ns)) in log
    && |ev.sources| == |ev.config.pullSecrets|
    && (forall j | 0 <= j < |ev.sources| ::
          && Entry(r, SourceRead(ev.config.pullSecrets[j], ev.sources[j])) in log
          && Entry(r, PullHeld(Key(ns, ev.config.pullSecrets[j]), ev.sources[j])) in log)
    && Entry(r, ConfigMapRead(Key(ns, "otel-collector-conf"), ev.cm)) in log
    && Entry(r, SecretRead(Key(ns, "otel-collector-secret"), ev.secret)) in log
    && Entry(r, DeploymentHeld(Key(ns, "otel-collector"), ev.deployment)) in log
    && Entry(r, ServiceHeld(Key(ns, "otel-collector"), ev.service)) in log
    && AsAsked(ev.deployment, ev.read.spec, ev.config, Digest.ConfigHash(ev.cm, ev.secret)) && Serves(ev.service)
  }

  lemma JustifiedStandsOn(log: seq<Entry>, r: nat, ev: Evidence)
    requires ReadyRuns.Justified(log, r, ev)
    ensures StandsOn(log, r, ev)
  {
    MeetsAsAsked(ev.deployment, ev.read.spec, ev.config, Digest.ConfigHash(ev.cm, ev.secret));
    hide AsAsked, Meets, OptsFor;
  }

  lemma StandsOnLater(log: seq<Entry>, j: nat, r: nat, ev: Evidence)
    requires j <= |log| && StandsOn(log[..j], r, ev)
    ensures StandsOn(log, r, ev)
  {
    assert forall e | e in log[..j] :: e in log;
    hide AsAsked, Serves, HomeOf;
  }

  /** Over every run: behind a stored Ready there is one reconcile that read the object at the generation the status
      speaks of, and saw or put, in the namespace spec and config say, the pull secrets with the platform's data, the
      users' ConfigMap and Secret, a Service, and a Deployment with the image, version and resources of the service,
      else of the config, else built in, the config's pull secrets, and the digest of ConfigMap and Secret. */
  lemma ReadyStandsOn(w: World, es: seq<Event>)
    requires Initial(w)
    ensures var s := Run(w, es).s;
      s.obj.Some? && s.obj.value.status.phase == "Ready" ==>
        exists r: nat, ev: Evidence ::
          && StandsOn(s.history.log, r, ev)
          && ev.read.generation == s.obj.value.status.observedGeneration
  {
    ReadyRuns.ReadyIsEarned(w, es);
    var s := Run(w, es).s;
    if s.obj.Some? && s.obj.value.status.phase == "Ready" {
      var log := s.history.log;
      var j :| 0 <= j < |log| && log[j].act.StatusPut?
        && log[j].act.uid == s.obj.value.uid && log[j].act.status == s.obj.value.status
        && ReadyRuns.Earned(log[..j], log[j]);
      JustifiedStandsOn(log[..j], log[j].round, log[j].act.evidence.value);
      StandsOnLater(log, j, log[j].round, log[j].act.evidence.value);
    }
    hide Run, StandsOn, ReadyRuns.Justified, ReadyRuns.AllEarned;
  }

  /** And what an install leaves in place is that Deployment and that Service, under those names. */
  lemma InPlaceAsAsked(m: Mcp, i: Inputs)
    requires InPlace(m, i)
    ensures var ns := HomeOf(i.spec, i.config);
      && ns in m.namespaces
      && Key(ns, "otel-collector-conf") in m.configMaps && Key(ns, "otel-collector-secret") in m.secrets
      && Key(ns, "otel-collector") in m.deployments && Key(ns, "otel-collector") in m.services
      && AsAsked(m.deployments[Key(ns, "otel-collector")], i.spec, i.config,
                 Digest.ConfigHash(m.configMaps[Key(ns, "otel-collector-conf")],
                                   m.secrets[Key(ns, "otel-collector-secret")].data))
      && Serves(m.services[Key(ns, "otel-collector")])
  {
    WorkloadInPlace(m, i);
    var cm, secret := m.configMaps[ConfigMapKey(i)], m.secrets[SecretKey(i)].data;
    var d, hash := m.deployments[DeploymentKey(i)], Digest.ConfigHash(cm, secret);
    MutatedMeets(d, OptsFor(i.spec, i.config, hash));
    MeetsAsAsked(d, i.spec, i.config, hash);
    hide AsAsked, Meets, OptsFor, MutateDeployment, Target;
  }

  lemma MutatedMeets(d: Deployment, o: DeploymentOpts)
    requires MutateDeployment(d, o) == d
    ensures Meets(d, o)
  {
  }

  /** So a service nothing disturbs ends up with that Deployment running, from whatever state of a control plane it
      can be installed into. */
  lemma EndsAsAsked(w: World, before: seq<Event>, es: seq<Event>, i: Inputs)
    requires Initial(w) && Run(w, before).th.Idle?
    requires AtRest(Run(w, before).s, i) && FaultFree.Installable(Run(w, before).s.plane.mcp, i)
    requires Deletion.Undisturbed(Run(w, before), es) && |es| >= 17 + 3 * |i.config.pullSecrets|
    ensures var m := Run(Run(w, before), es).s.plane.mcp; var ns := HomeOf(i.spec, i.config);
      && Key(ns, "otel-collector-conf") in m.configMaps && Key(ns, "otel-collector-secret") in m.secrets
      && Key(ns, "otel-collector") in m.deployments && Key(ns, "otel-collector") in m.services
      && AsAsked(m.deployments[Key(ns, "otel-collector")], i.spec, i.config,
                 Digest.ConfigHash(m.configMaps[Key(ns, "otel-collector-conf")],
                                   m.secrets[Key(ns, "otel-collector-secret")].data))
      && Serves(m.services[Key(ns, "otel-collector")])
  {
    Recovery.ReadyInTheEnd(w, before, es, i);
    InPlaceAsAsked(Run(Run(w, before), es).s.plane.mcp, i);
    hide Run, AsAsked, Serves, Target, InPlace, FaultFree.Installable, Deletion.Undisturbed, AtRest, ReadyAt, HomeOf,
      Digest.ConfigHash;
  }
}
