/** What the controller's own calls may touch. */
module Frame {
  import opened Kube
  import opened Desired
  import opened Machine

  /** At most the entry at `k` was written. */
  predicate WroteAt<V(==)>(m: map<Key, V>, m': map<Key, V>, k: Key) {
    m' == m || (k in m' && m' == m[k := m'[k]])
  }

  /** A step of the install: it may add the target namespace and write, never remove, one of the pull secrets, the
      Deployment or the Service there. */
  predicate InstallWrites(m: Mcp, m': Mcp, ns: string, pulls: seq<string>) {
    && (m'.namespaces == m.namespaces || m'.namespaces == m.namespaces + {ns})
    && m'.configMaps == m.configMaps
    && (m'.secrets == m.secrets || exists n :: n in pulls && WroteAt(m.secrets, m'.secrets, Key(ns, n)))
    && WroteAt(m.deployments, m'.deployments, Key(ns, DEPLOYMENT))
    && WroteAt(m.services, m'.services, Key(ns, SERVICE))
  }

  /** A step of the cleanup: it may remove that Deployment and that Service. */
  predicate CleanupWrites(m: Mcp, m': Mcp, ns: string) {
    && m'.namespaces == m.namespaces && m'.configMaps == m.configMaps && m'.secrets == m.secrets
    && (m'.deployments == m.deployments || m'.deployments == m.deployments - {Key(ns, DEPLOYMENT)})
    && (m'.services == m.services || m'.services == m.services - {Key(ns, SERVICE)})
  }

  /** What a domain call does to the plane: writes of the install, and what it creates it also marks as made. */
  predicate InstallEffect(p: Plane, p': Plane, ns: string, pulls: seq<string>) {
    && InstallWrites(p.mcp, p'.mcp, ns, pulls)
    && (p'.madeDeployments == p.madeDeployments
        || (p'.madeDeployments == p.madeDeployments + {Key(ns, DEPLOYMENT)}
          && Key(ns, DEPLOYMENT) in p'.mcp.deployments))
    && (p'.madeServices == p.madeServices
        || (p'.madeServices == p.madeServices + {Key(ns, SERVICE)} && Key(ns, SERVICE) in p'.mcp.services))
  }

  /** While pull secrets are synced there is one in hand. */
  predicate PullInHand(c: Ctx, d: DomainPoint) {
    d.PullSource? || d.PullGet? || d.PullCreate? || d.PullUpdate? ==> |d.sources| < |c.config.pullSecrets|
  }

  lemma PullFrame(p: Plane, c: Ctx, ns: string, sources: seq<Secret>, src: Secret, dst: Secret, t: Tick)
    requires |sources| < |c.config.pullSecrets|
    ensures InstallEffect(p, PullCreateCall(p, c, PullKey(c, ns, sources), sources, src, t).plane, ns,
        c.config.pullSecrets)
    ensures InstallEffect(p, PullUpdateCall(p, c, PullKey(c, ns, sources), sources, src, dst, t).plane, ns,
        c.config.pullSecrets)
  {
    assert PullKey(c, ns, sources).name in c.config.pullSecrets;
  }

  lemma DeploymentFrame(p: Plane, ns: string, pulls: seq<string>, sources: seq<Secret>, cm: Data, secret: Data,
      was: Deployment, d: Deployment, t: Tick)
    ensures InstallEffect(p, DeploymentCreateCall(p, Key(ns, DEPLOYMENT), sources, cm, secret, d, t).plane, ns, pulls)
    ensures InstallEffect(p, DeploymentUpdateCall(p, Key(ns, DEPLOYMENT), sources, cm, secret, was, d, t).plane, ns,
        pulls)
  {
  }

  lemma ServiceFrame(p: Plane, c: Ctx, ns: string, pulls: seq<string>, sources: seq<Secret>, cm: Data, secret: Data,
      d: Deployment, was: Service, svc: Service, t: Tick)
    ensures InstallEffect(p, ServiceCreateCall(p, c, Key(ns, SERVICE), sources, cm, secret, d, svc, t).plane, ns, pulls)
    ensures InstallEffect(p, ServiceUpdateCall(p, c, Key(ns, SERVICE), sources, cm, secret, d, was, svc, t).plane, ns,
        pulls)
  {
  }

  lemma NamespaceFrame(p: Plane, c: Ctx, ns: string, pulls: seq<string>, creating: bool, t: Tick)
    ensures InstallEffect(p, NamespaceCall(p, c, ns, creating, t).plane, ns, pulls)
  {
  }

  predicate Reads(d: DomainPoint) {
    d.PullSource? || d.PullGet? || d.ConfigMapGet? || d.SecretGet? || d.DeploymentGet? || d.ServiceGet?
  }

  /** A read leaves the control plane alone. */
  lemma ReadFrame(p: Plane, platform: map<string, Secret>, c: Ctx, ns: string, d: DomainPoint, t: Tick)
    requires Reads(d)
    ensures DomainCall(p, platform, c, ns, d, t).plane == p
  {
    hide HashOpts, Missing, MutateDeployment, MutateService, PullKey;
  }

  lemma NothingWritten(p: Plane, ns: string, pulls: seq<string>)
    ensures InstallEffect(p, p, ns, pulls)
  {
  }

  /** No call of the domain's CreateOrUpdate writes anything else. */
  lemma InstallFrame(p: Plane, platform: map<string, Secret>, c: Ctx, ns: string, d: DomainPoint, t: Tick)
    requires PullInHand(c, d)
    ensures InstallEffect(p, DomainCall(p, platform, c, ns, d, t).plane, ns, c.config.pullSecrets)
  {
    hide NamespaceCall, PullCreateCall, PullUpdateCall, DeploymentCreateCall, DeploymentUpdateCall, ServiceCreateCall,
      ServiceUpdateCall, HashOpts, ConfigMapCall, SecretCall, DeploymentGetCall, ServiceGetCall, PullSourceCall,
      PullGetCall, WroteAt, PullKey;
    var pulls := c.config.pullSecrets;
    match d
    case NamespaceGet => NamespaceFrame(p, c, ns, pulls, false, t);
    case NamespaceCreate => NamespaceFrame(p, c, ns, pulls, true, t);
    case PullCreate(sources, src) => PullFrame(p, c, ns, sources, src, src, t);
    case PullUpdate(sources, src, dst) => PullFrame(p, c, ns, sources, src, dst, t);
    case DeploymentCreate(sources, cm, secret, dep) => DeploymentFrame(p, ns, pulls, sources, cm, secret, dep, dep, t);
    case DeploymentUpdate(sources, cm, secret, was, dep) =>
      DeploymentFrame(p, ns, pulls, sources, cm, secret, was, dep, t);
    case ServiceCreate(sources, cm, secret, dep, svc) =>
      ServiceFrame(p, c, ns, pulls, sources, cm, secret, dep, svc, svc, t);
    case ServiceUpdate(sources, cm, secret, dep, was, svc) =>
      ServiceFrame(p, c, ns, pulls, sources, cm, secret, dep, was, svc, t);
    case _ =>
      ReadFrame(p, platform, c, ns, d, t);
      NothingWritten(p, ns, pulls);
  }
}
