/** Crash-consistent convergence: with its inputs at rest, the install heads for one fixed control plane from wherever
    earlier passes were cut off. */
module Converge {
  import opened Kube
  import opened Api
  import opened Desired
  import opened Machine
  import Digest

  /** What an install reads besides the control plane itself. */
  datatype Inputs = Inputs(spec: ServiceSpec, config: Config, platform: map<string, Secret>)

  function Ns(i: Inputs): string {
    ResolveNamespace(i.spec, i.config)
  }

  predicate Listed(i: Inputs, k: Key) {
    k.ns == Ns(i) && k.name in i.config.pullSecrets && k.name in i.platform
  }

  function ListedKeys(i: Inputs): set<Key> {
    set n | n in i.config.pullSecrets && n in i.platform :: Key(Ns(i), n)
  }

  /** Every listed secret at the platform's data; all others as they are. */
  function SyncedSecrets(m: Mcp, i: Inputs): map<Key, Secret> {
    map k | k in m.secrets.Keys + ListedKeys(i) ::
      if Listed(i, k) then SyncSecret(Lookup(m.secrets, k), i.platform[k.name]) else m.secrets[k]
  }

  ghost function Opts(i: Inputs, cm: Data, secret: Data): DeploymentOpts {
    OptsFor(i.spec, i.config, Digest.ConfigHash(cm, secret))
  }

  function DeploymentKey(i: Inputs): Key { Key(Ns(i), DEPLOYMENT) }
  function ServiceKey(i: Inputs): Key { Key(Ns(i), SERVICE) }
  function ConfigMapKey(i: Inputs): Key { Key(Ns(i), CONFIG_MAP) }
  function SecretKey(i: Inputs): Key { Key(Ns(i), SECRET) }

  /** The control plane with namespace and pull secrets in place. */
  function Prepared(m: Mcp, i: Inputs): Mcp {
    m.(namespaces := m.namespaces + {Ns(i)}, secrets := SyncedSecrets(m, i))
  }

  /** The control plane with the workload in place, if its prerequisites are there. */
  ghost function WithWorkload(m: Mcp, i: Inputs): Mcp {
    if ConfigMapKey(i) in m.configMaps && SecretKey(i) in m.secrets then
      var o := Opts(i, m.configMaps[ConfigMapKey(i)], m.secrets[SecretKey(i)].data);
      var d := MutateDeployment(OrElse(Lookup(m.deployments, DeploymentKey(i)), NEW_DEPLOYMENT), o);
      var svc := MutateService(OrElse(Lookup(m.services, ServiceKey(i)), NEW_SERVICE));
      m.(deployments := m.deployments[DeploymentKey(i) := d], services := m.services[ServiceKey(i) := svc])
    else m
  }

  /** Where the install heads from `m`. */
  ghost function Target(m: Mcp, i: Inputs): Mcp {
    WithWorkload(Prepared(m, i), i)
  }

  // ---- how far a pass has come

  /** The first `n` pull secrets hold the platform's data. */
  predicate Synced(m: Mcp, i: Inputs, n: nat) {
    && n <= |i.config.pullSecrets|
    && forall j | 0 <= j < n ::
         var name := i.config.pullSecrets[j];
         && name in i.platform && Key(Ns(i), name) in m.secrets
         && m.secrets[Key(Ns(i), name)].data == i.platform[name].data
  }

  predicate AllSynced(m: Mcp, i: Inputs) {
    Ns(i) in m.namespaces && Synced(m, i, |i.config.pullSecrets|)
  }

  predicate Inspected(m: Mcp, i: Inputs, cm: Data, secret: Data) {
    && AllSynced(m, i)
    && Lookup(m.configMaps, ConfigMapKey(i)) == Some(cm)
    && SecretKey(i) in m.secrets && m.secrets[SecretKey(i)].data == secret
  }

  predicate InHand(m: Mcp, i: Inputs, sources: seq<Secret>, src: Secret) {
    && Ns(i) in m.namespaces && Synced(m, i, |sources|) && |sources| < |i.config.pullSecrets|
    && Lookup(i.platform, i.config.pullSecrets[|sources|]) == Some(src)
  }

  ghost predicate DeploymentDone(m: Mcp, i: Inputs, cm: Data, secret: Data, d: Deployment) {
    && Inspected(m, i, cm, secret)
    && Lookup(m.deployments, DeploymentKey(i)) == Some(d) && MutateDeployment(d, Opts(i, cm, secret)) == d
  }

  ghost predicate Progress(m: Mcp, i: Inputs, d: DomainPoint) {
    match d
    case NamespaceGet => true
    case NamespaceCreate => true
    case PullSource(sources) => Ns(i) in m.namespaces && Synced(m, i, |sources|) && |sources| < |i.config.pullSecrets|
    case PullGet(sources, src) => InHand(m, i, sources, src)
    case PullCreate(sources, src) => InHand(m, i, sources, src)
    case PullUpdate(sources, src, dst) => InHand(m, i, sources, src)
    case ConfigMapGet(_) => AllSynced(m, i)
    case SecretGet(_, found) => AllSynced(m, i) && found == Lookup(m.configMaps, ConfigMapKey(i))
    case DeploymentGet(_, cm, secret) => Inspected(m, i, cm, secret)
    case DeploymentCreate(_, cm, secret, dep) =>
      Inspected(m, i, cm, secret) && dep == MutateDeployment(NEW_DEPLOYMENT, Opts(i, cm, secret))
    case DeploymentUpdate(_, cm, secret, was, dep) =>
      Inspected(m, i, cm, secret) && dep == MutateDeployment(was, Opts(i, cm, secret))
    case ServiceGet(_, cm, secret, dep) => DeploymentDone(m, i, cm, secret, dep)
    case ServiceCreate(_, cm, secret, dep, svc) =>
      DeploymentDone(m, i, cm, secret, dep) && svc == MutateService(NEW_SERVICE)
    case ServiceUpdate(_, cm, secret, dep, was, svc) =>
      DeploymentDone(m, i, cm, secret, dep) && svc == MutateService(was)
  }

  // ---- the target does not move

  /** With everything synced there is nothing left to prepare. */
  lemma PreparedFixed(m: Mcp, i: Inputs)
    requires AllSynced(m, i)
    ensures Prepared(m, i) == m
  {
    forall k | k in m.secrets.Keys + ListedKeys(i)
      ensures k in m.secrets && SyncedSecrets(m, i)[k] == m.secrets[k]
    {
      if Listed(i, k) {
        var j :| 0 <= j < |i.config.pullSecrets| && i.config.pullSecrets[j] == k.name;
      }
    }
    assert SyncedSecrets(m, i) == m.secrets;
  }

  lemma NamespaceKeepsTarget(m: Mcp, i: Inputs)
    ensures var m' := m.(namespaces := m.namespaces + {Ns(i)}); Target(m', i) == Target(m, i)
  {
    var m' := m.(namespaces := m.namespaces + {Ns(i)});
    assert m'.namespaces + {Ns(i)} == m.namespaces + {Ns(i)};
    assert SyncedSecrets(m', i) == SyncedSecrets(m, i);
  }

  lemma PullKeepsTarget(m: Mcp, i: Inputs, k: Key)
    requires Listed(i, k)
    ensures var m' := m.(secrets := m.secrets[k := SyncSecret(Lookup(m.secrets, k), i.platform[k.name])]);
      Target(m', i) == Target(m, i)
  {
    var m' := m.(secrets := m.secrets[k := SyncSecret(Lookup(m.secrets, k), i.platform[k.name])]);
    assert k in ListedKeys(i);
    assert m'.secrets.Keys + ListedKeys(i) == m.secrets.Keys + ListedKeys(i);
    assert SyncedSecrets(m', i) == SyncedSecrets(m, i);
    assert Prepared(m', i) == Prepared(m, i);
  }

  lemma MutateTwice(d: Deployment, o: DeploymentOpts)
    ensures MutateDeployment(MutateDeployment(d, o), o) == MutateDeployment(d, o)
  {
    var a := d.annotations[HASH_ANNOTATION := o.configHash];
    assert a[HASH_ANNOTATION := o.configHash] == a;
  }

  lemma DeploymentKeepsTarget(m: Mcp, i: Inputs, cm: Data, secret: Data)
    requires Inspected(m, i, cm, secret)
    ensures var d := MutateDeployment(OrElse(Lookup(m.deployments, DeploymentKey(i)), NEW_DEPLOYMENT),
        Opts(i, cm, secret));
      var m' := m.(deployments := m.deployments[DeploymentKey(i) := d]);
      Target(m', i) == Target(m, i) && DeploymentDone(m', i, cm, secret, d)
  {
    var was := OrElse(Lookup(m.deployments, DeploymentKey(i)), NEW_DEPLOYMENT);
    var d := MutateDeployment(was, Opts(i, cm, secret));
    var m' := m.(deployments := m.deployments[DeploymentKey(i) := d]);
    PreparedFixed(m, i);
    PreparedFixed(m', i);
    MutateTwice(was, Opts(i, cm, secret));
    assert m'.deployments[DeploymentKey(i) := d] == m'.deployments;
    hide MutateDeployment, MutateService;
  }

  lemma ServiceKeepsTarget(m: Mcp, i: Inputs, cm: Data, secret: Data, d: Deployment)
    requires DeploymentDone(m, i, cm, secret, d)
    ensures var svc := MutateService(OrElse(Lookup(m.services, ServiceKey(i)), NEW_SERVICE));
      var m' := m.(services := m.services[ServiceKey(i) := svc]);
      Target(m', i) == Target(m, i) && m' == Target(m', i)
  {
    var svc := MutateService(OrElse(Lookup(m.services, ServiceKey(i)), NEW_SERVICE));
    var m' := m.(services := m.services[ServiceKey(i) := svc]);
    PreparedFixed(m, i);
    PreparedFixed(m', i);
    assert MutateService(svc) == svc;
    assert m'.services[ServiceKey(i) := svc] == m'.services;
    assert m.deployments[DeploymentKey(i) := d] == m.deployments;
    hide MutateDeployment, MutateService;
  }

  // ---- one call

  /** The thread works from these inputs. */
  predicate Uses(c: Ctx, i: Inputs) {
    c.config == i.config && c.obj.spec == i.spec
  }

  /** A call keeps the target, hands its successor what that relies on, and if it is the last, has arrived. */
  ghost predicate Advances(p: Plane, call: Call, i: Inputs) {
    && Target(call.plane.mcp, i) == Target(p.mcp, i)
    && (call.go.Continue? ==> Progress(call.plane.mcp, i, call.go.d))
    && (call.go.Installed? ==> call.plane.mcp == Target(call.plane.mcp, i))
  }

  lemma NextPull(m: Mcp, c: Ctx, i: Inputs, sources: seq<Secret>)
    requires Uses(c, i) && Ns(i) in m.namespaces && Synced(m, i, |sources|)
    ensures Progress(m, i, PullNext(c, sources))
  {
  }

  lemma NamespaceAdvances(p: Plane, c: Ctx, i: Inputs, creating: bool, t: Tick)
    requires Uses(c, i)
    ensures Advances(p, NamespaceCall(p, c, Ns(i), creating, t), i)
  {
    NamespaceKeepsTarget(p.mcp, i);
    if Ns(i) in p.mcp.namespaces {
      NextPull(p.mcp, c, i, []);
    } else {
      NextPull(PutNamespace(p, Ns(i)).mcp, c, i, []);
    }
    hide Target, Progress;
  }

  /** Writing the secret in hand syncs one more. */
  lemma PullWritten(p: Plane, c: Ctx, i: Inputs, sources: seq<Secret>, src: Secret)
    requires Uses(c, i) && InHand(p.mcp, i, sources, src)
    ensures var k := PullKey(c, Ns(i), sources);
      var p' := PutSecret(p, k, SyncSecret(Lookup(p.mcp.secrets, k), src));
      Target(p'.mcp, i) == Target(p.mcp, i) && Progress(p'.mcp, i, PullNext(c, sources + [src]))
  {
    var k := PullKey(c, Ns(i), sources);
    var p' := PutSecret(p, k, SyncSecret(Lookup(p.mcp.secrets, k), src));
    PullKeepsTarget(p.mcp, i, k);
    NextPull(p'.mcp, c, i, sources + [src]);
    hide Target, Progress;
  }

  /** A write advances, whatever becomes of it, if the written plane keeps the target and serves the successor. */
  lemma WriteAdvances(accepted: bool, fate: Fate, p: Plane, p': Plane, act: Act, go: DomainGo, i: Inputs)
    requires accepted ==>
      && Target(p'.mcp, i) == Target(p.mcp, i)
      && (go.Continue? ==> Progress(p'.mcp, i, go.d)) && (go.Installed? ==> p'.mcp == Target(p'.mcp, i))
    ensures Advances(p, Written(accepted, fate, p, p', act, go), i)
  {
    hide Target, Progress;
  }

  lemma PullCreateAdvances(p: Plane, c: Ctx, i: Inputs, sources: seq<Secret>, src: Secret, t: Tick)
    requires Uses(c, i) && InHand(p.mcp, i, sources, src)
    ensures Advances(p, PullCreateCall(p, c, PullKey(c, Ns(i), sources), sources, src, t), i)
  {
    var k := PullKey(c, Ns(i), sources);
    PullWritten(p, c, i, sources, src);
    WriteAdvances(k.ns in p.mcp.namespaces && k !in p.mcp.secrets, t.fate, p, PutSecret(p, k, SyncSecret(None, src)),
                  PullHeld(k, src), Continue(PullNext(c, sources + [src])), i);
    hide Target, Progress, Advances, SyncSecret, Written, InHand;
  }

  lemma PullUpdateAdvances(p: Plane, c: Ctx, i: Inputs, sources: seq<Secret>, src: Secret, dst: Secret, t: Tick)
    requires Uses(c, i) && InHand(p.mcp, i, sources, src)
    ensures Advances(p, PullUpdateCall(p, c, PullKey(c, Ns(i), sources), sources, src, dst, t), i)
  {
    var k := PullKey(c, Ns(i), sources);
    PullWritten(p, c, i, sources, src);
    WriteAdvances(Lookup(p.mcp.secrets, k) == Some(dst), t.fate, p, PutSecret(p, k, SyncSecret(Some(dst), src)),
                  PullHeld(k, src), Continue(PullNext(c, sources + [src])), i);
    hide Target, Progress, Advances, SyncSecret, Written, InHand;
  }

  lemma PullReadsAdvance(p: Plane, c: Ctx, i: Inputs, d: DomainPoint, t: Tick)
    requires Uses(c, i) && Progress(p.mcp, i, d) && (d.PullSource? || d.PullGet?)
    ensures Advances(p, DomainCall(p, i.platform, c, Ns(i), d, t), i)
  {
    hide Target, Synced;
  }

  lemma PrerequisitesAdvance(p: Plane, c: Ctx, i: Inputs, d: DomainPoint, t: Tick)
    requires Progress(p.mcp, i, d) && (d.ConfigMapGet? || d.SecretGet?)
    ensures Advances(p, DomainCall(p, i.platform, c, Ns(i), d, t), i)
  {
    hide Target, Synced;
  }

  lemma DeploymentGetAdvances(p: Plane, c: Ctx, i: Inputs, sources: seq<Secret>, cm: Data, secret: Data, t: Tick)
    requires Inspected(p.mcp, i, cm, secret)
    ensures Advances(p, DeploymentGetCall(p, DeploymentKey(i), sources, cm, secret, Opts(i, cm, secret), t), i)
  {
    hide Target, Inspected, MutateDeployment, Opts;
  }

  /** Putting the Deployment asked for over what is there. */
  lemma DeploymentWritten(p: Plane, i: Inputs, sources: seq<Secret>, cm: Data, secret: Data, was: Deployment)
    requires Inspected(p.mcp, i, cm, secret)
    requires was == OrElse(Lookup(p.mcp.deployments, DeploymentKey(i)), NEW_DEPLOYMENT)
    ensures var d := MutateDeployment(was, Opts(i, cm, secret));
      var p' := PutDeployment(p, DeploymentKey(i), d);
      Target(p'.mcp, i) == Target(p.mcp, i) && Progress(p'.mcp, i, ServiceGet(sources, cm, secret, d))
  {
    DeploymentKeepsTarget(p.mcp, i, cm, secret);
    hide Target, DeploymentDone, Inspected, MutateDeployment, Opts;
  }

  lemma DeploymentCreateAdvances(p: Plane, i: Inputs, sources: seq<Secret>, cm: Data, secret: Data, d: Deployment,
      t: Tick)
    requires Inspected(p.mcp, i, cm, secret) && d == MutateDeployment(NEW_DEPLOYMENT, Opts(i, cm, secret))
    ensures Advances(p, DeploymentCreateCall(p, DeploymentKey(i), sources, cm, secret, d, t), i)
  {
    var k := DeploymentKey(i);
    if k !in p.mcp.deployments {
      DeploymentWritten(p, i, sources, cm, secret, NEW_DEPLOYMENT);
    }
    assert MakeDeployment(p, k, d).mcp == PutDeployment(p, k, d).mcp;
    WriteAdvances(k.ns in p.mcp.namespaces && k !in p.mcp.deployments && Admissible(d), t.fate, p,
        MakeDeployment(p, k, d),
                  DeploymentHeld(k, d), Continue(ServiceGet(sources, cm, secret, d)), i);
    hide Target, Progress, Inspected, MutateDeployment, Opts, Advances, Written, Admissible, DeploymentKey,
      MakeDeployment, PutDeployment;
  }

  lemma DeploymentUpdateAdvances(p: Plane, i: Inputs, sources: seq<Secret>, cm: Data, secret: Data, was: Deployment,
      d: Deployment, t: Tick)
    requires Inspected(p.mcp, i, cm, secret) && d == MutateDeployment(was, Opts(i, cm, secret))
    ensures Advances(p, DeploymentUpdateCall(p, DeploymentKey(i), sources, cm, secret, was, d, t), i)
  {
    var k := DeploymentKey(i);
    if Lookup(p.mcp.deployments, k) == Some(was) {
      DeploymentWritten(p, i, sources, cm, secret, was);
    }
    WriteAdvances(Lookup(p.mcp.deployments, k) == Some(was) && Admissible(d), t.fate, p, PutDeployment(p, k, d),
                  DeploymentHeld(k, d), Continue(ServiceGet(sources, cm, secret, d)), i);
    hide Target, Progress, Inspected, MutateDeployment, Opts, Advances, Written, Admissible, DeploymentKey,
      PutDeployment;
  }

  /** A Service that is as it should be is the target already. */
  lemma ServiceInPlace(m: Mcp, i: Inputs, cm: Data, secret: Data, d: Deployment)
    requires DeploymentDone(m, i, cm, secret, d)
    requires ServiceKey(i) in m.services && MutateService(m.services[ServiceKey(i)]) == m.services[ServiceKey(i)]
    ensures m == Target(m, i)
  {
    ServiceKeepsTarget(m, i, cm, secret, d);
    assert m.services[ServiceKey(i) := m.services[ServiceKey(i)]] == m.services;
    hide Target, DeploymentDone, MutateService;
  }

  lemma ServiceGetAdvances(p: Plane, c: Ctx, i: Inputs, sources: seq<Secret>, cm: Data, secret: Data, d: Deployment,
      t: Tick)
    requires DeploymentDone(p.mcp, i, cm, secret, d)
    ensures Advances(p, ServiceGetCall(p, c, ServiceKey(i), sources, cm, secret, d, t), i)
  {
    var k := ServiceKey(i);
    hide Target, DeploymentDone, MutateService, ServiceKey;
    if k !in p.mcp.services {
      assert Progress(p.mcp, i, ServiceCreate(sources, cm, secret, d, MutateService(NEW_SERVICE)));
    } else if MutateService(p.mcp.services[k]) == p.mcp.services[k] {
      ServiceInPlace(p.mcp, i, cm, secret, d);
    } else {
      assert Progress(p.mcp, i, ServiceUpdate(sources, cm, secret, d, p.mcp.services[k],
          MutateService(p.mcp.services[k])));
    }
    hide Progress;
  }

  lemma ServiceCreateAdvances(p: Plane, c: Ctx, i: Inputs, sources: seq<Secret>, cm: Data, secret: Data,
      d: Deployment, svc: Service, t: Tick)
    requires DeploymentDone(p.mcp, i, cm, secret, d) && svc == MutateService(NEW_SERVICE)
    ensures Advances(p, ServiceCreateCall(p, c, ServiceKey(i), sources, cm, secret, d, svc, t), i)
  {
    var k := ServiceKey(i);
    ServiceKeepsTarget(p.mcp, i, cm, secret, d);
    WriteAdvances(k.ns in p.mcp.namespaces && k !in p.mcp.services, t.fate, p, MakeService(p, k, svc),
                  ServiceHeld(k, svc), Installed(Evidence(c.seen, c.config, k.ns, sources, cm, secret, d, svc)), i);
    hide Target, DeploymentDone, MutateService, Advances, Written;
  }

  lemma ServiceUpdateAdvances(p: Plane, c: Ctx, i: Inputs, sources: seq<Secret>, cm: Data, secret: Data,
      d: Deployment, was: Service, svc: Service, t: Tick)
    requires DeploymentDone(p.mcp, i, cm, secret, d) && svc == MutateService(was)
    ensures Advances(p, ServiceUpdateCall(p, c, ServiceKey(i), sources, cm, secret, d, was, svc, t), i)
  {
    var k := ServiceKey(i);
    ServiceKeepsTarget(p.mcp, i, cm, secret, d);
    WriteAdvances(Lookup(p.mcp.services, k) == Some(was), t.fate, p, PutService(p, k, svc),
                  ServiceHeld(k, svc), Installed(Evidence(c.seen, c.config, k.ns, sources, cm, secret, d, svc)), i);
    hide Target, DeploymentDone, MutateService, Advances, Written;
  }

  lemma CallAdvances(p: Plane, c: Ctx, i: Inputs, d: DomainPoint, t: Tick)
    requires Uses(c, i) && Progress(p.mcp, i, d)
    ensures Advances(p, DomainCall(p, i.platform, c, Ns(i), d, t), i)
  {
    match d
    case NamespaceGet => NamespaceAdvances(p, c, i, false, t);
    case NamespaceCreate => NamespaceAdvances(p, c, i, true, t);
    case PullSource(_) => PullReadsAdvance(p, c, i, d, t);
    case PullGet(_, _) => PullReadsAdvance(p, c, i, d, t);
    case PullCreate(sources, src) => PullCreateAdvances(p, c, i, sources, src, t);
    case PullUpdate(sources, src, dst) => PullUpdateAdvances(p, c, i, sources, src, dst, t);
    case ConfigMapGet(_) => PrerequisitesAdvance(p, c, i, d, t);
    case SecretGet(_, _) => PrerequisitesAdvance(p, c, i, d, t);
    case DeploymentGet(sources, cm, secret) => DeploymentGetAdvances(p, c, i, sources, cm, secret, t);
    case DeploymentCreate(sources, cm, secret, dep) => DeploymentCreateAdvances(p, i, sources, cm, secret, dep, t);
    case DeploymentUpdate(sources, cm, secret, was, dep) =>
      DeploymentUpdateAdvances(p, i, sources, cm, secret, was, dep, t);
    case ServiceGet(sources, cm, secret, dep) => ServiceGetAdvances(p, c, i, sources, cm, secret, dep, t);
    case ServiceCreate(sources, cm, secret, dep, svc) =>
      ServiceCreateAdvances(p, c, i, sources, cm, secret, dep, svc, t);
    case ServiceUpdate(sources, cm, secret, dep, was, svc) =>
      ServiceUpdateAdvances(p, c, i, sources, cm, secret, dep, was, svc, t);
    hide Advances, Inspected, DeploymentDone, NamespaceCall, PullSourceCall, PullGetCall, PullCreateCall,
      PullUpdateCall, ConfigMapCall, SecretCall, DeploymentGetCall, DeploymentCreateCall, DeploymentUpdateCall,
      ServiceGetCall, ServiceCreateCall, ServiceUpdateCall, MutateDeployment, MutateService;
  }

  // ---- runs with the inputs at rest

  /** Nothing but the controller, its restarts, the access provider and redelivery of the same config. */
  predicate Quiet(e: Event, i: Inputs) {
    e.Ctl? || e.e.Crash? || e.e.AccessProgress? || e.e == ConfigStored(Some(i.config))
  }

  predicate AllQuiet(es: seq<Event>, i: Inputs) {
    forall e | e in es :: Quiet(e, i)
  }

  predicate AtRest(s: Stores, i: Inputs) {
    && s.obj.Some? && s.obj.value.spec == i.spec && !s.obj.value.deleting
    && s.platform == i.platform && (s.cache.Some? ==> s.cache.value == i.config)
  }

  /** Where a thread on these inputs can stand: it is not deleting, and an install has come as far as its point says. */
  ghost predicate OnCourse(m: Mcp, th: Thread, i: Inputs) {
    match th
    case Idle => true
    case NoConfigPatch(_, _) => true
    case Reread(c) => c.config == i.config && c.obj.spec == i.spec
    case AddFinalizer(c) => Uses(c, i) && c.seen.spec == i.spec && !c.seen.deleting
    case Accessing(c, deleting, _) => Uses(c, i) && !deleting
    case Installing(c, ns, d) => Uses(c, i) && ns == Ns(i) && Progress(m, i, d)
    case Closing(_, _, _) => true
    case _ => false
  }

  ghost predicate Steady(w: World, i: Inputs) {
    AtRest(w.s, i) && OnCourse(w.s.plane.mcp, w.th, i)
  }

  lemma AfterCallSteady(s: Stores, c: Ctx, go: DomainGo, now: int, i: Inputs)
    requires AtRest(s, i) && Uses(c, i) && (go.Continue? ==> Progress(s.plane.mcp, i, go.d))
    ensures var w := AfterCall(s, c, Ns(i), go, now); Steady(w, i) && w.s.plane == s.plane
  {
    hide Progress, LastOf;
  }

  lemma InstallSteady(s: Stores, c: Ctx, ns: string, d: DomainPoint, t: Tick, i: Inputs)
    requires Steady(World(s, Installing(c, ns, d)), i)
    ensures var w := StepInstalling(s, c, ns, d, t);
      && Steady(w, i) && Target(w.s.plane.mcp, i) == Target(s.plane.mcp, i)
      && (DomainCall(s.plane, s.platform, c, ns, d, t).go.Installed? ==> w.s.plane.mcp == Target(s.plane.mcp, i))
  {
    CallAdvances(s.plane, c, i, d, t);
    var call := DomainCall(s.plane, s.platform, c, ns, d, t);
    AfterCallSteady(s.(plane := call.plane, history := NoteAll(s.history, call.act)), c, call.go, t.now, i);
    hide DomainCall, Target, Progress, AfterCall;
  }

  lemma PatchSteady(s: Stores, th: Thread, t: Tick, i: Inputs)
    requires AtRest(s, i) && (th.NoConfigPatch? || th.Closing?)
    ensures var w := StepCtl(s, th, t); Steady(w, i) && w.s.plane == s.plane
  {
    hide Merge, LastOf, ValidStatus;
  }

  lemma StartSteady(s: Stores, th: Thread, t: Tick, i: Inputs)
    requires Steady(World(s, th), i) && (th.Idle? || th.Reread? || th.AddFinalizer?)
    ensures var w := StepCtl(s, th, t); Steady(w, i) && w.s.plane == s.plane
  {
    hide LastOf, Progress;
  }

  lemma AccessSteady(s: Stores, c: Ctx, deleting: bool, at: AccessPoint, t: Tick, i: Inputs)
    requires Steady(World(s, Accessing(c, deleting, at)), i)
    ensures var w := StepAccessing(s, c, deleting, at, t); Steady(w, i) && w.s.plane == s.plane
  {
    hide AccessCall, AccessEffect, LastOf, ResolveNamespace;
  }

  lemma OthersSteady(s: Stores, th: Thread, t: Tick, i: Inputs)
    requires Steady(World(s, th), i) && !th.Installing?
    ensures var w := StepCtl(s, th, t); Steady(w, i) && w.s.plane == s.plane
  {
    match th
    case NoConfigPatch(_, _) => PatchSteady(s, th, t, i);
    case Closing(_, _, _) => PatchSteady(s, th, t, i);
    case Accessing(c, deleting, at) => AccessSteady(s, c, deleting, at, t, i);
    case _ => StartSteady(s, th, t, i);
    hide Begin, StepNoConfigPatch, StepReread, StepAddFinalizer, StepAccessing, StepClosing, Progress;
  }

  lemma StepSteady(w: World, e: Event, i: Inputs)
    requires Steady(w, i) && Quiet(e, i)
    ensures Steady(Step(w, e), i) && Target(Step(w, e).s.plane.mcp, i) == Target(w.s.plane.mcp, i)
    ensures Completes(w, e) ==> Step(w, e).s.plane.mcp == Target(w.s.plane.mcp, i)
  {
    if e.Ctl? {
      if w.th.Installing? {
        InstallSteady(w.s, w.th.c, w.th.ns, w.th.d, e.t, i);
      } else {
        OthersSteady(w.s, w.th, e.t, i);
      }
    }
    hide Target, Progress, StepInstalling, DomainCall, PatchStatus;
  }

  /** This event is the last call of a pass that found or put everything in place. */
  ghost predicate Completes(w: World, e: Event) {
    w.th.Installing? && e.Ctl? && DomainCall(w.s.plane, w.s.platform, w.th.c, w.th.ns, w.th.d, e.t).go.Installed?
  }

  lemma {:induction false} RunSteady(w: World, es: seq<Event>, i: Inputs)
    requires Steady(w, i) && AllQuiet(es, i)
    ensures Steady(Run(w, es), i) && Target(Run(w, es).s.plane.mcp, i) == Target(w.s.plane.mcp, i)
    decreases |es|
  {
    hide Steady, Target, Step, Completes;
    if es != [] {
      assert Quiet(es[0], i);
      StepSteady(w, es[0], i);
      RunSteady(Step(w, es[0]), es[1..], i);
    }
  }

  /** However many passes were cut short, by failed calls, lost answers or restarts: the pass that gets through leaves
      the control plane at the target computed from the very first state, and there another pass changes nothing. */
  lemma PassConverges(w: World, es: seq<Event>, last: Event, i: Inputs)
    requires Steady(w, i) && AllQuiet(es, i) && Completes(Run(w, es), last)
    ensures var m := Step(Run(w, es), last).s.plane.mcp; m == Target(w.s.plane.mcp, i) && m == Target(m, i)
  {
    RunSteady(w, es, i);
    StepSteady(Run(w, es), last, i);
    hide Steady, Target, Step, Run, Completes;
  }

  /** Two histories from one state, one interrupted at will and one not, end in the same control plane. */
  lemma CrashConsistent(w: World, es: seq<Event>, last: Event, es': seq<Event>, last': Event, i: Inputs)
    requires Steady(w, i) && AllQuiet(es, i) && AllQuiet(es', i)
    requires Completes(Run(w, es), last) && Completes(Run(w, es'), last')
    ensures Step(Run(w, es), last).s.plane.mcp == Step(Run(w, es'), last').s.plane.mcp
  {
    PassConverges(w, es, last, i);
    PassConverges(w, es', last', i);
  }
}
