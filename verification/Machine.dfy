/** The whole system as a step machine.

    The controller's goroutine for one OtelCollectorService is a Thread: where it stands between two API calls and
    what it holds in local variables there. Everything outside it is the Stores. One controller event is one API call
    together with the local computation up to the next call; every other event is something the environment does:
    users, platform operators, the access provider, the config cache, or a process restart. A run is any sequence of
    events. */
module Machine {
  import opened Kube
  import opened Api
  import opened StatusWrites
  import opened Desired
  import Digest

  // ---- what the environment decides about one call

  /** Ok: it took effect. Rejected: no effect, an error. Lost: it took effect, but the caller got an error.
      Empty: no error, but nothing was returned (only a cluster lookup does this; elsewhere it reads as an error). */
  datatype Fate = Ok | Rejected | Lost | Empty

  /** An AccessRequest of the service object. */
  datatype Access = Absent | Pending | Granted | Deleting

  /** The access provider's answer: an error, or a result with its RequeueAfter. */
  datatype Verdict = Failed | Settled(delay: int)

  datatype Reply = Reply(mcp: Access, workload: Access, verdict: Verdict)

  datatype Tick = Tick(fate: Fate, now: int, reply: Reply)

  datatype EnvEvent =
    | UserCreate(spec: ServiceSpec, finalizers: set<string>)
    | UserEdit(spec: ServiceSpec)
    | UserDelete
    | OtherFinalizers(finalizers: set<string>)
    | StripFinalizer
    | AccessProgress(mcp: Access, workload: Access)
    | AccessTamper(mcp: Access, workload: Access)
    | ConfigStored(config: Option<Config>)
    | UserNamespace(name: string, present: bool)
    | UserSecret(key: Key, secret: Option<Secret>)
    | UserConfigMap(key: Key, data: Option<Data>)
    | UserDeployment(key: Key, deployment: Option<Deployment>)
    | UserService(key: Key, service: Option<Service>)
    | PlatformSecret(name: string, secret: Option<Secret>)
    | Crash

  datatype Event = Env(e: EnvEvent) | Ctl(t: Tick)

  // ---- history

  /** What one pass read and settled, kept to say what a Ready status stands for. */
  datatype Evidence = Evidence(
    read: Obj, config: Config, ns: string, sources: seq<Secret>, cm: Data, secret: Data,
    deployment: Deployment, service: Service)

  datatype Act =
    | Began(config: Config)
    | ObjectRead(obj: Obj)
    | NamespaceHeld(ns: string)
    | SourceRead(name: string, src: Secret)
    | PullHeld(key: Key, src: Secret)
    | ConfigMapRead(key: Key, data: Data)
    | SecretRead(key: Key, data: Data)
    | DeploymentHeld(key: Key, deployment: Deployment)
    | ServiceHeld(key: Key, service: Service)
    | StatusPut(uid: nat, status: Status, evidence: Option<Evidence>)

  /** `round` numbers the reconciles. */
  datatype Entry = Entry(round: nat, act: Act)

  /** How the last reconcile ended: object gone, an error, or a result with this RequeueAfter. */
  datatype Last = Never | Gone | Errored | Requeue(after: int)

  datatype History = History(round: nat, log: seq<Entry>, last: Last)

  // ---- state

  /** A control plane, and which of its Deployments and Services the controller created. */
  datatype Plane = Plane(mcp: Mcp, madeDeployments: set<Key>, madeServices: set<Key>)

  /** The access requests of the service object; the second one counts only where a workload cluster is used. */
  datatype Requests = Requests(mcp: Access, workload: Access, withWorkload: bool)

  datatype Stores = Stores(
    obj: Option<Obj>, nextUid: nat,
    plane: Plane,
    platform: map<string, Secret>,
    requests: Requests,
    cache: Option<Config>,
    history: History)

  /** base: the snapshot taken after the first Get. seen: the stored version behind the live object's resourceVersion.
      obj: the live object, with status written locally. config: the copy of the cached ProviderConfig. */
  datatype Ctx = Ctx(base: Obj, seen: Obj, obj: Obj, config: Config)

  datatype Result = Fail | Wait(delay: int)

  datatype AccessPoint = Renew | McpCluster | McpRequest | WorkloadCluster | WorkloadRequest

  /** `sources` are the platform secrets copied so far, in the order of the config's list. */
  datatype DomainPoint =
    | NamespaceGet
    | NamespaceCreate
    | PullSource(sources: seq<Secret>)
    | PullGet(sources: seq<Secret>, src: Secret)
    | PullCreate(sources: seq<Secret>, src: Secret)
    | PullUpdate(sources: seq<Secret>, src: Secret, dst: Secret)
    | ConfigMapGet(sources: seq<Secret>)
    | SecretGet(sources: seq<Secret>, found: Option<Data>)
    | DeploymentGet(sources: seq<Secret>, cm: Data, secret: Data)
    | DeploymentCreate(sources: seq<Secret>, cm: Data, secret: Data, d: Deployment)
    | DeploymentUpdate(sources: seq<Secret>, cm: Data, secret: Data, was: Deployment, d: Deployment)
    | ServiceGet(sources: seq<Secret>, cm: Data, secret: Data, d: Deployment)
    | ServiceCreate(sources: seq<Secret>, cm: Data, secret: Data, d: Deployment, svc: Service)
    | ServiceUpdate(sources: seq<Secret>, cm: Data, secret: Data, d: Deployment, before: Service, svc: Service)

  datatype CleanupPoint = CleanDeploymentGet | CleanDeployment | CleanServiceGet | CleanService

  datatype Thread =
    | Idle
    | NoConfigPatch(base: Obj, obj: Obj)
    | Reread(c: Ctx)
    | Recreate(c: Ctx)
    | AddFinalizer(c: Ctx)
    | Accessing(c: Ctx, deleting: bool, at: AccessPoint)
    | Installing(c: Ctx, ns: string, d: DomainPoint)
    | Closing(c: Ctx, res: Result, evidence: Option<Evidence>)
    | CheckMcpRequest(c: Ctx)
    | CheckWorkloadRequest(c: Ctx)
    | Cleaning(c: Ctx, ns: string, p: CleanupPoint)
    | CleanedPatch(c: Ctx, failed: bool)
    | Releasing(c: Ctx)
    | DropFinalizer(c: Ctx)

  datatype World = World(s: Stores, th: Thread)

  /** Whether a call changed the store. */
  predicate Lands(f: Fate) {
    f == Ok || f == Lost
  }

  // ---- the onboarding API server

  /** What a merge patch from `base` to `next` leaves behind of a stored status: only differing fields are sent. */
  function Merge(stored: Status, base: Status, next: Status): Status {
    if next == NO_STATUS && base != NO_STATUS then NO_STATUS
    else Status(
      if next.conditions != base.conditions then next.conditions else stored.conditions,
      if next.observedGeneration != base.observedGeneration then next.observedGeneration else stored.observedGeneration,
      if next.phase != base.phase then next.phase else stored.phase)
  }

  /** The schema requires observedGeneration and phase in a status that is present. */
  predicate ValidStatus(st: Status) {
    st == NO_STATUS || (st.observedGeneration != 0 && st.phase != "")
  }

  function MergedInto(o: Obj, c: Ctx): Obj {
    o.(status := Merge(o.status, c.base.status, c.obj.status))
  }

  /** Whether the status patch from c.base to c.obj reaches the stored object. A patch of an object whose
      resourceVersion moved since the snapshot carries that version and so demands it. */
  predicate PatchLands(stored: Option<Obj>, c: Ctx, fate: Fate) {
    && stored.Some?
    && (c.seen != c.base ==> stored.value == c.seen)
    && ValidStatus(MergedInto(stored.value, c).status)
    && Lands(fate)
  }

  function Note(h: History, a: Act): History {
    h.(log := h.log + [Entry(h.round, a)])
  }

  function PatchStatus(s: Stores, c: Ctx, evidence: Option<Evidence>, fate: Fate): Stores {
    if PatchLands(s.obj, c, fate) then
      var o := MergedInto(s.obj.value, c);
      s.(obj := Some(o), history := Note(s.history, StatusPut(o.uid, o.status, evidence)))
    else s
  }

  /** The stored object after its finalizers are set to `fs`; an object in deletion goes with its last finalizer. */
  function WithFinalizers(o: Obj, fs: set<string>): Option<Obj> {
    if o.deleting && fs == {} then None else Some(o.(finalizers := fs))
  }

  // ---- ends of a reconcile

  function LastOf(config: Config, res: Result): Last {
    match res
    case Fail => Errored
    case Wait(d) => if d > 0 then Requeue(d) else Requeue(PollInterval(config))
  }

  /** An error, else the requeue delay if it is positive, else the poll interval. */
  function Finish(s: Stores, config: Config, res: Result): World {
    World(s.(history := s.history.(last := LastOf(config, res))), Idle)
  }

  /** Reconcile after createOrUpdate: patch the status if it differs from the snapshot's, then return. */
  function Close(s: Stores, c: Ctx, res: Result, evidence: Option<Evidence>): World {
    if c.obj.status == c.base.status then Finish(s, c.config, res) else World(s, Closing(c, res, evidence))
  }

  function SetProgressing(c: Ctx, reason: string, message: string, now: int): Ctx {
    c.(obj := c.obj.(status := Progressing(c.obj.status, c.obj.generation, reason, message, now)))
  }

  function SetReady(c: Ctx, now: int): Ctx {
    c.(obj := c.obj.(status := Ready(c.obj.status, c.obj.generation, now)))
  }

  function SetTerminating(c: Ctx, now: int): Ctx {
    c.(obj := c.obj.(status := Terminating(c.obj.status, c.obj.generation, now)))
  }

  // ---- SPReconciler: start, finalizer

  /** Fills the config slot of a context whose config is never looked at. */
  const NO_CONFIG := Config(None, None, None, [], None, None)

  function StartRound(h: History): History {
    h.(round := h.round + 1)
  }

  /** Reconcile with an object and no cached config: report it and fail. */
  function BeginWithoutConfig(s: Stores, o: Obj, now: int): World {
    var o' := o.(status := Progressing(o.status, o.generation, "ReconcileError", "No ProviderConfig found", now));
    if o'.status == o.status then Finish(s, NO_CONFIG, Fail) else World(s, NoConfigPatch(o, o'))
  }

  function BeginWithConfig(s: Stores, o: Obj, config: Config): World {
    var c := Ctx(o, o, o, config);
    World(s.(history := Note(s.history, Began(config))), if o.deleting then CheckMcpRequest(c) else Reread(c))
  }

  /** Reconcile up to its second API call. */
  function Begin(s: Stores, t: Tick): World {
    var s' := s.(history := StartRound(s.history));
    if t.fate != Ok then Finish(s', NO_CONFIG, Fail)
    else match s.obj
      case None => World(s'.(history := s'.history.(last := Gone)), Idle)
      case Some(o) => if s.cache.None? then BeginWithoutConfig(s', o, t.now) else BeginWithConfig(s', o, s.cache.value)
  }

  function StepNoConfigPatch(s: Stores, base: Obj, obj: Obj, t: Tick): World {
    Finish(PatchStatus(s, Ctx(base, base, obj, NO_CONFIG), None, t.fate), NO_CONFIG, Fail)
  }

  /** controllerutil.CreateOrUpdate reads the object again before it adds the finalizer. */
  function StepReread(s: Stores, c: Ctx, t: Tick): World {
    if t.fate != Ok then Close(s, c, Fail, None)
    else match s.obj
      case None => World(s, Recreate(c))
      case Some(o) =>
        World(s.(history := Note(s.history, ObjectRead(o))),
              if FINALIZER in o.finalizers then Accessing(c.(seen := o, obj := o), false, Renew)
              else AddFinalizer(c.(seen := o, obj := o.(finalizers := o.finalizers + {FINALIZER}))))
  }

  /** Create is refused: the object still carries the resourceVersion of the incarnation first read. */
  function StepRecreate(s: Stores, c: Ctx, t: Tick): World {
    Close(s, c, Fail, None)
  }

  /** No finalizer can be added to an object in deletion, and the update demands the version last read. */
  function StepAddFinalizer(s: Stores, c: Ctx, t: Tick): World {
    if s.obj == Some(c.seen) && !c.seen.deleting && Lands(t.fate) then
      var o := c.seen.(finalizers := c.obj.finalizers);
      var s' := s.(obj := Some(o));
      if t.fate == Ok
      then World(s'.(history := Note(s.history, ObjectRead(o))), Accessing(c.(seen := o, obj := o), false, Renew))
      else Close(s', c, Fail, None)
    else Close(s, c, Fail, None)
  }

  // ---- SPReconciler: cluster access

  /** What the access provider's Reconcile may do to one request: it never deletes one. */
  predicate MayRenew(a: Access, a': Access) {
    match a
    case Absent => a' in {Absent, Pending, Granted}
    case Pending => a' in {Pending, Granted}
    case Granted => a' == Granted
    case Deleting => a' in {Deleting, Absent}
  }

  /** What its ReconcileDelete may do to one request. */
  predicate MayRelease(a: Access, a': Access) {
    match a
    case Absent => a' == Absent
    case Pending => a' in {Pending, Deleting, Absent}
    case Granted => a' in {Granted, Deleting, Absent}
    case Deleting => a' in {Deleting, Absent}
  }

  predicate InDeletion(a: Access) {
    a == Absent || a == Deleting
  }

  /** RequeueAfter is set: the provider wants to be called again. */
  predicate Finished(v: Verdict) {
    v.Settled? && v.delay <= 0
  }

  /** A finished Reconcile means every required request is granted. */
  predicate RenewReply(q: Requests, r: Reply) {
    && MayRenew(q.mcp, r.mcp)
    && (if q.withWorkload then MayRenew(q.workload, r.workload) else r.workload == q.workload)
    && (Finished(r.verdict) ==> r.mcp == Granted && (q.withWorkload ==> r.workload == Granted))
  }

  /** A finished ReconcileDelete means every request is gone or on its way out. */
  predicate ReleaseReply(q: Requests, r: Reply) {
    && MayRelease(q.mcp, r.mcp)
    && (if q.withWorkload then MayRelease(q.workload, r.workload) else r.workload == q.workload)
    && (Finished(r.verdict) ==> InDeletion(r.mcp) && (q.withWorkload ==> InDeletion(r.workload)))
  }

  function Answered(q: Requests, r: Reply): Requests {
    q.(mcp := r.mcp, workload := r.workload)
  }

  datatype AccessGo = AccessNext(at: AccessPoint) | AccessFailed | AccessPending(delay: int) | AccessReady

  /** The calls of clusters(), one by one. */
  function AccessCall(q: Requests, at: AccessPoint, t: Tick): AccessGo {
    match at
    case Renew =>
      if !RenewReply(q, t.reply) || t.reply.verdict.Failed? then AccessFailed
      else if t.reply.verdict.delay > 0 then AccessPending(t.reply.verdict.delay)
      else AccessNext(McpCluster)
    case McpCluster => if t.fate == Ok && q.mcp == Granted then AccessNext(McpRequest) else AccessFailed
    case McpRequest =>
      if t.fate != Ok || q.mcp == Absent then AccessFailed
      else if q.withWorkload then AccessNext(WorkloadCluster) else AccessReady
    case WorkloadCluster => if t.fate == Ok && q.workload == Granted then AccessNext(WorkloadRequest) else AccessFailed
    case WorkloadRequest => if t.fate != Ok || q.workload == Absent then AccessFailed else AccessReady
  }

  /** Only the provider's Reconcile changes the requests. */
  function AccessEffect(q: Requests, at: AccessPoint, t: Tick): Requests {
    if at == Renew && RenewReply(q, t.reply) then Answered(q, t.reply) else q
  }

  /** clusters() inside createOrUpdate: failures and waits are reported in the status; success starts the domain. */
  function AccessToInstall(s: Stores, c: Ctx, go: AccessGo, now: int): World {
    match go
    case AccessNext(at) => World(s, Accessing(c, false, at))
    case AccessFailed => Close(s, SetProgressing(c, "ClusterAccessError", "Failed to setup cluster access", now),
        Fail, None)
    case AccessPending(d) => Close(s, SetProgressing(c, "Reconciling", "Setting up cluster access", now), Wait(d), None)
    case AccessReady =>
      World(s, Installing(SetProgressing(c, "Reconciling", "Reconcile in progress", now),
                          ResolveNamespace(c.obj.spec, c.config), NamespaceGet))
  }

  /** clusters() inside delete: the status it writes on failure is never patched. */
  function AccessToCleanup(s: Stores, c: Ctx, go: AccessGo, now: int): World {
    match go
    case AccessNext(at) => World(s, Accessing(c, true, at))
    case AccessFailed => Finish(s, c.config, Fail)
    case AccessPending(d) => Finish(s, c.config, Wait(d))
    case AccessReady =>
      World(s, Cleaning(SetTerminating(c, now), ResolveNamespace(c.obj.spec, c.config), CleanDeploymentGet))
  }

  function StepAccessing(s: Stores, c: Ctx, deleting: bool, at: AccessPoint, t: Tick): World {
    var go := AccessCall(s.requests, at, t);
    var s' := s.(requests := AccessEffect(s.requests, at, t));
    if deleting then AccessToCleanup(s', c, go, t.now) else AccessToInstall(s', c, go, t.now)
  }

  // ---- the domain's CreateOrUpdate

  const WAITING := 30

  function Missing(cm: bool, secret: bool, ns: string): string {
    if cm && secret then
      "Waiting for ConfigMap \"otel-collector-conf\" and Secret \"otel-collector-secret\" in namespace \"" + ns + "\""
    else if cm then "Waiting for ConfigMap \"otel-collector-conf\" in namespace \"" + ns + "\""
    else "Waiting for Secret \"otel-collector-secret\" in namespace \"" + ns + "\""
  }

  datatype DomainGo =
    | Continue(d: DomainPoint)
    | Abort
    | Await(message: string)
    | Installed(evidence: Evidence)

  /** What one domain call did: the plane after it, what it saw or settled, and how the domain goes on. */
  datatype Call = Call(plane: Plane, act: Option<Act>, go: DomainGo)

  function PullNext(c: Ctx, sources: seq<Secret>): DomainPoint {
    if |sources| < |c.config.pullSecrets| then PullSource(sources) else ConfigMapGet(sources)
  }

  /** The pull secret in hand; the constant is never reached. */
  function PullKey(c: Ctx, ns: string, sources: seq<Secret>): Key {
    Key(ns, if |sources| < |c.config.pullSecrets| then c.config.pullSecrets[|sources|] else "")
  }

  ghost function HashOpts(c: Ctx, cm: Data, secret: Data): DeploymentOpts {
    OptsFor(c.obj.spec, c.config, Digest.ConfigHash(cm, secret))
  }

  function PutNamespace(p: Plane, ns: string): Plane {
    p.(mcp := p.mcp.(namespaces := p.mcp.namespaces + {ns}))
  }

  function PutSecret(p: Plane, k: Key, v: Secret): Plane {
    p.(mcp := p.mcp.(secrets := p.mcp.secrets[k := v]))
  }

  function PutDeployment(p: Plane, k: Key, v: Deployment): Plane {
    p.(mcp := p.mcp.(deployments := p.mcp.deployments[k := v]))
  }

  function MakeDeployment(p: Plane, k: Key, v: Deployment): Plane {
    PutDeployment(p, k, v).(madeDeployments := p.madeDeployments + {k})
  }

  function PutService(p: Plane, k: Key, v: Service): Plane {
    p.(mcp := p.mcp.(services := p.mcp.services[k := v]))
  }

  function MakeService(p: Plane, k: Key, v: Service): Plane {
    PutService(p, k, v).(madeServices := p.madeServices + {k})
  }

  /** A call that may write: refused, or written with the answer lost, or written and acknowledged. */
  function Written(accepted: bool, fate: Fate, p: Plane, p': Plane, act: Act, go: DomainGo): Call {
    if !accepted || !Lands(fate) then Call(p, None, Abort)
    else if fate == Lost then Call(p', None, Abort)
    else Call(p', Some(act), go)
  }

  function NamespaceCall(p: Plane, c: Ctx, ns: string, creating: bool, t: Tick): Call {
    if creating then
      Written(ns !in p.mcp.namespaces, t.fate, p, PutNamespace(p, ns), NamespaceHeld(ns), Continue(PullNext(c, [])))
    else if t.fate != Ok then Call(p, None, Abort)
    else if ns in p.mcp.namespaces then Call(p, Some(NamespaceHeld(ns)), Continue(PullNext(c, [])))
    else Call(p, None, Continue(NamespaceCreate))
  }

  function PullSourceCall(p: Plane, platform: map<string, Secret>, k: Key, sources: seq<Secret>, t: Tick): Call {
    if t.fate != Ok || k.name !in platform then Call(p, None, Abort)
    else Call(p, Some(SourceRead(k.name, platform[k.name])), Continue(PullGet(sources, platform[k.name])))
  }

  function PullGetCall(p: Plane, k: Key, sources: seq<Secret>, src: Secret, t: Tick): Call {
    if t.fate != Ok then Call(p, None, Abort)
    else Call(p, None, Continue(if k in p.mcp.secrets then PullUpdate(sources, src, p.mcp.secrets[k])
                                else PullCreate(sources, src)))
  }

  /** A create needs its namespace and a free name. */
  function PullCreateCall(p: Plane, c: Ctx, k: Key, sources: seq<Secret>, src: Secret, t: Tick): Call {
    Written(k.ns in p.mcp.namespaces && k !in p.mcp.secrets, t.fate, p, PutSecret(p, k, SyncSecret(None, src)),
            PullHeld(k, src), Continue(PullNext(c, sources + [src])))
  }

  /** An update demands the version it was made from. */
  function PullUpdateCall(p: Plane, c: Ctx, k: Key, sources: seq<Secret>, src: Secret, dst: Secret, t: Tick): Call {
    Written(Lookup(p.mcp.secrets, k) == Some(dst), t.fate, p, PutSecret(p, k, SyncSecret(Some(dst), src)),
            PullHeld(k, src), Continue(PullNext(c, sources + [src])))
  }

  function ConfigMapCall(p: Plane, k: Key, sources: seq<Secret>, t: Tick): Call {
    if t.fate != Ok then Call(p, None, Abort)
    else if k in p.mcp.configMaps
    then Call(p, Some(ConfigMapRead(k, p.mcp.configMaps[k])), Continue(SecretGet(sources, Some(p.mcp.configMaps[k]))))
    else Call(p, None, Continue(SecretGet(sources, None)))
  }

  function SecretCall(p: Plane, k: Key, sources: seq<Secret>, cm: Option<Data>, t: Tick): Call {
    if t.fate != Ok then Call(p, None, Abort)
    else if cm.Some? && k in p.mcp.secrets
    then Call(p, Some(SecretRead(k, p.mcp.secrets[k].data)),
        Continue(DeploymentGet(sources, cm.value, p.mcp.secrets[k].data)))
    else Call(p, None, Await(Missing(cm.None?, k !in p.mcp.secrets, k.ns)))
  }

  function DeploymentGetCall(p: Plane, k: Key, sources: seq<Secret>, cm: Data, secret: Data, o: DeploymentOpts,
      t: Tick): Call {
    if t.fate != Ok then Call(p, None, Abort)
    else if k !in p.mcp.deployments
    then Call(p, None, Continue(DeploymentCreate(sources, cm, secret, MutateDeployment(NEW_DEPLOYMENT, o))))
    else
      var was := p.mcp.deployments[k];
      var d := MutateDeployment(was, o);
      if d == was then Call(p, Some(DeploymentHeld(k, d)), Continue(ServiceGet(sources, cm, secret, d)))
      else Call(p, None, Continue(DeploymentUpdate(sources, cm, secret, was, d)))
  }

  function DeploymentCreateCall(p: Plane, k: Key, sources: seq<Secret>, cm: Data, secret: Data, d: Deployment,
      t: Tick): Call {
    Written(k.ns in p.mcp.namespaces && k !in p.mcp.deployments && Admissible(d), t.fate, p, MakeDeployment(p, k, d),
            DeploymentHeld(k, d), Continue(ServiceGet(sources, cm, secret, d)))
  }

  function DeploymentUpdateCall(p: Plane, k: Key, sources: seq<Secret>, cm: Data, secret: Data, was: Deployment,
      d: Deployment, t: Tick): Call {
    Written(Lookup(p.mcp.deployments, k) == Some(was) && Admissible(d), t.fate, p, PutDeployment(p, k, d),
            DeploymentHeld(k, d), Continue(ServiceGet(sources, cm, secret, d)))
  }

  function ServiceGetCall(p: Plane, c: Ctx, k: Key, sources: seq<Secret>, cm: Data, secret: Data, d: Deployment,
      t: Tick): Call {
    if t.fate != Ok then Call(p, None, Abort)
    else if k !in p.mcp.services
    then Call(p, None, Continue(ServiceCreate(sources, cm, secret, d, MutateService(NEW_SERVICE))))
    else
      var was := p.mcp.services[k];
      var svc := MutateService(was);
      if svc == was
      then Call(p, Some(ServiceHeld(k, svc)), Installed(Evidence(c.seen, c.config, k.ns, sources, cm, secret, d, svc)))
      else Call(p, None, Continue(ServiceUpdate(sources, cm, secret, d, was, svc)))
  }

  function ServiceCreateCall(p: Plane, c: Ctx, k: Key, sources: seq<Secret>, cm: Data, secret: Data, d: Deployment,
      svc: Service, t: Tick): Call {
    Written(k.ns in p.mcp.namespaces && k !in p.mcp.services, t.fate, p, MakeService(p, k, svc),
            ServiceHeld(k, svc), Installed(Evidence(c.seen, c.config, k.ns, sources, cm, secret, d, svc)))
  }

  function ServiceUpdateCall(p: Plane, c: Ctx, k: Key, sources: seq<Secret>, cm: Data, secret: Data, d: Deployment,
      was: Service, svc: Service, t: Tick): Call {
    Written(Lookup(p.mcp.services, k) == Some(was), t.fate, p, PutService(p, k, svc),
            ServiceHeld(k, svc), Installed(Evidence(c.seen, c.config, k.ns, sources, cm, secret, d, svc)))
  }

  ghost function DomainCall(p: Plane, platform: map<string, Secret>, c: Ctx, ns: string, d: DomainPoint,
      t: Tick): Call {
    match d
    case NamespaceGet => NamespaceCall(p, c, ns, false, t)
    case NamespaceCreate => NamespaceCall(p, c, ns, true, t)
    case PullSource(sources) => PullSourceCall(p, platform, PullKey(c, ns, sources), sources, t)
    case PullGet(sources, src) => PullGetCall(p, PullKey(c, ns, sources), sources, src, t)
    case PullCreate(sources, src) => PullCreateCall(p, c, PullKey(c, ns, sources), sources, src, t)
    case PullUpdate(sources, src, dst) => PullUpdateCall(p, c, PullKey(c, ns, sources), sources, src, dst, t)
    case ConfigMapGet(sources) => ConfigMapCall(p, Key(ns, CONFIG_MAP), sources, t)
    case SecretGet(sources, cm) => SecretCall(p, Key(ns, SECRET), sources, cm, t)
    case DeploymentGet(sources, cm, secret) =>
      DeploymentGetCall(p, Key(ns, DEPLOYMENT), sources, cm, secret, HashOpts(c, cm, secret), t)
    case DeploymentCreate(sources, cm, secret, dep) =>
      DeploymentCreateCall(p, Key(ns, DEPLOYMENT), sources, cm, secret, dep, t)
    case DeploymentUpdate(sources, cm, secret, was, dep) =>
      DeploymentUpdateCall(p, Key(ns, DEPLOYMENT), sources, cm, secret, was, dep, t)
    case ServiceGet(sources, cm, secret, dep) => ServiceGetCall(p, c, Key(ns, SERVICE), sources, cm, secret, dep, t)
    case ServiceCreate(sources, cm, secret, dep, svc) =>
      ServiceCreateCall(p, c, Key(ns, SERVICE), sources, cm, secret, dep, svc, t)
    case ServiceUpdate(sources, cm, secret, dep, was, svc) =>
      ServiceUpdateCall(p, c, Key(ns, SERVICE), sources, cm, secret, dep, was, svc, t)
  }

  function NoteAll(h: History, a: Option<Act>): History {
    if a.Some? then Note(h, a.value) else h
  }

  function AfterCall(s: Stores, c: Ctx, ns: string, go: DomainGo, now: int): World {
    match go
    case Continue(d) => World(s, Installing(c, ns, d))
    case Abort => Close(s, c, Fail, None)
    case Await(message) => Close(s, SetProgressing(c, "WaitingForPrerequisites", message, now), Wait(WAITING), None)
    case Installed(evidence) => Close(s, SetReady(c, now), Wait(0), Some(evidence))
  }

  ghost function StepInstalling(s: Stores, c: Ctx, ns: string, d: DomainPoint, t: Tick): World {
    var call := DomainCall(s.plane, s.platform, c, ns, d, t);
    AfterCall(s.(plane := call.plane, history := NoteAll(s.history, call.act)), c, ns, call.go, t.now)
  }

  function StepClosing(s: Stores, c: Ctx, res: Result, evidence: Option<Evidence>, t: Tick): World {
    Finish(PatchStatus(s, c, evidence, t.fate), c.config, res)
  }

  // ---- SPReconciler: delete

  function StepCheckMcpRequest(s: Stores, c: Ctx, t: Tick): World {
    if t.fate != Ok then Finish(s, c.config, Fail)
    else if InDeletion(s.requests.mcp) then World(s, Releasing(c))
    else if s.requests.withWorkload then World(s, CheckWorkloadRequest(c))
    else World(s, Accessing(c, true, Renew))
  }

  function StepCheckWorkloadRequest(s: Stores, c: Ctx, t: Tick): World {
    if t.fate != Ok then Finish(s, c.config, Fail)
    else if InDeletion(s.requests.workload) then World(s, Releasing(c))
    else World(s, Accessing(c, true, Renew))
  }

  datatype CleanGo = CleanNext(p: CleanupPoint) | CleanFailed | CleanDone

  datatype CleanCall = CleanCall(plane: Plane, go: CleanGo)

  function RemoveDeployment(p: Plane, k: Key): Plane {
    p.(mcp := p.mcp.(deployments := p.mcp.deployments - {k}), madeDeployments := p.madeDeployments - {k})
  }

  function RemoveService(p: Plane, k: Key): Plane {
    p.(mcp := p.mcp.(services := p.mcp.services - {k}), madeServices := p.madeServices - {k})
  }

  /** The calls of DeleteManagedResources; a delete that finds nothing counts as done. */
  function Cleanup(p: Plane, ns: string, at: CleanupPoint, t: Tick): CleanCall {
    match at
    case CleanDeploymentGet =>
      CleanCall(p, if t.fate != Ok then CleanFailed
                   else if Key(ns, DEPLOYMENT) in p.mcp.deployments then CleanNext(CleanDeployment)
                   else CleanNext(CleanServiceGet))
    case CleanDeployment =>
      CleanCall(if Lands(t.fate) then RemoveDeployment(p, Key(ns, DEPLOYMENT)) else p,
                if t.fate == Ok then CleanNext(CleanServiceGet) else CleanFailed)
    case CleanServiceGet =>
      CleanCall(p, if t.fate != Ok then CleanFailed
                   else if Key(ns, SERVICE) in p.mcp.services then CleanNext(CleanService)
                   else CleanDone)
    case CleanService =>
      CleanCall(if Lands(t.fate) then RemoveService(p, Key(ns, SERVICE)) else p,
                if t.fate == Ok then CleanDone else CleanFailed)
  }

  /** The domain's Delete has returned: patch the status if it changed, then go on or give up. */
  function Cleaned(s: Stores, c: Ctx, failed: bool): World {
    if c.obj.status != c.base.status then World(s, CleanedPatch(c, failed))
    else if failed then Finish(s, c.config, Fail)
    else World(s, Releasing(c))
  }

  function StepCleaning(s: Stores, c: Ctx, ns: string, p: CleanupPoint, t: Tick): World {
    var call := Cleanup(s.plane, ns, p, t);
    var s' := s.(plane := call.plane);
    match call.go
    case CleanNext(p') => World(s', Cleaning(c, ns, p'))
    case CleanFailed => Cleaned(s', c, true)
    case CleanDone => Cleaned(s', c, false)
  }

  /** A patch that succeeds refreshes the live object, resourceVersion included. */
  function StepCleanedPatch(s: Stores, c: Ctx, failed: bool, t: Tick): World {
    var s' := PatchStatus(s, c, None, t.fate);
    if failed then Finish(s', c.config, Fail)
    else if PatchLands(s.obj, c, t.fate) && t.fate == Ok then
      var o := MergedInto(s.obj.value, c);
      World(s', Releasing(c.(seen := o, obj := o)))
    else World(s', Releasing(c))
  }

  function StepReleasing(s: Stores, c: Ctx, t: Tick): World {
    if !ReleaseReply(s.requests, t.reply) then Finish(s, c.config, Fail)
    else
      var s' := s.(requests := Answered(s.requests, t.reply));
      match t.reply.verdict
      case Failed => Finish(s', c.config, Fail)
      case Settled(d) => if d > 0 then Finish(s', c.config, Wait(d)) else World(s', DropFinalizer(c))
  }

  function StepDropFinalizer(s: Stores, c: Ctx, t: Tick): World {
    if s.obj == Some(c.seen) && Lands(t.fate) then
      Finish(s.(obj := WithFinalizers(c.seen, c.obj.finalizers - {FINALIZER})), c.config,
             if t.fate == Ok then Wait(0) else Fail)
    else Finish(s, c.config, Fail)
  }

  // ---- one step of the controller

  ghost function StepCtl(s: Stores, th: Thread, t: Tick): World {
    match th
    case Idle => Begin(s, t)
    case NoConfigPatch(base, obj) => StepNoConfigPatch(s, base, obj, t)
    case Reread(c) => StepReread(s, c, t)
    case Recreate(c) => StepRecreate(s, c, t)
    case AddFinalizer(c) => StepAddFinalizer(s, c, t)
    case Accessing(c, deleting, at) => StepAccessing(s, c, deleting, at, t)
    case Installing(c, ns, d) => StepInstalling(s, c, ns, d, t)
    case Closing(c, res, evidence) => StepClosing(s, c, res, evidence, t)
    case CheckMcpRequest(c) => StepCheckMcpRequest(s, c, t)
    case CheckWorkloadRequest(c) => StepCheckWorkloadRequest(s, c, t)
    case Cleaning(c, ns, p) => StepCleaning(s, c, ns, p, t)
    case CleanedPatch(c, failed) => StepCleanedPatch(s, c, failed, t)
    case Releasing(c) => StepReleasing(s, c, t)
    case DropFinalizer(c) => StepDropFinalizer(s, c, t)
  }

  // ---- one step of the environment

  function Changed<V>(m: map<Key, V>, k: Key, v: Option<V>): map<Key, V> {
    if v.Some? then m[k := v.value] else m - {k}
  }

  /** The provider's own progress between calls. */
  predicate MayProgress(a: Access, a': Access) {
    a' == a || (a == Pending && a' == Granted) || (a == Deleting && a' == Absent)
  }

  /** What users do to the service object. Refused edits leave it as it was: a second object of the name, a new
      finalizer on an object in deletion. A new incarnation takes the next uid and starts at generation 1; a changed
      spec and the start of deletion each count one generation. */
  function ObjectEvent(obj: Option<Obj>, nextUid: nat, e: EnvEvent): Option<Obj> {
    match e
    case UserCreate(spec, fs) => if obj.Some? then obj else Some(Obj(nextUid, 1, spec, false, fs, NO_STATUS))
    case UserEdit(spec) =>
      if obj.None? || obj.value.spec == spec then obj
      else Some(obj.value.(spec := spec, generation := obj.value.generation + 1))
    case UserDelete =>
      if obj.None? || obj.value.deleting then obj
      else if obj.value.finalizers == {} then None
      else Some(obj.value.(deleting := true, generation := obj.value.generation + 1))
    case OtherFinalizers(fs) =>
      if obj.None? then obj
      else
        var fs' := (fs - {FINALIZER}) + (obj.value.finalizers * {FINALIZER});
        if obj.value.deleting && !(fs' <= obj.value.finalizers) then obj else WithFinalizers(obj.value, fs')
    case StripFinalizer =>
      if obj.None? then obj else WithFinalizers(obj.value, obj.value.finalizers - {FINALIZER})
    case _ => obj
  }

  /** What users do in the control plane. An inadmissible Deployment or a changed selector is refused. */
  function PlaneEvent(p: Plane, e: EnvEvent): Plane {
    match e
    case UserNamespace(n, present) =>
      p.(mcp := p.mcp.(namespaces := if present then p.mcp.namespaces + {n} else p.mcp.namespaces - {n}))
    case UserSecret(k, v) => p.(mcp := p.mcp.(secrets := Changed(p.mcp.secrets, k, v)))
    case UserConfigMap(k, v) => p.(mcp := p.mcp.(configMaps := Changed(p.mcp.configMaps, k, v)))
    case UserDeployment(k, None) => RemoveDeployment(p, k)
    case UserDeployment(k, Some(d)) =>
      if Admissible(d) && (k in p.mcp.deployments ==> p.mcp.deployments[k].selector == d.selector)
      then PutDeployment(p, k, d) else p
    case UserService(k, None) => RemoveService(p, k)
    case UserService(k, Some(svc)) => PutService(p, k, svc)
    case _ => p
  }

  function RequestsEvent(q: Requests, e: EnvEvent): Requests {
    match e
    case AccessProgress(a, b) =>
      if MayProgress(q.mcp, a) && MayProgress(q.workload, b) then q.(mcp := a, workload := b) else q
    case AccessTamper(a, b) => q.(mcp := a, workload := b)
    case _ => q
  }

  function StepEnv(s: Stores, e: EnvEvent): Stores {
    s.(obj := ObjectEvent(s.obj, s.nextUid, e),
       nextUid := if e.UserCreate? && s.obj.None? then s.nextUid + 1 else s.nextUid,
       plane := PlaneEvent(s.plane, e),
       platform := if !e.PlatformSecret? then s.platform
                   else if e.secret.Some? then s.platform[e.name := e.secret.value] else s.platform - {e.name},
       requests := RequestsEvent(s.requests, e),
       cache := if e.ConfigStored? then e.config else if e.Crash? then None else s.cache)
  }

  /** A restart loses the running reconcile and the cached config. */
  ghost function Step(w: World, e: Event): World {
    match e
    case Ctl(t) => StepCtl(w.s, w.th, t)
    case Env(e) => World(StepEnv(w.s, e), if e.Crash? then Idle else w.th)
  }

  ghost function Run(w: World, es: seq<Event>): World
    decreases |es|
  {
    if es == [] then w else Run(Step(w, es[0]), es[1..])
  }

  lemma {:induction false} RunAppend(w: World, es: seq<Event>, fs: seq<Event>)
    ensures Run(w, es + fs) == Run(Run(w, es), fs)
    decreases |es|
  {
    if es == [] {
      assert es + fs == fs;
    } else {
      assert (es + fs)[1..] == es[1..] + fs;
      RunAppend(Step(w, es[0]), es[1..], fs);
    }
  }

  lemma RunCons(w: World, e: Event, es: seq<Event>)
    ensures Run(w, [e] + es) == Run(Step(w, e), es)
  {
    assert ([e] + es)[1..] == es;
  }

  /** Where runs start: no object, nothing made, no access, a process just started. What users and operators keep in
      their clusters is arbitrary. */
  predicate Initial(w: World) {
    && w.th == Idle
    && w.s.obj.None?
    && McpAdmissible(w.s.plane.mcp)
    && w.s.plane.madeDeployments == {} && w.s.plane.madeServices == {}
    && w.s.requests.mcp == Absent && w.s.requests.workload == Absent
    && w.s.cache.None?
    && w.s.history.log == [] && w.s.history.last == Never
  }

  /** What the access contract rules out: somebody else taking our finalizer or our access requests away. */
  predicate Tame(e: Event) {
    e.Env? ==> !e.e.StripFinalizer? && !e.e.AccessTamper?
  }

  predicate AllTame(es: seq<Event>) {
    forall e | e in es :: Tame(e)
  }
}
