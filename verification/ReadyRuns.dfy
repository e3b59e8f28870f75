/** What a persisted Ready stands for: one pass read the object at that generation, and in that same pass namespace,
    pull secrets, Deployment and Service were all found or put as that read asks for. */
module ReadyRuns {
  import opened Kube
  import opened Api
  import opened StatusWrites
  import opened Desired
  import opened Machine
  import Digest
  import StatusRuns
  import Observed

  ghost function Wanted(ev: Evidence): DeploymentOpts {
    OptsFor(ev.read.spec, ev.config, Digest.ConfigHash(ev.cm, ev.secret))
  }

  /** Round `r` of this log did everything the evidence says, and it is what the evidence asks for. */
  ghost predicate Justified(log: seq<Entry>, r: nat, ev: Evidence) {
    && Entry(r, Began(ev.config)) in log
    && Entry(r, ObjectRead(ev.read)) in log
    && ev.ns == ResolveNamespace(ev.read.spec, ev.config)
    && Entry(r, NamespaceHeld(ev.ns)) in log
    && PullsHeld(log, r, ev.config, ev.ns, ev.sources) && |ev.sources| == |ev.config.pullSecrets|
    && Entry(r, ConfigMapRead(Key(ev.ns, CONFIG_MAP), ev.cm)) in log
    && Entry(r, SecretRead(Key(ev.ns, SECRET), ev.secret)) in log
    && Entry(r, DeploymentHeld(Key(ev.ns, DEPLOYMENT), ev.deployment)) in log
    && Entry(r, ServiceHeld(Key(ev.ns, SERVICE), ev.service)) in log
    && Meets(ev.deployment, Wanted(ev)) && ServiceMeets(ev.service)
  }

  /** The listed secrets were read from the platform, one after the other, and their copies were put. */
  predicate PullsHeld(log: seq<Entry>, r: nat, config: Config, ns: string, sources: seq<Secret>) {
    && |sources| <= |config.pullSecrets|
    && forall j | 0 <= j < |sources| ::
         && Entry(r, SourceRead(config.pullSecrets[j], sources[j])) in log
         && Entry(r, PullHeld(Key(ns, config.pullSecrets[j]), sources[j])) in log
  }

  /** Entry `e`, if it stores a Ready status, is justified by what came before it in its round. */
  ghost predicate Earned(log: seq<Entry>, e: Entry) {
    e.act.StatusPut? && e.act.status.phase == PHASE_READY ==>
      && e.act.evidence.Some?
      && Justified(log, e.round, e.act.evidence.value)
      && e.act.evidence.value.read.generation == e.act.status.observedGeneration
  }

  ghost predicate AllEarned(log: seq<Entry>) {
    forall j | 0 <= j < |log| :: Earned(log[..j], log[j])
  }

  // ---- what a thread has on record

  predicate Started(log: seq<Entry>, r: nat, c: Ctx) {
    Entry(r, Began(c.config)) in log
  }

  predicate HasRead(log: seq<Entry>, r: nat, c: Ctx) {
    && Started(log, r, c) && Entry(r, ObjectRead(c.seen)) in log
    && c.obj.spec == c.seen.spec && c.obj.generation == c.seen.generation
  }

  predicate InNamespace(log: seq<Entry>, r: nat, c: Ctx, ns: string, sources: seq<Secret>) {
    && HasRead(log, r, c) && ns == ResolveNamespace(c.obj.spec, c.config)
    && Entry(r, NamespaceHeld(ns)) in log && PullsHeld(log, r, c.config, ns, sources)
  }

  predicate AllPulled(log: seq<Entry>, r: nat, c: Ctx, ns: string, sources: seq<Secret>) {
    InNamespace(log, r, c, ns, sources) && |sources| == |c.config.pullSecrets|
  }

  /** The secret to be copied next has been read from the platform. */
  predicate InHand(log: seq<Entry>, r: nat, c: Ctx, ns: string, sources: seq<Secret>, src: Secret) {
    && InNamespace(log, r, c, ns, sources) && |sources| < |c.config.pullSecrets|
    && Entry(r, SourceRead(c.config.pullSecrets[|sources|], src)) in log
  }

  predicate HasConfigMap(log: seq<Entry>, r: nat, ns: string, cm: Data) {
    Entry(r, ConfigMapRead(Key(ns, CONFIG_MAP), cm)) in log
  }

  predicate HasInputs(log: seq<Entry>, r: nat, c: Ctx, ns: string, sources: seq<Secret>, cm: Data, secret: Data) {
    && AllPulled(log, r, c, ns, sources) && HasConfigMap(log, r, ns, cm)
    && Entry(r, SecretRead(Key(ns, SECRET), secret)) in log
  }

  ghost predicate HasDeployment(log: seq<Entry>, r: nat, c: Ctx, ns: string, sources: seq<Secret>, cm: Data,
      secret: Data, d: Deployment) {
    && HasInputs(log, r, c, ns, sources, cm, secret)
    && Entry(r, DeploymentHeld(Key(ns, DEPLOYMENT), d)) in log && Meets(d, HashOpts(c, cm, secret))
  }

  ghost predicate OnRecord(log: seq<Entry>, r: nat, c: Ctx, ns: string, d: DomainPoint) {
    match d
    case NamespaceGet => HasRead(log, r, c) && ns == ResolveNamespace(c.obj.spec, c.config)
    case NamespaceCreate => HasRead(log, r, c) && ns == ResolveNamespace(c.obj.spec, c.config)
    case PullSource(sources) => InNamespace(log, r, c, ns, sources) && |sources| < |c.config.pullSecrets|
    case PullGet(sources, src) => InHand(log, r, c, ns, sources, src)
    case PullCreate(sources, src) => InHand(log, r, c, ns, sources, src)
    case PullUpdate(sources, src, _) => InHand(log, r, c, ns, sources, src)
    case ConfigMapGet(sources) => AllPulled(log, r, c, ns, sources)
    case SecretGet(sources, found) =>
      AllPulled(log, r, c, ns, sources) && (found.Some? ==> HasConfigMap(log, r, ns, found.value))
    case DeploymentGet(sources, cm, secret) => HasInputs(log, r, c, ns, sources, cm, secret)
    case DeploymentCreate(sources, cm, secret, dep) =>
      HasInputs(log, r, c, ns, sources, cm, secret) && Meets(dep, HashOpts(c, cm, secret))
    case DeploymentUpdate(sources, cm, secret, _, dep) =>
      HasInputs(log, r, c, ns, sources, cm, secret) && Meets(dep, HashOpts(c, cm, secret))
    case ServiceGet(sources, cm, secret, dep) => HasDeployment(log, r, c, ns, sources, cm, secret, dep)
    case ServiceCreate(sources, cm, secret, dep, svc) =>
      HasDeployment(log, r, c, ns, sources, cm, secret, dep) && ServiceMeets(svc)
    case ServiceUpdate(sources, cm, secret, dep, _, svc) =>
      HasDeployment(log, r, c, ns, sources, cm, secret, dep) && ServiceMeets(svc)
  }

  lemma MutateMeets(d: Deployment, o: DeploymentOpts, svc: Service)
    ensures Meets(MutateDeployment(d, o), o) && ServiceMeets(MutateService(svc))
  {
  }

  /** What is on record stays on record. */
  lemma RecordGrows(log: seq<Entry>, e: Entry, r: nat, c: Ctx, ns: string, d: DomainPoint)
    requires OnRecord(log, r, c, ns, d)
    ensures OnRecord(log + [e], r, c, ns, d)
  {
    hide Meets, ServiceMeets, HashOpts, ResolveNamespace;
  }

  ghost predicate CallRecorded(log: seq<Entry>, r: nat, c: Ctx, ns: string, go: DomainGo) {
    && (go.Continue? ==> OnRecord(log, r, c, ns, go.d))
    && (go.Installed? ==> Justified(log, r, go.evidence) && go.evidence.read == c.seen)
  }

  function Logged(log: seq<Entry>, r: nat, act: Option<Act>): seq<Entry> {
    if act.Some? then log + [Entry(r, act.value)] else log
  }

  lemma PullNextRecorded(log: seq<Entry>, r: nat, c: Ctx, ns: string, sources: seq<Secret>)
    requires InNamespace(log, r, c, ns, sources)
    ensures OnRecord(log, r, c, ns, PullNext(c, sources))
  {
  }

  lemma NamespaceRecorded(log: seq<Entry>, r: nat, p: Plane, c: Ctx, ns: string, creating: bool, t: Tick)
    requires HasRead(log, r, c) && ns == ResolveNamespace(c.obj.spec, c.config)
    ensures var call := NamespaceCall(p, c, ns, creating, t); CallRecorded(Logged(log, r, call.act), r, c, ns, call.go)
  {
    var log' := log + [Entry(r, NamespaceHeld(ns))];
    assert InNamespace(log', r, c, ns, []);
    PullNextRecorded(log', r, c, ns, []);
    hide ResolveNamespace, PullNext, Justified, InNamespace;
  }

  /** One more secret synced, one more entry. */
  lemma PullRecorded(log: seq<Entry>, r: nat, c: Ctx, ns: string, sources: seq<Secret>, src: Secret)
    requires InHand(log, r, c, ns, sources, src)
    ensures OnRecord(log + [Entry(r, PullHeld(PullKey(c, ns, sources), src))], r, c, ns, PullNext(c, sources + [src]))
  {
    var log' := log + [Entry(r, PullHeld(PullKey(c, ns, sources), src))];
    assert InNamespace(log', r, c, ns, sources + [src]) by {
      forall j | 0 <= j < |sources + [src]|
        ensures Entry(r, SourceRead(c.config.pullSecrets[j], (sources + [src])[j])) in log'
        ensures Entry(r, PullHeld(Key(ns, c.config.pullSecrets[j]), (sources + [src])[j])) in log'
      {
        if j == |sources| {
          assert log'[|log|] == Entry(r, PullHeld(PullKey(c, ns, sources), src));
        }
      }
      hide ResolveNamespace;
    }
    PullNextRecorded(log', r, c, ns, sources + [src]);
  }

  /** The read of the platform's secret goes on record before anything is done with it. */
  lemma SourceRecorded(log: seq<Entry>, r: nat, c: Ctx, ns: string, sources: seq<Secret>, src: Secret)
    requires InNamespace(log, r, c, ns, sources) && |sources| < |c.config.pullSecrets|
    ensures InHand(log + [Entry(r, SourceRead(c.config.pullSecrets[|sources|], src))], r, c, ns, sources, src)
  {
    var log' := log + [Entry(r, SourceRead(c.config.pullSecrets[|sources|], src))];
    assert log'[|log|] == Entry(r, SourceRead(c.config.pullSecrets[|sources|], src));
    hide ResolveNamespace;
  }

  lemma PullCallRecorded(log: seq<Entry>, r: nat, p: Plane, platform: map<string, Secret>, c: Ctx, ns: string,
      d: DomainPoint, t: Tick)
    requires OnRecord(log, r, c, ns, d) && (d.PullSource? || d.PullGet? || d.PullCreate? || d.PullUpdate?)
    ensures var call := DomainCall(p, platform, c, ns, d, t); CallRecorded(Logged(log, r, call.act), r, c, ns, call.go)
  {
    if d.PullCreate? || d.PullUpdate? {
      PullRecorded(log, r, c, ns, d.sources, d.src);
    } else if d.PullSource? && PullKey(c, ns, d.sources).name in platform {
      SourceRecorded(log, r, c, ns, d.sources, platform[PullKey(c, ns, d.sources).name]);
    }
    hide ResolveNamespace, PullNext, Justified, InNamespace, SyncSecret, PutSecret;
  }

  lemma PrerequisitesRecorded(log: seq<Entry>, r: nat, p: Plane, c: Ctx, ns: string, sources: seq<Secret>,
      found: Option<Data>, t: Tick)
    requires AllPulled(log, r, c, ns, sources)
    ensures var call := ConfigMapCall(p, Key(ns, CONFIG_MAP), sources, t);
      CallRecorded(Logged(log, r, call.act), r, c, ns, call.go)
    ensures (found.Some? ==> HasConfigMap(log, r, ns, found.value)) ==>
      var call := SecretCall(p, Key(ns, SECRET), sources, found, t);
      CallRecorded(Logged(log, r, call.act), r, c, ns, call.go)
  {
    hide ResolveNamespace, Justified;
  }

  lemma DeploymentRecorded(log: seq<Entry>, r: nat, p: Plane, c: Ctx, ns: string, sources: seq<Secret>, cm: Data,
      secret: Data, was: Deployment, d: Deployment, t: Tick)
    requires HasInputs(log, r, c, ns, sources, cm, secret) && Meets(d, HashOpts(c, cm, secret))
    ensures var call := DeploymentCreateCall(p, Key(ns, DEPLOYMENT), sources, cm, secret, d, t);
      CallRecorded(Logged(log, r, call.act), r, c, ns, call.go)
    ensures var call := DeploymentUpdateCall(p, Key(ns, DEPLOYMENT), sources, cm, secret, was, d, t);
      CallRecorded(Logged(log, r, call.act), r, c, ns, call.go)
  {
    HeldRecorded(log, r, c, ns, sources, cm, secret, d);
    hide HasInputs, HasDeployment, Meets, HashOpts, Admissible, Justified, MakeDeployment, PutDeployment;
  }

  lemma HeldRecorded(log: seq<Entry>, r: nat, c: Ctx, ns: string, sources: seq<Secret>, cm: Data, secret: Data,
      d: Deployment)
    requires HasInputs(log, r, c, ns, sources, cm, secret) && Meets(d, HashOpts(c, cm, secret))
    ensures HasDeployment(log + [Entry(r, DeploymentHeld(Key(ns, DEPLOYMENT), d))], r, c, ns, sources, cm, secret, d)
  {
    RecordGrows(log, Entry(r, DeploymentHeld(Key(ns, DEPLOYMENT), d)), r, c, ns, DeploymentGet(sources, cm, secret));
    hide HasInputs, Meets, HashOpts;
  }

  lemma DeploymentGetRecorded(log: seq<Entry>, r: nat, p: Plane, c: Ctx, ns: string, sources: seq<Secret>, cm: Data,
      secret: Data, t: Tick)
    requires HasInputs(log, r, c, ns, sources, cm, secret)
    ensures var call := DeploymentGetCall(p, Key(ns, DEPLOYMENT), sources, cm, secret, HashOpts(c, cm, secret), t);
      CallRecorded(Logged(log, r, call.act), r, c, ns, call.go)
  {
    var k := Key(ns, DEPLOYMENT);
    var o := HashOpts(c, cm, secret);
    var was := if k in p.mcp.deployments then p.mcp.deployments[k] else NEW_DEPLOYMENT;
    MutateMeets(was, o, NEW_SERVICE);
    HeldRecorded(log, r, c, ns, sources, cm, secret, MutateDeployment(was, o));
    hide HasInputs, HasDeployment, Meets, HashOpts, Justified, MutateDeployment;
  }

  lemma InstalledRecorded(log: seq<Entry>, r: nat, c: Ctx, ns: string, sources: seq<Secret>, cm: Data, secret: Data,
      d: Deployment, svc: Service)
    requires HasDeployment(log, r, c, ns, sources, cm, secret, d) && ServiceMeets(svc)
    ensures var ev := Evidence(c.seen, c.config, ns, sources, cm, secret, d, svc);
      Justified(log + [Entry(r, ServiceHeld(Key(ns, SERVICE), svc))], r, ev)
  {
    RecordGrows(log, Entry(r, ServiceHeld(Key(ns, SERVICE), svc)), r, c, ns, ServiceGet(sources, cm, secret, d));
    hide Meets, ServiceMeets, ResolveNamespace;
  }

  lemma ServiceRecorded(log: seq<Entry>, r: nat, p: Plane, c: Ctx, ns: string, sources: seq<Secret>, cm: Data,
      secret: Data, d: Deployment, was: Service, svc: Service, t: Tick)
    requires HasDeployment(log, r, c, ns, sources, cm, secret, d) && ServiceMeets(svc)
    ensures var call := ServiceCreateCall(p, c, Key(ns, SERVICE), sources, cm, secret, d, svc, t);
      CallRecorded(Logged(log, r, call.act), r, c, ns, call.go)
    ensures var call := ServiceUpdateCall(p, c, Key(ns, SERVICE), sources, cm, secret, d, was, svc, t);
      CallRecorded(Logged(log, r, call.act), r, c, ns, call.go)
  {
    InstalledRecorded(log, r, c, ns, sources, cm, secret, d, svc);
    hide HasDeployment, ServiceMeets, Justified, MakeService, PutService;
  }

  lemma ServiceGetRecorded(log: seq<Entry>, r: nat, p: Plane, c: Ctx, ns: string, sources: seq<Secret>, cm: Data,
      secret: Data, d: Deployment, t: Tick)
    requires HasDeployment(log, r, c, ns, sources, cm, secret, d)
    ensures var call := ServiceGetCall(p, c, Key(ns, SERVICE), sources, cm, secret, d, t);
      CallRecorded(Logged(log, r, call.act), r, c, ns, call.go)
  {
    var k := Key(ns, SERVICE);
    var was := if k in p.mcp.services then p.mcp.services[k] else NEW_SERVICE;
    MutateMeets(NEW_DEPLOYMENT, OptsFor(c.obj.spec, c.config, ""), was);
    InstalledRecorded(log, r, c, ns, sources, cm, secret, d, MutateService(was));
    hide HasDeployment, ServiceMeets, Justified, MutateService, MutateDeployment, OptsFor;
  }

  lemma CallRecords(log: seq<Entry>, r: nat, p: Plane, platform: map<string, Secret>, c: Ctx, ns: string,
      d: DomainPoint, t: Tick)
    requires OnRecord(log, r, c, ns, d)
    ensures var call := DomainCall(p, platform, c, ns, d, t); CallRecorded(Logged(log, r, call.act), r, c, ns, call.go)
  {
    match d
    case NamespaceGet => NamespaceRecorded(log, r, p, c, ns, false, t);
    case NamespaceCreate => NamespaceRecorded(log, r, p, c, ns, true, t);
    case ConfigMapGet(sources) => PrerequisitesRecorded(log, r, p, c, ns, sources, None, t);
    case SecretGet(sources, found) => PrerequisitesRecorded(log, r, p, c, ns, sources, found, t);
    case DeploymentGet(sources, cm, secret) => DeploymentGetRecorded(log, r, p, c, ns, sources, cm, secret, t);
    case DeploymentCreate(sources, cm, secret, dep) =>
      DeploymentRecorded(log, r, p, c, ns, sources, cm, secret, dep, dep, t);
    case DeploymentUpdate(sources, cm, secret, was, dep) =>
      DeploymentRecorded(log, r, p, c, ns, sources, cm, secret, was, dep, t);
    case ServiceGet(sources, cm, secret, dep) => ServiceGetRecorded(log, r, p, c, ns, sources, cm, secret, dep, t);
    case ServiceCreate(sources, cm, secret, dep, svc) =>
      ServiceRecorded(log, r, p, c, ns, sources, cm, secret, dep, svc, svc, t);
    case ServiceUpdate(sources, cm, secret, dep, was, svc) =>
      ServiceRecorded(log, r, p, c, ns, sources, cm, secret, dep, was, svc, t);
    case _ => PullCallRecorded(log, r, p, platform, c, ns, d, t);
    hide NamespaceCall, ConfigMapCall, SecretCall, DeploymentGetCall, DeploymentCreateCall, DeploymentUpdateCall,
      ServiceGetCall, ServiceCreateCall, ServiceUpdateCall, CallRecorded, Logged, Meets, ServiceMeets, HashOpts,
      HasInputs, HasDeployment, AllPulled, HasRead;
  }

  // ---- runs

  /** No Ready is pending on a context whose status was not written by a completed install. */
  predicate NotReady(c: Ctx) {
    c.obj.status == c.base.status || c.obj.status.phase != PHASE_READY
  }

  ghost predicate ThreadInv(log: seq<Entry>, r: nat, th: Thread) {
    match th
    case Reread(c) => Started(log, r, c)
    case AddFinalizer(c) =>
      Started(log, r, c) && c.obj.spec == c.seen.spec && c.obj.generation == c.seen.generation && NotReady(c)
    case Accessing(c, deleting, _) => !deleting ==> HasRead(log, r, c) && NotReady(c)
    case Installing(c, ns, d) => OnRecord(log, r, c, ns, d) && c.obj.status.phase != PHASE_READY
    case Closing(c, _, evidence) =>
      && c.obj.status != c.base.status
      && (c.obj.status.phase == PHASE_READY ==>
            && evidence.Some? && Justified(log, r, evidence.value) && evidence.value.read == c.seen
            && c.obj.status.observedGeneration == c.seen.generation)
    case CleanedPatch(c, _) => c.obj.status != c.base.status
    case _ => true
  }

  /** A stored Ready status is on record. */
  predicate StoredOnRecord(s: Stores) {
    s.obj.Some? && s.obj.value.status.phase == PHASE_READY ==>
      exists e :: e in s.history.log && e.act.StatusPut? && e.act.uid == s.obj.value.uid
        && e.act.status == s.obj.value.status
  }

  ghost predicate RecordInv(w: World) {
    AllEarned(w.s.history.log) && StoredOnRecord(w.s) && ThreadInv(w.s.history.log, w.s.history.round, w.th)
  }

  lemma EarnedGrows(log: seq<Entry>, e: Entry)
    requires AllEarned(log) && Earned(log, e)
    ensures AllEarned(log + [e])
  {
    var log' := log + [e];
    forall j | 0 <= j < |log'| ensures Earned(log'[..j], log'[j]) {
      if j < |log| {
        assert log'[..j] == log[..j];
      } else {
        assert log'[..j] == log;
      }
    }
    hide Earned;
  }

  lemma StoredStays(s: Stores, s': Stores, act: Option<Act>)
    requires StoredOnRecord(s) && s'.history.log == Logged(s.history.log, s.history.round, act)
    requires s'.obj.Some? && s'.obj.value.status.phase == PHASE_READY ==>
      s.obj.Some? && s.obj.value.uid == s'.obj.value.uid && s.obj.value.status == s'.obj.value.status
    ensures StoredOnRecord(s')
  {
  }

  /** Appending anything but a status keeps the log justified. */
  lemma NoteKeeps(h: History, act: Option<Act>)
    requires AllEarned(h.log) && (act.Some? ==> !act.value.StatusPut?)
    ensures AllEarned(Logged(h.log, h.round, act))
  {
    if act.Some? {
      EarnedGrows(h.log, Entry(h.round, act.value));
    }
  }

  /** A status write of a thread that pends on no unjustified Ready keeps everything on record. */
  lemma PatchKeeps(s: Stores, c: Ctx, evidence: Option<Evidence>, fate: Fate)
    requires AllEarned(s.history.log) && StoredOnRecord(s) && c.obj.status != c.base.status
    requires StatusRuns.Unwritten(s.obj, c.base) && CoherentOrNone(c.base.status) && CoherentOrNone(c.obj.status)
    requires PatchLands(s.obj, c, fate) ==>
      Earned(s.history.log, Entry(s.history.round, StatusPut(s.obj.value.uid, c.obj.status, evidence)))
    ensures var s' := PatchStatus(s, c, evidence, fate); AllEarned(s'.history.log) && StoredOnRecord(s')
  {
    StatusRuns.PatchResult(s, c, evidence, fate);
    if PatchLands(s.obj, c, fate) {
      var e := Entry(s.history.round, StatusPut(s.obj.value.uid, c.obj.status, evidence));
      EarnedGrows(s.history.log, e);
      assert e in s.history.log + [e];
    }
    hide Earned, PatchLands, Coherent, StatusRuns.Unwritten, AllEarned;
  }

  lemma ClosingKeeps(s: Stores, c: Ctx, res: Result, evidence: Option<Evidence>, t: Tick)
    requires RecordInv(World(s, Closing(c, res, evidence))) && StatusRuns.Inv(World(s, Closing(c, res, evidence)))
    ensures RecordInv(StepClosing(s, c, res, evidence, t))
  {
    PatchKeeps(s, c, evidence, t.fate);
    hide Justified, PatchStatus, PatchLands, AllEarned, Coherent, StatusRuns.Stored, StatusRuns.LocalCtx;
  }

  lemma NoConfigKeeps(s: Stores, base: Obj, obj: Obj, t: Tick)
    requires RecordInv(World(s, NoConfigPatch(base, obj))) && StatusRuns.ThreadInv(s, NoConfigPatch(base, obj))
    ensures RecordInv(StepNoConfigPatch(s, base, obj, t))
  {
    PatchKeeps(s, Ctx(base, base, obj, NO_CONFIG), None, t.fate);
    hide PatchStatus, PatchLands, AllEarned, Coherent;
  }

  lemma CleanedPatchKeeps(s: Stores, c: Ctx, failed: bool, t: Tick)
    requires RecordInv(World(s, CleanedPatch(c, failed))) && StatusRuns.ThreadInv(s, CleanedPatch(c, failed))
    ensures RecordInv(StepCleanedPatch(s, c, failed, t))
  {
    PatchKeeps(s, c, None, t.fate);
    hide PatchStatus, PatchLands, AllEarned, Coherent;
  }

  lemma BeginWithoutConfigKeeps(s: Stores, o: Obj, now: int)
    requires AllEarned(s.history.log) && StoredOnRecord(s)
    ensures RecordInv(BeginWithoutConfig(s, o, now))
  {
    hide AllEarned, LastOf, SetCondition;
  }

  lemma BeginWithConfigKeeps(s: Stores, o: Obj, config: Config)
    requires AllEarned(s.history.log) && StoredOnRecord(s)
    ensures RecordInv(BeginWithConfig(s, o, config))
  {
    NoteKeeps(s.history, Some(Began(config)));
    StoredStays(s, s.(history := Note(s.history, Began(config))), Some(Began(config)));
    assert Note(s.history, Began(config)).log[|s.history.log|] == Entry(s.history.round, Began(config));
    hide AllEarned, StoredOnRecord;
  }

  lemma EndKeeps(s: Stores, last: Last)
    requires AllEarned(s.history.log) && StoredOnRecord(s)
    ensures RecordInv(World(s.(history := s.history.(last := last)), Idle))
  {
    hide AllEarned;
  }

  lemma BeginKeeps(s: Stores, t: Tick)
    requires RecordInv(World(s, Idle))
    ensures RecordInv(Begin(s, t))
  {
    var s' := s.(history := StartRound(s.history));
    StoredStays(s, s', None);
    if t.fate != Ok {
      EndKeeps(s', Errored);
    } else if s.obj.None? {
      EndKeeps(s', Gone);
    } else if s.cache.None? {
      BeginWithoutConfigKeeps(s', s.obj.value, t.now);
    } else {
      BeginWithConfigKeeps(s', s.obj.value, s.cache.value);
    }
    hide AllEarned, BeginWithConfig, BeginWithoutConfig, StoredOnRecord, RecordInv;
  }

  lemma NotedRead(h: History, c: Ctx, o: Obj)
    requires Started(h.log, h.round, c)
    ensures var log' := Note(h, ObjectRead(o)).log;
      && Started(log', h.round, c)
      && (c.seen == o && c.obj.spec == o.spec && c.obj.generation == o.generation ==> HasRead(log', h.round, c))
  {
    assert Note(h, ObjectRead(o)).log[|h.log|] == Entry(h.round, ObjectRead(o));
  }

  /** Noting a read keeps the records. */
  lemma ReadKeeps(s: Stores, o: Obj)
    requires AllEarned(s.history.log) && StoredOnRecord(s)
    requires s.obj.Some? && s.obj.value.uid == o.uid && s.obj.value.status == o.status
    ensures var s' := s.(obj := Some(o), history := Note(s.history, ObjectRead(o)));
      AllEarned(s'.history.log) && StoredOnRecord(s')
  {
    NoteKeeps(s.history, Some(ObjectRead(o)));
    StoredStays(s, s.(obj := Some(o), history := Note(s.history, ObjectRead(o))), Some(ObjectRead(o)));
    hide AllEarned;
  }

  /** An unsaved status read again is the snapshot's, or none. */
  lemma ReadNotReady(stored: Obj, c: Ctx)
    requires StatusRuns.Unwritten(Some(stored), c.base) && c.obj.status == stored.status
    ensures NotReady(c)
  {
  }

  lemma RereadKeeps(s: Stores, c: Ctx, t: Tick)
    requires RecordInv(World(s, Reread(c))) && StatusRuns.Unwritten(s.obj, c.base) && c.obj == c.seen == c.base
    ensures RecordInv(StepReread(s, c, t))
  {
    if t.fate == Ok && s.obj.Some? {
      var o := s.obj.value;
      var s' := s.(history := Note(s.history, ObjectRead(o)));
      ReadKeeps(s, o);
      assert s.(obj := Some(o), history := Note(s.history, ObjectRead(o))) == s';
      var c' := if FINALIZER in o.finalizers then c.(seen := o, obj := o)
                else c.(seen := o, obj := o.(finalizers := o.finalizers + {FINALIZER}));
      var next := if FINALIZER in o.finalizers then Accessing(c', false, Renew) else AddFinalizer(c');
      assert StepReread(s, c, t) == World(s', next);
      NotedRead(s.history, c', o);
      ReadNotReady(o, c');
    } else {
      assert StepReread(s, c, t).s == s.(history := StepReread(s, c, t).s.history);
      assert StepReread(s, c, t).s.history.log == s.history.log;
    }
    hide AllEarned, StoredOnRecord, Started, HasRead, StepReread, NotReady, Note, StatusRuns.Unwritten;
  }

  lemma RecreateKeeps(s: Stores, c: Ctx, t: Tick)
    requires RecordInv(World(s, Recreate(c))) && c.obj == c.base
    ensures RecordInv(StepRecreate(s, c, t))
  {
    hide AllEarned;
  }

  /** Closing without a pending Ready keeps the records. */
  lemma CloseKeeps(s: Stores, c: Ctx, res: Result)
    requires AllEarned(s.history.log) && StoredOnRecord(s) && NotReady(c)
    ensures RecordInv(Close(s, c, res, None))
  {
    hide AllEarned, LastOf;
  }

  lemma AddFinalizerKeeps(s: Stores, c: Ctx, t: Tick)
    requires RecordInv(World(s, AddFinalizer(c))) && c.obj.status == c.seen.status
    ensures RecordInv(StepAddFinalizer(s, c, t))
  {
    if s.obj == Some(c.seen) && !c.seen.deleting && Lands(t.fate) {
      var o := c.seen.(finalizers := c.obj.finalizers);
      var s' := s.(obj := Some(o));
      StoredStays(s, s', None);
      if t.fate == Ok {
        ReadKeeps(s, o);
        NotedRead(s.history, c.(seen := o, obj := o), o);
        assert StepAddFinalizer(s, c, t)
            == World(s'.(history := Note(s.history, ObjectRead(o))), Accessing(c.(seen := o, obj := o), false, Renew));
      } else {
        CloseKeeps(s', c, Fail);
      }
    } else {
      CloseKeeps(s, c, Fail);
    }
    hide AllEarned, StoredOnRecord, Started, HasRead, Note, Close;
  }

  lemma AccessToInstallKeeps(s: Stores, c: Ctx, go: AccessGo, now: int)
    requires AllEarned(s.history.log) && StoredOnRecord(s)
    requires HasRead(s.history.log, s.history.round, c) && NotReady(c)
    ensures RecordInv(AccessToInstall(s, c, go, now))
  {
    match go {
      case AccessFailed =>
        CloseKeeps(s, SetProgressing(c, "ClusterAccessError", "Failed to setup cluster access", now), Fail);
      case AccessPending(d) => CloseKeeps(s, SetProgressing(c, "Reconciling", "Setting up cluster access", now),
          Wait(d));
      case _ =>
    }
    hide AllEarned, ResolveNamespace, Close, StoredOnRecord, SetCondition;
  }

  lemma AccessToCleanupKeeps(s: Stores, c: Ctx, go: AccessGo, now: int)
    requires AllEarned(s.history.log) && StoredOnRecord(s)
    ensures RecordInv(AccessToCleanup(s, c, go, now))
  {
    hide AllEarned, ResolveNamespace, LastOf, SetTerminating;
  }

  lemma AccessKeeps(s: Stores, c: Ctx, deleting: bool, at: AccessPoint, t: Tick)
    requires RecordInv(World(s, Accessing(c, deleting, at)))
    ensures RecordInv(StepAccessing(s, c, deleting, at, t))
  {
    var s' := s.(requests := AccessEffect(s.requests, at, t));
    assert AllEarned(s'.history.log) && StoredOnRecord(s');
    if deleting {
      AccessToCleanupKeeps(s', c, AccessCall(s.requests, at, t), t.now);
    } else {
      AccessToInstallKeeps(s', c, AccessCall(s.requests, at, t), t.now);
    }
    hide AllEarned, StoredOnRecord, AccessCall, AccessEffect, AccessToInstall, AccessToCleanup, HasRead, NotReady;
  }

  lemma AfterCallKeeps(s: Stores, c: Ctx, ns: string, go: DomainGo, now: int)
    requires AllEarned(s.history.log) && StoredOnRecord(s) && c.obj.status.phase != PHASE_READY
    requires CallRecorded(s.history.log, s.history.round, c, ns, go)
    requires c.obj.generation == c.seen.generation
    ensures RecordInv(AfterCall(s, c, ns, go, now))
  {
    hide AllEarned, OnRecord, Justified, LastOf, SetCondition;
  }

  lemma CallKeeps(s: Stores, c: Ctx, ns: string, call: Call, now: int)
    requires AllEarned(s.history.log) && StoredOnRecord(s) && c.obj.status.phase != PHASE_READY
    requires CallRecorded(Logged(s.history.log, s.history.round, call.act), s.history.round, c, ns, call.go)
    requires call.act.Some? ==> !call.act.value.StatusPut?
    requires c.obj.generation == c.seen.generation
    ensures RecordInv(AfterCall(s.(plane := call.plane, history := NoteAll(s.history, call.act)), c, ns, call.go, now))
  {
    var s' := s.(plane := call.plane, history := NoteAll(s.history, call.act));
    assert s'.history.log == Logged(s.history.log, s.history.round, call.act) && s'.history.round == s.history.round;
    NoteKeeps(s.history, call.act);
    StoredStays(s, s', call.act);
    AfterCallKeeps(s', c, ns, call.go, now);
    hide AllEarned, CallRecorded, AfterCall, StoredOnRecord, Logged, NoteAll, RecordInv;
  }

  lemma CallPutsNoStatus(p: Plane, platform: map<string, Secret>, c: Ctx, ns: string, d: DomainPoint, t: Tick)
    ensures var call := DomainCall(p, platform, c, ns, d, t); call.act.Some? ==> !call.act.value.StatusPut?
  {
    CallActs(p, platform, c, ns, d, t);
    hide DomainCall;
  }

  lemma InstallStep(s: Stores, c: Ctx, ns: string, d: DomainPoint, t: Tick)
    requires AllEarned(s.history.log) && StoredOnRecord(s) && c.obj.status.phase != PHASE_READY
    requires OnRecord(s.history.log, s.history.round, c, ns, d)
    requires c.obj.generation == c.seen.generation
    ensures RecordInv(StepInstalling(s, c, ns, d, t))
  {
    hide *;
    CallRecords(s.history.log, s.history.round, s.plane, s.platform, c, ns, d, t);
    CallPutsNoStatus(s.plane, s.platform, c, ns, d, t);
    CallKeeps(s, c, ns, DomainCall(s.plane, s.platform, c, ns, d, t), t.now);
    InstallIsCall(s, c, ns, d, t);
  }

  lemma InstallIsCall(s: Stores, c: Ctx, ns: string, d: DomainPoint, t: Tick)
    ensures var call := DomainCall(s.plane, s.platform, c, ns, d, t);
      StepInstalling(s, c, ns, d, t)
      == AfterCall(s.(plane := call.plane, history := NoteAll(s.history, call.act)), c, ns, call.go, t.now)
  {
    hide DomainCall, AfterCall, NoteAll;
  }

  lemma InstallKeeps(s: Stores, c: Ctx, ns: string, d: DomainPoint, t: Tick)
    requires RecordInv(World(s, Installing(c, ns, d))) && c.obj.generation == c.seen.generation
    ensures RecordInv(StepInstalling(s, c, ns, d, t))
  {
    InstallStep(s, c, ns, d, t);
    hide StepInstalling, AllEarned, OnRecord, StoredOnRecord;
  }

  /** What a domain call reports is true of the platform it read and of the plane it leaves. */
  predicate ActTrue(p: Plane, platform: map<string, Secret>, act: Act) {
    match act
    case NamespaceHeld(ns) => ns in p.mcp.namespaces
    case SourceRead(name, src) => Lookup(platform, name) == Some(src)
    case PullHeld(k, src) => k in p.mcp.secrets && p.mcp.secrets[k].data == src.data
    case ConfigMapRead(k, data) => Lookup(p.mcp.configMaps, k) == Some(data)
    case SecretRead(k, data) => k in p.mcp.secrets && p.mcp.secrets[k].data == data
    case DeploymentHeld(k, d) => Lookup(p.mcp.deployments, k) == Some(d)
    case ServiceHeld(k, svc) => Lookup(p.mcp.services, k) == Some(svc)
    case _ => false
  }

  lemma CallActs(p: Plane, platform: map<string, Secret>, c: Ctx, ns: string, d: DomainPoint, t: Tick)
    ensures var call := DomainCall(p, platform, c, ns, d, t);
      call.act.Some? ==> ActTrue(call.plane, platform, call.act.value)
  {
    hide HashOpts, PullNext, MutateDeployment, MutateService, Admissible;
  }

  lemma CleaningKeeps(s: Stores, c: Ctx, ns: string, at: CleanupPoint, t: Tick)
    requires RecordInv(World(s, Cleaning(c, ns, at)))
    ensures RecordInv(StepCleaning(s, c, ns, at, t))
  {
    hide AllEarned, Cleanup;
  }

  lemma ReleaseKeeps(s: Stores, th: Thread, t: Tick)
    requires RecordInv(World(s, th))
    requires th.CheckMcpRequest? || th.CheckWorkloadRequest? || th.Releasing? || th.DropFinalizer?
    ensures RecordInv(StepCtl(s, th, t))
  {
    hide AllEarned;
  }

  lemma EnvKeeps(w: World, e: EnvEvent)
    requires RecordInv(w) && StatusRuns.Stored(w.s)
    ensures RecordInv(Step(w, Env(e)))
  {
    Observed.EventKeepsStatus(w.s, e);
    StoredStays(w.s, StepEnv(w.s, e), None);
    hide AllEarned, ObjectEvent, PlaneEvent, RequestsEvent, StoredOnRecord;
  }

  lemma StepKeeps(w: World, e: Event)
    requires RecordInv(w) && StatusRuns.Inv(w)
    ensures RecordInv(Step(w, e))
  {
    if e.Env? {
      EnvKeeps(w, e.e);
    } else {
      match w.th
      case Idle => BeginKeeps(w.s, e.t);
      case NoConfigPatch(base, obj) => NoConfigKeeps(w.s, base, obj, e.t);
      case Reread(c) => RereadKeeps(w.s, c, e.t);
      case Recreate(c) => RecreateKeeps(w.s, c, e.t);
      case AddFinalizer(c) => AddFinalizerKeeps(w.s, c, e.t);
      case Accessing(c, deleting, at) => AccessKeeps(w.s, c, deleting, at, e.t);
      case Installing(c, ns, d) => InstallKeeps(w.s, c, ns, d, e.t);
      case Closing(c, res, evidence) => ClosingKeeps(w.s, c, res, evidence, e.t);
      case Cleaning(c, ns, at) => CleaningKeeps(w.s, c, ns, at, e.t);
      case CleanedPatch(c, failed) => CleanedPatchKeeps(w.s, c, failed, e.t);
      case _ => ReleaseKeeps(w.s, w.th, e.t);
    }
    hide RecordInv, Begin, StepNoConfigPatch, StepReread, StepRecreate, StepAddFinalizer, StepAccessing,
      StepInstalling, StepClosing, StepCheckMcpRequest, StepCheckWorkloadRequest, StepCleaning, StepCleanedPatch,
      StepReleasing, StepDropFinalizer, StepEnv, StatusRuns.LocalCtx, StatusRuns.NotAhead, StatusRuns.Stored;
  }

  lemma {:induction false} RunKeeps(w: World, es: seq<Event>)
    requires RecordInv(w) && StatusRuns.Inv(w)
    ensures RecordInv(Run(w, es))
    decreases |es|
  {
    hide RecordInv, StatusRuns.Inv, Step;
    if es != [] {
      StepKeeps(w, es[0]);
      StatusRuns.StepKeeps(w, es[0]);
      RunKeeps(Step(w, es[0]), es[1..]);
    }
  }

  /** In every run whatsoever: whenever Ready is stored with observedGeneration g, an entry of the log stored it, and
      before that entry, in the same reconcile, the object was read at generation g, every listed pull secret was
      read from the platform and its data put in the namespace resolved, and that namespace, the user's ConfigMap and
      Secret, a Deployment that is the one this read, the loaded config and the digest of those two ask for, and the
      Service were all seen in place. */
  lemma ReadyIsEarned(w: World, es: seq<Event>)
    requires Initial(w)
    ensures var s := Run(w, es).s;
      && AllEarned(s.history.log)
      && (s.obj.Some? && s.obj.value.status.phase == PHASE_READY ==>
            exists j :: 0 <= j < |s.history.log| && s.history.log[j].act.StatusPut?
              && s.history.log[j].act.uid == s.obj.value.uid && s.history.log[j].act.status == s.obj.value.status
              && Earned(s.history.log[..j], s.history.log[j]))
  {
    RunKeeps(w, es);
    hide Run, Earned;
  }

  /** The log only ever gains entries that are true of the system at that moment. */
  predicate EntryTrue(s: Stores, s': Stores, act: Act) {
    match act
    case Began(config) => s.cache == Some(config)
    case ObjectRead(o) => s'.obj == Some(o)
    case StatusPut(uid, status, _) => s'.obj.Some? && s'.obj.value.uid == uid && s'.obj.value.status == status
    case _ => ActTrue(s'.plane, s'.platform, act)
  }

  lemma InstallEntry(s: Stores, c: Ctx, ns: string, d: DomainPoint, t: Tick)
    ensures var call := DomainCall(s.plane, s.platform, c, ns, d, t);
      var s' := StepInstalling(s, c, ns, d, t).s;
      && s'.history.log == Logged(s.history.log, s.history.round, call.act)
      && (call.act.Some? ==> EntryTrue(s, s', call.act.value))
  {
    CallActs(s.plane, s.platform, c, ns, d, t);
    hide DomainCall, LastOf;
  }

  /** The log is as it was, or has one more entry, which is true. */
  predicate OneTrueEntry(s: Stores, s': Stores) {
    s'.history.log == s.history.log
    || (|s'.history.log| == |s.history.log| + 1 && s.history.log < s'.history.log
        && EntryTrue(s, s', s'.history.log[|s.history.log|].act))
  }

  lemma PatchEntry(s: Stores, th: Thread, t: Tick)
    requires th.NoConfigPatch? || th.Closing? || th.CleanedPatch?
    ensures OneTrueEntry(s, StepCtl(s, th, t).s)
  {
    hide LastOf, ValidStatus, Merge;
  }

  lemma OtherEntry(s: Stores, th: Thread, t: Tick)
    requires !th.NoConfigPatch? && !th.Closing? && !th.CleanedPatch? && !th.Installing?
    ensures OneTrueEntry(s, StepCtl(s, th, t).s)
  {
    hide Cleanup, AccessCall, AccessEffect, ResolveNamespace, LastOf, ActTrue;
  }

  /** Every entry of every log was true of the system when it was written. */
  lemma EntriesAreTrue(w: World, e: Event)
    ensures OneTrueEntry(w.s, Step(w, e).s)
  {
    if e.Ctl? {
      match w.th
      case Installing(c, ns, d) => InstallEntry(w.s, c, ns, d, e.t);
      case NoConfigPatch(_, _) => PatchEntry(w.s, w.th, e.t);
      case Closing(_, _, _) => PatchEntry(w.s, w.th, e.t);
      case CleanedPatch(_, _) => PatchEntry(w.s, w.th, e.t);
      case _ => OtherEntry(w.s, w.th, e.t);
    }
    hide StepCtl, ObjectEvent, PlaneEvent, RequestsEvent, EntryTrue;
  }
}
