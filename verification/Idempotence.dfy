/** Reconciling a service that is Ready again, with nothing changed: the control plane, the finalizers and the status
    stay as they are, except for the time of the condition's last change. */
module Idempotence {
  import opened Kube
  import opened Api
  import opened StatusWrites
  import opened Desired
  import opened Machine
  import opened Converge
  import opened Deletion
  import opened FaultFree

  // ---- the control plane

  /** Everything the install is there for is there, as it wants it. */
  ghost predicate InPlace(m: Mcp, i: Inputs) {
    Installable(m, i) && AllSynced(m, i) && m == Target(m, i)
  }

  lemma SyncedSame(m: Mcp, m': Mcp, i: Inputs)
    requires AllSynced(m, i) && m'.secrets == m.secrets && m'.namespaces == m.namespaces
    ensures AllSynced(m', i)
  {
  }

  lemma LastCallSynced(p: Plane, c: Ctx, i: Inputs, d: DomainPoint, t: Tick)
    requires Progress(p.mcp, i, d)
    ensures var call := DomainCall(p, i.platform, c, Ns(i), d, t); call.go.Installed? ==> AllSynced(call.plane.mcp, i)
  {
    var call := DomainCall(p, i.platform, c, Ns(i), d, t);
    OnlyService(p, i.platform, c, Ns(i), d, t);
    if call.go.Installed? {
      SyncedSame(p.mcp, call.plane.mcp, i);
    }
    hide AllSynced, DomainCall, Opts;
  }

  /** Only a call on the Service completes the install. */
  lemma OnlyService(p: Plane, platform: map<string, Secret>, c: Ctx, ns: string, d: DomainPoint, t: Tick)
    ensures var call := DomainCall(p, platform, c, ns, d, t);
      call.go.Installed? ==>
        && (d.ServiceGet? || d.ServiceCreate? || d.ServiceUpdate?)
        && call.plane.mcp.secrets == p.mcp.secrets && call.plane.mcp.namespaces == p.mcp.namespaces
        && call.plane.mcp.configMaps == p.mcp.configMaps
  {
    hide MutateService, MutateDeployment, Admissible, HashOpts, SyncSecret, PullKey, PullNext, Missing;
  }

  /** What the call leaves behind with which a pass gets through is in place. */
  lemma CallInPlace(p: Plane, c: Ctx, i: Inputs, d: DomainPoint, t: Tick)
    requires Uses(c, i) && Progress(p.mcp, i, d) && Installable(p.mcp, i) && Fresh(p.mcp, c, Ns(i), d) && t.fate == Ok
    ensures var call := DomainCall(p, i.platform, c, Ns(i), d, t); call.go.Installed? ==> InPlace(call.plane.mcp, i)
  {
    CallAdvances(p, c, i, d, t);
    CallThrough(p, c, i, d, t);
    LastCallSynced(p, c, i, d, t);
    hide DomainCall, Target, Progress, Installable, AllSynced, Fresh;
  }

  lemma CompletesInPlace(w: World, e: Event, i: Inputs)
    requires Smooth(w, i) && Completes(w, e) && e.t.fate == Ok
    ensures InPlace(Step(w, e).s.plane.mcp, i)
  {
    var c, call := w.th.c, DomainCall(w.s.plane, w.s.platform, w.th.c, w.th.ns, w.th.d, e.t);
    CallInPlace(w.s.plane, c, i, w.th.d, e.t);
    AfterCallPlane(w.s.(plane := call.plane, history := NoteAll(w.s.history, call.act)), c, w.th.ns, call.go, e.t.now);
    hide DomainCall, InPlace, Progress, Installable, AfterCall, Fresh, NoteAll;
  }

  lemma WorkloadInPlace(m: Mcp, i: Inputs)
    requires InPlace(m, i)
    ensures var o := Opts(i, m.configMaps[ConfigMapKey(i)], m.secrets[SecretKey(i)].data);
      && DeploymentKey(i) in m.deployments
      && MutateDeployment(m.deployments[DeploymentKey(i)], o) == m.deployments[DeploymentKey(i)]
      && ServiceKey(i) in m.services && MutateService(m.services[ServiceKey(i)]) == m.services[ServiceKey(i)]
  {
    PreparedFixed(m, i);
    assert WithWorkload(m, i) == m;
    assert DeploymentKey(i) in WithWorkload(m, i).deployments && ServiceKey(i) in WithWorkload(m, i).services;
    hide AllSynced, MutateDeployment, MutateService, Opts;
  }

  /** A call of an undisturbed pass over a plane in place writes nothing new. */
  lemma CallKeepsPlace(p: Plane, c: Ctx, i: Inputs, d: DomainPoint, t: Tick)
    requires InPlace(p.mcp, i) && Uses(c, i) && Progress(p.mcp, i, d) && Fresh(p.mcp, c, Ns(i), d)
    ensures DomainCall(p, i.platform, c, Ns(i), d, t).plane == p
  {
    WorkloadInPlace(p.mcp, i);
    if d.PullCreate? || d.PullUpdate? {
      SyncedAt(p.mcp, i, |d.sources|);
    }
    match d {
      case PullUpdate(sources, src, dst) =>
        assert p.mcp.secrets[PullKey(c, Ns(i), sources) := dst] == p.mcp.secrets;
      case DeploymentUpdate(_, _, _, was, dep) =>
        assert p.mcp.deployments[DeploymentKey(i) := was] == p.mcp.deployments;
      case ServiceUpdate(_, _, _, _, was, svc) =>
        assert p.mcp.services[ServiceKey(i) := was] == p.mcp.services;
      case _ =>
    }
    hide Target, Opts, HashOpts, MutateDeployment, MutateService, Admissible, Synced, PullNext;
  }

  lemma SyncedAt(m: Mcp, i: Inputs, j: nat)
    requires AllSynced(m, i) && j < |i.config.pullSecrets|
    ensures var name := i.config.pullSecrets[j];
      name in i.platform && Key(Ns(i), name) in m.secrets && m.secrets[Key(Ns(i), name)].data == i.platform[name].data
  {
  }

  // ---- the status

  /** A status that says Ready for this generation. */
  predicate ReadyAt(st: Status, gen: nat) {
    && st.observedGeneration == gen && st.phase == PHASE_READY
    && var c := Find(st.conditions, READY);
    && c.Some? && c.value.(lastTransition := 0)
        == Condition(READY, True, gen, "ReconcileSuccess", "Domain Service is ready", 0)
  }

  /** The status in the middle of a pass over `st`. */
  ghost predicate Midway(st: Status, gen: nat, st': Status) {
    exists now: int :: st' == Progressing(st, gen, "Reconciling", "Reconcile in progress", now)
  }

  lemma SameTwice(a: Status, b: Status, c: Status)
    requires SameButTime(a, b) && SameButTime(b, c)
    ensures SameButTime(a, c)
  {
  }

  lemma ReadyAgain(st: Status, gen: nat, mid: Status, now: int)
    requires ReadyAt(st, gen) && Midway(st, gen, mid)
    ensures var st' := Ready(mid, gen, now); ReadyAt(st', gen) && SameButTime(st, st')
  {
    var t0: int :| mid == Progressing(st, gen, "Reconciling", "Reconcile in progress", t0);
    ReadyPassIdempotent(st, gen, "Reconciling", "Reconcile in progress", t0, now);
    hide SetCondition, SameButTime;
  }

  // ---- the pass

  /** The stored object is `o`, up to that time stamp. */
  predicate StoredAs(s: Stores, o: Obj) {
    && s.obj.Some? && s.obj.value == o.(status := s.obj.value.status)
    && ReadyAt(s.obj.value.status, o.generation) && SameButTime(o.status, s.obj.value.status)
  }

  /** How far the live status has moved from the stored one. */
  ghost predicate Repeats(th: Thread, gen: nat) {
    match th
    case Idle => true
    case Reread(c) => true
    case Accessing(c, _, _) =>
      c.base.status == c.seen.status && c.obj.status == c.seen.status && c.obj.generation == gen
    case Installing(c, _, _) =>
      c.base.status == c.seen.status && c.obj.generation == gen && Midway(c.seen.status, gen, c.obj.status)
    case Closing(c, _, _) =>
      c.base.status == c.seen.status && ReadyAt(c.obj.status, gen) && SameButTime(c.seen.status, c.obj.status)
    case _ => false
  }

  ghost predicate Repeating(w: World, i: Inputs, m: Mcp, o: Obj) {
    && Smooth(w, i) && w.s.plane.mcp == m && InPlace(m, i)
    && FINALIZER in o.finalizers && o.generation >= 1
    && StoredAs(w.s, o) && Repeats(w.th, o.generation)
  }

  lemma AfterCallRepeats(s: Stores, c: Ctx, i: Inputs, go: DomainGo, now: int, o: Obj)
    requires StoredAs(s, o) && s.obj == Some(c.seen) && Repeats(Installing(c, Ns(i), NamespaceGet), o.generation)
    requires go.Installed? || go.Continue?
    ensures var w := AfterCall(s, c, Ns(i), go, now); StoredAs(w.s, o) && Repeats(w.th, o.generation)
  {
    if go.Installed? {
      ReadyAgain(c.seen.status, o.generation, c.obj.status, now);
      CloseRepeats(s, SetReady(c, now), Some(go.evidence), o);
    }
    hide Ready, SameButTime, Midway, ReadyAt, Close, StoredAs;
  }

  lemma CloseRepeats(s: Stores, c: Ctx, evidence: Option<Evidence>, o: Obj)
    requires StoredAs(s, o) && c.base.status == c.seen.status && s.obj == Some(c.seen)
    requires ReadyAt(c.obj.status, o.generation) && SameButTime(c.seen.status, c.obj.status)
    ensures var w := Close(s, c, Wait(0), evidence); StoredAs(w.s, o) && Repeats(w.th, o.generation)
  {
    hide SameButTime, ReadyAt, LastOf;
  }

  lemma InstallRepeats(s: Stores, c: Ctx, ns: string, d: DomainPoint, t: Tick, i: Inputs, m: Mcp, o: Obj)
    requires Repeating(World(s, Installing(c, ns, d)), i, m, o) && t.fate == Ok
    ensures Repeating(StepInstalling(s, c, ns, d, t), i, m, o)
  {
    InstallSmooth(s, c, ns, d, t, i);
    CallThrough(s.plane, c, i, d, t);
    CallKeepsPlace(s.plane, c, i, d, t);
    var call := DomainCall(s.plane, s.platform, c, ns, d, t);
    var s' := s.(plane := call.plane, history := NoteAll(s.history, call.act));
    AfterCallRepeats(s', c, i, call.go, t.now, o);
    AfterCallPlane(s', c, ns, call.go, t.now);
    hide DomainCall, AfterCall, InPlace, Progress, Fresh, Installable, ReadyAt, SameButTime, Midway, Smooth, NoteAll,
      Target;
  }

  lemma AfterCallPlane(s: Stores, c: Ctx, ns: string, go: DomainGo, now: int)
    ensures AfterCall(s, c, ns, go, now).s.plane == s.plane
  {
  }

  lemma AccessRepeats(s: Stores, c: Ctx, deleting: bool, at: AccessPoint, t: Tick, i: Inputs, m: Mcp, o: Obj)
    requires Repeating(World(s, Accessing(c, deleting, at)), i, m, o)
      && !Disturbs(World(s, Accessing(c, deleting, at)), Ctl(t))
    ensures Repeating(StepAccessing(s, c, deleting, at, t), i, m, o)
  {
    AccessSmooth(s, c, deleting, at, t, i);
    AccessMoves(s, c, at, t);
    hide InPlace, ReadyAt, SameButTime, Installable, OnCourse, StepAccessing;
  }

  /** Undisturbed, with access in order, clusters() goes on to the install. */
  lemma AccessMoves(s: Stores, c: Ctx, at: AccessPoint, t: Tick)
    requires !Disturbs(World(s, Accessing(c, false, at)), Ctl(t)) && Abreast(s, Accessing(c, false, at))
    ensures var w := StepAccessing(s, c, false, at, t);
      && w.s.obj == s.obj && w.s.plane == s.plane
      && (w.th.Accessing? ==> w.th.c == c && !w.th.deleting)
      && (w.th.Installing? ==> w.th.c == c.(obj := w.th.c.obj) && w.th.c.obj.generation == c.obj.generation
                               && Midway(c.obj.status, c.obj.generation, w.th.c.obj.status))
      && (w.th.Accessing? || w.th.Installing?)
  {
    assert Midway(c.obj.status, c.obj.generation,
        SetProgressing(c, "Reconciling", "Reconcile in progress", t.now).obj.status);
    hide ResolveNamespace, MayRenew, SetCondition, Midway;
  }

  /** A Ready status over the one stored gets stored whole, or not at all. */
  lemma ReadyStored(s: Stores, c: Ctx, evidence: Option<Evidence>, gen: nat)
    requires s.obj == Some(c.seen) && c.base.status == c.seen.status && ReadyAt(c.obj.status, gen) && gen >= 1
    ensures PatchStatus(s, c, evidence, Ok).obj == Some(c.seen.(status := c.obj.status))
    ensures PatchStatus(s, c, evidence, Ok).plane == s.plane
  {
    assert Merge(c.seen.status, c.base.status, c.obj.status) == c.obj.status && ValidStatus(c.obj.status);
    hide Merge;
  }

  lemma ClosingRepeats(s: Stores, c: Ctx, res: Result, evidence: Option<Evidence>, t: Tick, i: Inputs, m: Mcp, o: Obj)
    requires Repeating(World(s, Closing(c, res, evidence)), i, m, o) && t.fate == Ok
    ensures Repeating(StepClosing(s, c, res, evidence, t), i, m, o)
  {
    OtherSmooth(s, Closing(c, res, evidence), t, i);
    SmoothClosing(s, c, res, evidence, i);
    SameTwice(o.status, c.seen.status, c.obj.status);
    ReadyStored(s, c, evidence, o.generation);
    hide InPlace, SameButTime, Smooth, ReadyAt, PatchStatus, LastOf;
  }

  lemma SmoothClosing(s: Stores, c: Ctx, res: Result, evidence: Option<Evidence>, i: Inputs)
    requires Smooth(World(s, Closing(c, res, evidence)), i)
    ensures s.obj == Some(c.seen)
  {
  }

  lemma StartRepeats(s: Stores, th: Thread, t: Tick, i: Inputs, m: Mcp, o: Obj)
    requires Repeating(World(s, th), i, m, o) && !Disturbs(World(s, th), Ctl(t)) && (th.Idle? || th.Reread?)
    ensures Repeating(StepCtl(s, th, t), i, m, o)
  {
    OtherSmooth(s, th, t, i);
    hide InPlace, SameButTime, ReadyAt, Installable, OnCourse, LastOf;
  }

  lemma StepRepeats(w: World, e: Event, i: Inputs, m: Mcp, o: Obj)
    requires Repeating(w, i, m, o) && e.Ctl? && !Disturbs(w, e)
    ensures Repeating(Step(w, e), i, m, o)
  {
    var t := e.t;
    match w.th {
      case Installing(c, ns, d) => InstallRepeats(w.s, c, ns, d, t, i, m, o);
      case Accessing(c, deleting, at) => AccessRepeats(w.s, c, deleting, at, t, i, m, o);
      case Closing(c, res, evidence) => ClosingRepeats(w.s, c, res, evidence, t, i, m, o);
      case _ => StartRepeats(w.s, w.th, t, i, m, o);
    }
    hide StepInstalling, StepAccessing, StepClosing, InPlace, Smooth, StoredAs;
  }

  lemma {:induction false} RunRepeats(w: World, es: seq<Event>, i: Inputs, m: Mcp, o: Obj)
    requires Repeating(w, i, m, o) && Undisturbed(w, es)
    ensures Repeating(Run(w, es), i, m, o)
    decreases |es|
  {
    hide Repeating, Step;
    if es != [] {
      StepRepeats(w, es[0], i, m, o);
      RunRepeats(Step(w, es[0]), es[1..], i, m, o);
    }
  }

  /** Any number of undisturbed reconciles of a service that is Ready and in place, its inputs unchanged: the control
      plane is the same throughout, and so is the object, finalizers and status included, but for the time its Ready
      condition last changed. */
  lemma SecondPassChangesNothing(w: World, es: seq<Event>, i: Inputs)
    requires Steady(w, i) && w.th.Idle? && InPlace(w.s.plane.mcp, i) && Undisturbed(w, es)
    requires var o := w.s.obj.value; FINALIZER in o.finalizers && o.generation >= 1 && ReadyAt(o.status, o.generation)
    ensures var s, s' := w.s, Run(w, es).s;
      && s'.plane.mcp == s.plane.mcp && s'.obj.Some?
      && s'.obj.value == s.obj.value.(status := s'.obj.value.status)
      && SameButTime(s.obj.value.status, s'.obj.value.status)
      && ReadyAt(s'.obj.value.status, s.obj.value.generation)
  {
    RunRepeats(w, es, i, w.s.plane.mcp, w.s.obj.value);
    hide Run, InPlace, ReadyAt;
  }
}
