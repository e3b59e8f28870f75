/** A pass nothing interferes with: it gets through, and where everything is in place already it changes
    nothing but a time stamp. */
module FaultFree {
  import opened Kube
  import opened Api
  import opened StatusWrites
  import opened Desired
  import opened Machine
  import opened Frame
  import opened Converge
  import opened Deletion
  import Guard

  /** What an install needs from others: the user's ConfigMap and Secret, the platform's pull secrets, and no Deployment
      of somebody else with a selector of its own under the well-known name. */
  predicate Installable(m: Mcp, i: Inputs) {
    && ConfigMapKey(i) in m.configMaps && SecretKey(i) in m.secrets
    && (forall n | n in i.config.pullSecrets :: n in i.platform)
    && (DeploymentKey(i) in m.deployments ==> SelectorFits(m.deployments[DeploymentKey(i)]))
  }

  predicate SelectorFits(d: Deployment) {
    d.selector.None? || SubMap(d.selector.value, OWN_LABELS)
  }

  /** What the thread has in hand is still what is stored. */
  predicate Fresh(m: Mcp, c: Ctx, ns: string, d: DomainPoint) {
    match d
    case NamespaceCreate => ns !in m.namespaces
    case PullCreate(sources, _) => PullKey(c, ns, sources) !in m.secrets
    case PullUpdate(sources, _, dst) => Lookup(m.secrets, PullKey(c, ns, sources)) == Some(dst)
    case DeploymentCreate(_, _, _, dep) => Key(ns, DEPLOYMENT) !in m.deployments && Admissible(dep)
    case DeploymentUpdate(_, _, _, was, dep) =>
      Lookup(m.deployments, Key(ns, DEPLOYMENT)) == Some(was) && Admissible(dep)
    case ServiceCreate(_, _, _, _, _) => Key(ns, SERVICE) !in m.services
    case ServiceUpdate(_, _, _, _, was, _) => Lookup(m.services, Key(ns, SERVICE)) == Some(was)
    case _ => true
  }

  /** The call goes through: it neither fails nor has to wait. */
  predicate Through(m: Mcp, c: Ctx, i: Inputs, go: DomainGo) {
    && Installable(m, i)
    && (go.Installed? || (go.Continue? && Fresh(m, c, Ns(i), go.d)))
  }

  lemma NamespaceThrough(p: Plane, c: Ctx, i: Inputs, creating: bool, t: Tick)
    requires Installable(p.mcp, i) && t.fate == Ok && (creating ==> Ns(i) !in p.mcp.namespaces)
    ensures var call := NamespaceCall(p, c, Ns(i), creating, t); Through(call.plane.mcp, c, i, call.go)
  {
    hide SelectorFits, Ns;
  }

  lemma PullThrough(p: Plane, c: Ctx, i: Inputs, d: DomainPoint, t: Tick)
    requires Installable(p.mcp, i) && Uses(c, i) && t.fate == Ok && Fresh(p.mcp, c, Ns(i), d)
    requires Progress(p.mcp, i, d) && (d.PullSource? || d.PullGet? || d.PullCreate? || d.PullUpdate?)
    ensures var call := DomainCall(p, i.platform, c, Ns(i), d, t); Through(call.plane.mcp, c, i, call.go)
  {
    hide SelectorFits, Ns, Synced, SyncSecret;
  }

  lemma PrerequisitesThrough(p: Plane, c: Ctx, i: Inputs, d: DomainPoint, t: Tick)
    requires Installable(p.mcp, i) && t.fate == Ok && Progress(p.mcp, i, d) && (d.ConfigMapGet? || d.SecretGet?)
    ensures var call := DomainCall(p, i.platform, c, Ns(i), d, t); Through(call.plane.mcp, c, i, call.go)
  {
    hide SelectorFits, Ns, Synced;
  }

  lemma DeploymentThrough(p: Plane, c: Ctx, i: Inputs, sources: seq<Secret>, cm: Data, secret: Data, was: Deployment,
      d: Deployment, t: Tick)
    requires Installable(p.mcp, i) && t.fate == Ok && Inspected(p.mcp, i, cm, secret)
    ensures var call := DeploymentGetCall(p, DeploymentKey(i), sources, cm, secret, Opts(i, cm, secret), t);
      Through(call.plane.mcp, c, i, call.go)
    ensures DeploymentKey(i) !in p.mcp.deployments && Admissible(d) && SelectorFits(d) ==>
      var call := DeploymentCreateCall(p, DeploymentKey(i), sources, cm, secret, d, t);
        Through(call.plane.mcp, c, i, call.go)
    ensures Lookup(p.mcp.deployments, DeploymentKey(i)) == Some(was) && Admissible(d) && SelectorFits(d) ==>
      var call := DeploymentUpdateCall(p, DeploymentKey(i), sources, cm, secret, was, d, t);
        Through(call.plane.mcp, c, i, call.go)
  {
    var o := Opts(i, cm, secret);
    UpdateAdmitted(NEW_DEPLOYMENT, o);
    if DeploymentKey(i) in p.mcp.deployments {
      UpdateAdmitted(p.mcp.deployments[DeploymentKey(i)], o);
    }
    hide Opts, MutateDeployment, Admissible, SelectorFits, Ns, Synced;
  }

  lemma AdmittedFits(d: Deployment, o: DeploymentOpts)
    requires Admissible(MutateDeployment(d, o))
    ensures SelectorFits(MutateDeployment(d, o))
  {
  }

  lemma ServiceThrough(p: Plane, c: Ctx, i: Inputs, d: DomainPoint, t: Tick)
    requires Installable(p.mcp, i) && t.fate == Ok && Fresh(p.mcp, c, Ns(i), d) && Progress(p.mcp, i, d)
    requires d.ServiceGet? || d.ServiceCreate? || d.ServiceUpdate?
    ensures var call := DomainCall(p, i.platform, c, Ns(i), d, t); Through(call.plane.mcp, c, i, call.go)
  {
    hide SelectorFits, Synced, MutateService, MutateDeployment, Opts;
  }

  lemma CallThrough(p: Plane, c: Ctx, i: Inputs, d: DomainPoint, t: Tick)
    requires Installable(p.mcp, i) && Uses(c, i) && t.fate == Ok && Fresh(p.mcp, c, Ns(i), d) && Progress(p.mcp, i, d)
    ensures var call := DomainCall(p, i.platform, c, Ns(i), d, t); Through(call.plane.mcp, c, i, call.go)
  {
    match d {
      case NamespaceGet => NamespaceThrough(p, c, i, false, t);
      case NamespaceCreate => NamespaceThrough(p, c, i, true, t);
      case ConfigMapGet(_) => PrerequisitesThrough(p, c, i, d, t);
      case SecretGet(_, _) => PrerequisitesThrough(p, c, i, d, t);
      case DeploymentGet(sources, cm, secret) =>
        DeploymentThrough(p, c, i, sources, cm, secret, NEW_DEPLOYMENT, NEW_DEPLOYMENT, t);
      case DeploymentCreate(sources, cm, secret, dep) =>
        AdmittedFits(NEW_DEPLOYMENT, Opts(i, cm, secret));
        DeploymentThrough(p, c, i, sources, cm, secret, dep, dep, t);
      case DeploymentUpdate(sources, cm, secret, was, dep) =>
        AdmittedFits(was, Opts(i, cm, secret));
        DeploymentThrough(p, c, i, sources, cm, secret, was, dep, t);
      case ServiceGet(_, _, _, _) => ServiceThrough(p, c, i, d, t);
      case ServiceCreate(_, _, _, _, _) => ServiceThrough(p, c, i, d, t);
      case ServiceUpdate(_, _, _, _, _, _) => ServiceThrough(p, c, i, d, t);
      case _ => PullThrough(p, c, i, d, t);
    }
    hide Through, Installable, Inspected, DeploymentDone, NamespaceCall, PullSourceCall, PullGetCall, PullCreateCall,
      PullUpdateCall, ConfigMapCall, SecretCall, DeploymentGetCall, DeploymentCreateCall, DeploymentUpdateCall,
      ServiceGetCall, ServiceCreateCall, ServiceUpdateCall, MutateDeployment, MutateService, Admissible, SelectorFits;
  }

  // ---- the pass

  /** The thread works on the object as it is stored. */
  predicate Abreast(s: Stores, th: Thread) {
    match th
    case Idle => true
    case Reread(c) => s.obj == Some(c.base) && c.obj == c.seen == c.base
    case AddFinalizer(c) => s.obj == Some(c.seen) && !c.seen.deleting
    case Accessing(c, deleting, at) =>
      && s.obj == Some(c.seen) && !deleting && (at != Renew ==> Guard.AccessHeld(s.requests))
      && (at.WorkloadCluster? || at.WorkloadRequest? ==> s.requests.withWorkload)
    case Installing(c, ns, d) => s.obj == Some(c.seen) && Fresh(s.plane.mcp, c, ns, d)
    case Closing(c, res, evidence) => s.obj == Some(c.seen) && evidence.Some?
    case _ => false
  }

  ghost predicate Smooth(w: World, i: Inputs) {
    Steady(w, i) && Installable(w.s.plane.mcp, i) && Abreast(w.s, w.th)
  }

  lemma AfterCallAbreast(s: Stores, c: Ctx, go: DomainGo, now: int, i: Inputs)
    requires s.obj == Some(c.seen) && Through(s.plane.mcp, c, i, go)
    ensures var w := AfterCall(s, c, Ns(i), go, now); Abreast(w.s, w.th) && Installable(w.s.plane.mcp, i)
  {
    hide Installable, LastOf, SetProgressing, SetCondition, Fresh;
    if go.Continue? {
      FreshSame(s.plane.mcp, c, c, Ns(i), go.d);
    }
  }

  lemma FreshSame(m: Mcp, c: Ctx, c': Ctx, ns: string, d: DomainPoint)
    requires c.config == c'.config
    ensures Fresh(m, c, ns, d) <==> Fresh(m, c', ns, d)
  {
  }

  lemma InstallSmooth(s: Stores, c: Ctx, ns: string, d: DomainPoint, t: Tick, i: Inputs)
    requires Smooth(World(s, Installing(c, ns, d)), i) && t.fate == Ok
    ensures Smooth(StepInstalling(s, c, ns, d, t), i)
  {
    CallThrough(s.plane, c, i, d, t);
    InstallSteady(s, c, ns, d, t, i);
    var call := DomainCall(s.plane, s.platform, c, ns, d, t);
    AfterCallAbreast(s.(plane := call.plane, history := NoteAll(s.history, call.act)), c, call.go, t.now, i);
    hide DomainCall, Progress, Target, Installable, Fresh, AfterCall, Through, NoteAll, Abreast;
  }

  lemma AccessSmooth(s: Stores, c: Ctx, deleting: bool, at: AccessPoint, t: Tick, i: Inputs)
    requires Smooth(World(s, Accessing(c, deleting, at)), i) && !Disturbs(World(s, Accessing(c, deleting, at)), Ctl(t))
    ensures Smooth(StepAccessing(s, c, deleting, at, t), i)
  {
    AccessSteady(s, c, deleting, at, t, i);
    hide Installable, ResolveNamespace, MayRenew, OnCourse;
  }

  lemma OtherSmooth(s: Stores, th: Thread, t: Tick, i: Inputs)
    requires Smooth(World(s, th), i) && !Disturbs(World(s, th), Ctl(t))
    requires th.Idle? || th.Reread? || th.AddFinalizer? || th.Closing?
    ensures Smooth(StepCtl(s, th, t), i)
  {
    OthersSteady(s, th, t, i);
    hide Installable, OnCourse, Merge, ValidStatus, LastOf;
  }

  lemma StepSmooth(w: World, e: Event, i: Inputs)
    requires Smooth(w, i) && e.Ctl? && !Disturbs(w, e)
    ensures Smooth(Step(w, e), i)
  {
    var t := e.t;
    match w.th {
      case Installing(c, ns, d) => InstallSmooth(w.s, c, ns, d, t, i);
      case Accessing(c, deleting, at) => AccessSmooth(w.s, c, deleting, at, t, i);
      case _ => OtherSmooth(w.s, w.th, t, i);
    }
    hide StepInstalling, StepAccessing, Steady, Installable;
  }

  // ---- it gets through

  /** How many calls at most until the pass has everything in place. */
  function Left(th: Thread, i: Inputs): int {
    if th.Idle? then 17 + 3 * |i.config.pullSecrets| else Rank(th)
  }

  predicate Underway(th: Thread) {
    th.Reread? || th.AddFinalizer? || th.Accessing? || th.Installing?
  }

  lemma InstallNearer(s: Stores, c: Ctx, ns: string, d: DomainPoint, t: Tick, i: Inputs)
    requires Smooth(World(s, Installing(c, ns, d)), i) && t.fate == Ok
    ensures PullInHand(c, d)
    ensures Completes(World(s, Installing(c, ns, d)), Ctl(t)) || StepInstalling(s, c, ns, d, t).th.Installing?
  {
    CallThrough(s.plane, c, i, d, t);
    hide DomainCall, Fresh, Installable, LastOf, Synced;
  }

  lemma OtherNearer(s: Stores, th: Thread, t: Tick, i: Inputs)
    requires Smooth(World(s, th), i) && !Disturbs(World(s, th), Ctl(t)) && (th.Idle? ==> s.obj.Some?)
    requires th.Idle? || th.Reread? || th.AddFinalizer? || th.Accessing?
    ensures Underway(StepCtl(s, th, t).th)
    ensures th.Idle? ==> Rank(StepCtl(s, th, t).th) == 16 + 3 * |i.config.pullSecrets|
  {
    hide Installable, Progress, ResolveNamespace, MayRenew, LastOf;
  }

  lemma StepNearer(w: World, e: Event, i: Inputs)
    requires Smooth(w, i) && e.Ctl? && !Disturbs(w, e) && (w.th.Idle? || Underway(w.th)) && !Completes(w, e)
    ensures Underway(Step(w, e).th) && Left(Step(w, e).th, i) < Left(w.th, i)
  {
    if w.th.Installing? {
      InstallNearer(w.s, w.th.c, w.th.ns, w.th.d, e.t, i);
      InstallDescends(w.s, w.th.c, w.th.ns, w.th.d, e.t);
    } else {
      OtherNearer(w.s, w.th, e.t, i);
      if !w.th.Idle? {
        OtherDescends(w.s, w.th, e.t);
      }
    }
    hide StepInstalling, Smooth, Completes, Disturbs, Begin, StepReread, StepAddFinalizer, StepAccessing;
  }

  lemma LeftPositive(s: Stores, th: Thread, i: Inputs)
    requires Smooth(World(s, th), i) && (th.Idle? || Underway(th))
    ensures Left(th, i) >= 1
  {
    hide Installable, Abreast, Synced, Opts;
  }

  ghost predicate GetsThrough(w: World, es: seq<Event>)
    decreases |es|
  {
    es != [] && (Completes(w, es[0]) || GetsThrough(Step(w, es[0]), es[1..]))
  }

  /** A pass with installable inputs that nothing disturbs has everything in place after at most Left calls,
      wherever it stands now. */
  lemma {:induction false} PassGetsThrough(w: World, es: seq<Event>, i: Inputs)
    requires Smooth(w, i) && (w.th.Idle? || Underway(w.th)) && Undisturbed(w, es) && |es| >= Left(w.th, i)
    ensures GetsThrough(w, es)
    decreases |es|
  {
    LeftPositive(w.s, w.th, i);
    hide Smooth, Step, Completes, Left, Underway;
    if !Completes(w, es[0]) {
      StepNearer(w, es[0], i);
      StepSmooth(w, es[0], i);
      PassGetsThrough(Step(w, es[0]), es[1..], i);
    }
  }
}
