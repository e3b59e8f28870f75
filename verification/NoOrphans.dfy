/** Nothing the controller made outlives its service object: the finalizer and the access requests stay until the
    cleanup has been done. */
module NoOrphans {
  import opened Kube
  import opened Desired
  import opened Machine
  import opened Frame
  import Guard

  predicate NothingMade(p: Plane) {
    p.madeDeployments == {} && p.madeServices == {}
  }

  /** No orphans: a controller-made Deployment or Service has its service object above it, finalizer included. */
  predicate NoOrphan(s: Stores) {
    !NothingMade(s.plane) ==> Guard.Guarded(s)
  }

  /** What is recorded as made exists, and only under the two well-known names in `ns`. */
  predicate MadeIn(p: Plane, ns: string) {
    && p.madeDeployments <= {Key(ns, DEPLOYMENT)} && p.madeDeployments <= p.mcp.deployments.Keys
    && p.madeServices <= {Key(ns, SERVICE)} && p.madeServices <= p.mcp.services.Keys
  }

  /** Every namespace the controller works in is `ns`. */
  predicate WorksIn(th: Thread, ns: string) {
    (th.Installing? || th.Cleaning?) ==> th.ns == ns
  }

  ghost predicate RunWorksIn(w: World, es: seq<Event>, ns: string)
    decreases |es|
  {
    WorksIn(w.th, ns) && (es != [] ==> RunWorksIn(Step(w, es[0]), es[1..], ns))
  }

  /** If a domain write has happened and the domain's cleanup has not, the finalizer is stored and all access held. */
  predicate MadeInv(s: Stores, ns: string) {
    MadeIn(s.plane, ns) && (!NothingMade(s.plane) ==> Guard.Guarded(s) && Guard.AccessHeld(s.requests))
  }

  predicate CleanedUpTo(p: Plane, th: Thread) {
    match th
    case Cleaning(_, _, at) => at == CleanServiceGet || at == CleanService ==> p.madeDeployments == {}
    case CleanedPatch(_, failed) => !failed ==> NothingMade(p)
    case Releasing(_) => NothingMade(p)
    case DropFinalizer(_) => NothingMade(p)
    case _ => true
  }

  predicate Inv(w: World, ns: string) {
    Guard.Inv(w) && MadeInv(w.s, ns) && CleanedUpTo(w.s.plane, w.th) && WorksIn(w.th, ns)
  }

  // ---- the environment

  lemma EventKeepsMade(p: Plane, e: EnvEvent, ns: string)
    requires MadeIn(p, ns)
    ensures var p' := PlaneEvent(p, e);
      MadeIn(p', ns) && p'.madeDeployments <= p.madeDeployments && p'.madeServices <= p.madeServices
  {
  }

  lemma EnvKeeps(w: World, e: EnvEvent, ns: string)
    requires Inv(w, ns) && Tame(Env(e))
    ensures Inv(Step(w, Env(e)), ns)
  {
    Guard.EnvKeeps(w, e);
    EventKeepsMade(w.s.plane, e, ns);
    Guard.EventKeepsAccess(w.s.requests, e);
    if Guard.Guarded(w.s) {
      Guard.EventKeepsGuard(w.s, e);
    }
    hide ObjectEvent, PlaneEvent, RequestsEvent, MadeIn, Guard.Inv;
  }

  // ---- the controller

  lemma InstallMade(p: Plane, p': Plane, ns: string, pulls: seq<string>)
    requires MadeIn(p, ns) && InstallEffect(p, p', ns, pulls)
    ensures MadeIn(p', ns)
  {
  }

  /** Going on after a domain call touches only the thread and the record of how the reconcile ended. */
  lemma AfterCallFrame(s: Stores, c: Ctx, ns: string, go: DomainGo, now: int)
    ensures var w := AfterCall(s, c, ns, go, now);
      && w.s.plane == s.plane && w.s.requests == s.requests && w.s.obj == s.obj
      && (w.th.Idle? || w.th.Closing? || (w.th.Installing? && w.th.ns == ns))
  {
  }

  lemma InstallKeeps(s: Stores, c: Ctx, ns: string, d: DomainPoint, t: Tick)
    requires Inv(World(s, Installing(c, ns, d)), ns)
    ensures Inv(StepInstalling(s, c, ns, d, t), ns)
  {
    Guard.InstallKeeps(s, c, ns, d, t);
    var call := DomainCall(s.plane, s.platform, c, ns, d, t);
    InstallFrame(s.plane, s.platform, c, ns, d, t);
    InstallMade(s.plane, call.plane, ns, c.config.pullSecrets);
    AfterCallFrame(s.(plane := call.plane, history := NoteAll(s.history, call.act)), c, ns, call.go, t.now);
    hide DomainCall, InstallEffect, MadeIn, AfterCall;
  }

  lemma CleanupSound(p: Plane, ns: string, at: CleanupPoint, t: Tick)
    requires MadeIn(p, ns)
    requires at == CleanServiceGet || at == CleanService ==> p.madeDeployments == {}
    ensures var call := Cleanup(p, ns, at, t);
      && MadeIn(call.plane, ns) && (NothingMade(p) ==> NothingMade(call.plane))
      && (call.go.CleanDone? ==> NothingMade(call.plane))
      && (call.go.CleanNext? && (call.go.p == CleanServiceGet || call.go.p == CleanService)
          ==> call.plane.madeDeployments == {})
  {
  }

  lemma CleaningKeeps(s: Stores, c: Ctx, ns: string, at: CleanupPoint, t: Tick)
    requires Inv(World(s, Cleaning(c, ns, at)), ns)
    ensures Inv(StepCleaning(s, c, ns, at, t), ns)
  {
    Guard.CleaningKeeps(s, c, ns, at, t);
    CleanupSound(s.plane, ns, at, t);
    hide Cleanup, MadeIn;
  }

  lemma PatchesKeep(s: Stores, th: Thread, t: Tick, ns: string)
    requires Inv(World(s, th), ns) && (th.NoConfigPatch? || th.Closing? || th.CleanedPatch?)
    ensures Inv(StepCtl(s, th, t), ns)
  {
    Guard.PatchesKeep(s, th, t);
    match th
    case NoConfigPatch(base, obj) => Guard.PatchKeeps(s, Ctx(base, base, obj, NO_CONFIG), None, t.fate);
    case Closing(c, res, evidence) => Guard.PatchKeeps(s, c, evidence, t.fate);
    case CleanedPatch(c, failed) => Guard.PatchKeeps(s, c, None, t.fate);
    hide PatchStatus, PatchLands, MadeIn, Guard.Inv;
  }

  lemma AccessKeeps(s: Stores, c: Ctx, deleting: bool, at: AccessPoint, t: Tick, ns: string)
    requires Inv(World(s, Accessing(c, deleting, at)), ns) && WorksIn(StepAccessing(s, c, deleting, at, t).th, ns)
    ensures Inv(StepAccessing(s, c, deleting, at, t), ns)
  {
    Guard.AccessKeeps(s, c, deleting, at, t);
    Guard.AccessCallSound(s.requests, at, t);
    hide AccessCall, AccessEffect, MadeIn, Guard.Inv;
  }

  /** The remaining calls leave the plane alone; access requests are given up only when nothing made is left. */
  lemma OthersKeep(s: Stores, th: Thread, t: Tick, ns: string)
    requires Inv(World(s, th), ns)
    requires th.Idle? || th.Reread? || th.Recreate? || th.AddFinalizer? || th.CheckMcpRequest?
      || th.CheckWorkloadRequest? || th.Releasing? || th.DropFinalizer?
    ensures Inv(StepCtl(s, th, t), ns)
  {
    Guard.CtlKeeps(s, th, t);
    hide MadeIn, Guard.Inv;
  }

  lemma CtlKeeps(s: Stores, th: Thread, t: Tick, ns: string)
    requires Inv(World(s, th), ns) && WorksIn(StepCtl(s, th, t).th, ns)
    ensures Inv(StepCtl(s, th, t), ns)
  {
    match th
    case NoConfigPatch(_, _) => PatchesKeep(s, th, t, ns);
    case Accessing(c, deleting, at) => AccessKeeps(s, c, deleting, at, t, ns);
    case Installing(c, n, d) => InstallKeeps(s, c, n, d, t);
    case Closing(_, _, _) => PatchesKeep(s, th, t, ns);
    case Cleaning(c, n, p) => CleaningKeeps(s, c, n, p, t);
    case CleanedPatch(_, _) => PatchesKeep(s, th, t, ns);
    case _ => OthersKeep(s, th, t, ns);
    hide StepAccessing, StepInstalling, StepCleaning, MadeIn, Guard.Inv;
  }

  lemma StepKeeps(w: World, e: Event, ns: string)
    requires Inv(w, ns) && Tame(e) && WorksIn(Step(w, e).th, ns)
    ensures Inv(Step(w, e), ns)
  {
    match e
    case Env(e) => EnvKeeps(w, e, ns);
    case Ctl(t) => CtlKeeps(w.s, w.th, t, ns);
    hide StepCtl, StepEnv, MadeInv, CleanedUpTo, Guard.Inv;
  }

  lemma {:induction false} RunKeeps(w: World, es: seq<Event>, ns: string)
    requires Inv(w, ns) && AllTame(es) && RunWorksIn(w, es, ns)
    ensures Inv(Run(w, es), ns)
    decreases |es|
  {
    hide Inv, Step;
    if es != [] {
      assert Tame(es[0]);
      assert WorksIn(Step(w, es[0]).th, ns);
      StepKeeps(w, es[0], ns);
      RunKeeps(Step(w, es[0]), es[1..], ns);
    }
  }

  /** In every reachable state of the interleaved system nothing is orphaned, as long as the controller keeps working
      in one namespace and nobody else takes its finalizer or its access requests away. */
  lemma NothingOrphaned(w: World, es: seq<Event>, ns: string)
    requires Initial(w) && AllTame(es) && RunWorksIn(w, es, ns)
    ensures NoOrphan(Run(w, es).s)
  {
    RunKeeps(w, es, ns);
  }
}
