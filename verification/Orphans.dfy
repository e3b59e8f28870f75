/** When orphans are left behind: a delete that finds its access in deletion cleans nothing up, and one that does not
    looks only into the namespace resolved at that moment. */
module Orphans {
  import opened Kube
  import opened Api
  import opened Desired
  import opened Machine
  import opened StatusWrites
  import opened Scenario
  import FrameRuns
  import NoOrphans

  /** Everything the controller made in this plane is the workload of `ns`. */
  predicate AllIn(p: Plane, ns: string) {
    p.madeDeployments <= {Key(ns, DEPLOYMENT)} && p.madeServices <= {Key(ns, SERVICE)}
  }

  /** What is recorded as made exists. */
  predicate MadeExists(p: Plane) {
    p.madeDeployments <= p.mcp.deployments.Keys && p.madeServices <= p.mcp.services.Keys
  }

  // ---- what is recorded as made exists, in every run

  lemma EventMade(p: Plane, e: EnvEvent)
    requires MadeExists(p)
    ensures MadeExists(PlaneEvent(p, e))
  {
  }

  lemma CallMade(p: Plane, platform: map<string, Secret>, c: Ctx, ns: string, d: DomainPoint, t: Tick)
    requires MadeExists(p)
    ensures MadeExists(DomainCall(p, platform, c, ns, d, t).plane)
  {
    hide HashOpts, MutateDeployment, MutateService, SyncSecret, PullKey, PullNext, Admissible, Missing;
  }

  lemma InstallMade(s: Stores, c: Ctx, ns: string, d: DomainPoint, t: Tick)
    requires MadeExists(s.plane)
    ensures MadeExists(StepInstalling(s, c, ns, d, t).s.plane)
  {
    var call := DomainCall(s.plane, s.platform, c, ns, d, t);
    CallMade(s.plane, s.platform, c, ns, d, t);
    NoOrphans.AfterCallFrame(s.(plane := call.plane, history := NoteAll(s.history, call.act)), c, ns, call.go, t.now);
    hide DomainCall, AfterCall, MadeExists;
  }

  lemma CleaningMade(s: Stores, c: Ctx, ns: string, at: CleanupPoint, t: Tick)
    requires MadeExists(s.plane)
    ensures MadeExists(StepCleaning(s, c, ns, at, t).s.plane)
  {
    hide LastOf;
  }

  lemma StepMade(w: World, e: Event)
    requires MadeExists(w.s.plane)
    ensures MadeExists(Step(w, e).s.plane)
  {
    match e {
      case Env(e) => EventMade(w.s.plane, e);
      case Ctl(t) =>
        match w.th
        case Installing(c, ns, d) => InstallMade(w.s, c, ns, d, t);
        case Cleaning(c, ns, at) => CleaningMade(w.s, c, ns, at, t);
        case _ => FrameRuns.PlaneKept(w.s, w.th, t);
    }
    hide StepInstalling, StepCleaning, PlaneEvent, ObjectEvent, RequestsEvent, MadeExists, Begin, StepNoConfigPatch,
      StepReread, StepRecreate, StepAddFinalizer, StepAccessing, StepClosing, StepCheckMcpRequest,
      StepCheckWorkloadRequest, StepCleanedPatch, StepReleasing, StepDropFinalizer;
  }

  lemma {:induction false} RunMade(w: World, es: seq<Event>)
    requires MadeExists(w.s.plane)
    ensures MadeExists(Run(w, es).s.plane)
    decreases |es|
  {
    hide MadeExists, Step;
    if es != [] {
      StepMade(w, es[0]);
      RunMade(Step(w, es[0]), es[1..]);
    }
  }

  // ---- one delete

  /** The delete finds its access in deletion and skips the cleanup. */
  predicate Skips(q: Requests) {
    q.mcp in {Absent, Access.Deleting} || (q.withWorkload && q.workload in {Absent, Access.Deleting})
  }

  predicate SameMade(p: Plane, q: Plane) {
    q.madeDeployments == p.madeDeployments && q.madeServices == p.madeServices
  }

  predicate CleanedOf(p: Plane, q: Plane, ns: string) {
    q.madeDeployments == p.madeDeployments - {Key(ns, DEPLOYMENT)}
      && q.madeServices == p.madeServices - {Key(ns, SERVICE)}
  }

  predicate HalfCleaned(p: Plane, q: Plane, ns: string, at: CleanupPoint) {
    && q.madeServices == p.madeServices
    && if at == CleanServiceGet || at == CleanService
       then q.madeDeployments == p.madeDeployments - {Key(ns, DEPLOYMENT)}
       else q.madeDeployments == p.madeDeployments
  }

  /** How far a delete has come that started from plane `p` with `skips` as its access requests were then: what is left
      of what was made, and the object is not gone before the end. */
  predicate Along(p: Plane, ns: string, skips: bool, w: World) {
    var q := w.s.plane;
    var left := if skips then SameMade(p, q) else CleanedOf(p, q, ns);
    match w.th
    case Idle => w.s.obj.None? ==> left
    case CheckMcpRequest(c) => w.s.obj.Some? && SameMade(p, q) && skips == Skips(w.s.requests) && Resolves(c, ns)
    case CheckWorkloadRequest(c) =>
      && w.s.obj.Some? && SameMade(p, q) && skips == Skips(w.s.requests) && Resolves(c, ns)
      && !InDeletion(w.s.requests.mcp) && w.s.requests.withWorkload
    case Accessing(c, deleting, _) => w.s.obj.Some? && SameMade(p, q) && !skips && Resolves(c, ns) && deleting
    case Cleaning(_, n, at) => w.s.obj.Some? && !skips && n == ns && HalfCleaned(p, q, ns, at)
    case CleanedPatch(_, failed) => w.s.obj.Some? && (!failed ==> left)
    case Releasing(_) => w.s.obj.Some? && left
    case DropFinalizer(_) => w.s.obj.Some? && left
    case _ => false
  }

  predicate Resolves(c: Ctx, ns: string) {
    ResolveNamespace(c.obj.spec, c.config) == ns
  }

  lemma CheckAlong(p: Plane, ns: string, skips: bool, s: Stores, th: Thread, t: Tick)
    requires Along(p, ns, skips, World(s, th)) && (th.CheckMcpRequest? || th.CheckWorkloadRequest?)
    ensures Along(p, ns, skips, StepCtl(s, th, t))
  {
    hide LastOf, ResolveNamespace, SameMade, CleanedOf;
  }

  lemma AccessAlong(p: Plane, ns: string, skips: bool, s: Stores, c: Ctx, at: AccessPoint, t: Tick)
    requires Along(p, ns, skips, World(s, Accessing(c, true, at)))
    ensures Along(p, ns, skips, StepAccessing(s, c, true, at, t))
  {
    hide LastOf, ResolveNamespace, AccessCall, AccessEffect, CleanedOf, SetCondition;
  }

  lemma CleaningAlong(p: Plane, ns: string, skips: bool, s: Stores, c: Ctx, n: string, at: CleanupPoint, t: Tick)
    requires Along(p, ns, skips, World(s, Cleaning(c, n, at))) && MadeExists(s.plane)
    ensures Along(p, ns, skips, StepCleaning(s, c, n, at, t))
  {
    hide LastOf;
  }

  lemma ReleaseAlong(p: Plane, ns: string, skips: bool, s: Stores, th: Thread, t: Tick)
    requires Along(p, ns, skips, World(s, th)) && (th.CleanedPatch? || th.Releasing? || th.DropFinalizer?)
    ensures Along(p, ns, skips, StepCtl(s, th, t))
  {
    hide PatchLands, MergedInto, LastOf, ReleaseReply, SameMade, CleanedOf;
  }

  lemma StepAlong(p: Plane, ns: string, skips: bool, s: Stores, th: Thread, t: Tick)
    requires Along(p, ns, skips, World(s, th)) && MadeExists(s.plane) && !th.Idle?
    ensures Along(p, ns, skips, StepCtl(s, th, t))
  {
    match th
    case Accessing(c, _, at) => AccessAlong(p, ns, skips, s, c, at, t);
    case Cleaning(c, n, at) => CleaningAlong(p, ns, skips, s, c, n, at, t);
    case CheckMcpRequest(_) => CheckAlong(p, ns, skips, s, th, t);
    case CheckWorkloadRequest(_) => CheckAlong(p, ns, skips, s, th, t);
    case _ => ReleaseAlong(p, ns, skips, s, th, t);
    hide StepAccessing, StepCleaning, StepCheckMcpRequest, StepCheckWorkloadRequest, StepCleanedPatch, StepReleasing,
      StepDropFinalizer, SameMade, CleanedOf, HalfCleaned, Resolves, MadeExists;
  }

  /** One reconcile with nobody interfering: only calls of the controller, and no return before the last. */
  ghost predicate OnePass(w: World, es: seq<Event>)
    decreases |es|
  {
    es != [] ==> es[0].Ctl? && !w.th.Idle? && OnePass(Step(w, es[0]), es[1..])
  }

  lemma {:induction false} RunAlong(p: Plane, ns: string, skips: bool, w: World, es: seq<Event>)
    requires Along(p, ns, skips, w) && MadeExists(w.s.plane) && OnePass(w, es)
    ensures Along(p, ns, skips, Run(w, es))
    decreases |es|
  {
    hide Along, MadeExists, Step;
    if es != [] {
      StepAlong(p, ns, skips, w.s, w.th, es[0].t);
      StepMade(w, es[0]);
      assert Step(w, es[0]) == StepCtl(w.s, w.th, es[0].t) by { StepIsCtl(w, es[0]); }
      RunAlong(p, ns, skips, Step(w, es[0]), es[1..]);
    }
  }

  lemma StepIsCtl(w: World, e: Event)
    requires e.Ctl?
    ensures Step(w, e) == StepCtl(w.s, w.th, e.t)
  {
    hide StepCtl;
  }

  /** After any history, a delete from its first call on, whatever becomes of its calls, with nobody interfering. If it
      lets the object go, nothing is orphaned if and only if nothing was made, or the delete did not find its access in
      deletion and all that was made sits in the namespace it resolved. */
  lemma OrphansExactly(w0: World, before: seq<Event>, o: Obj, config: Config, t: Tick, es: seq<Event>)
    requires Initial(w0) && Run(w0, before).th.Idle?
    requires Run(w0, before).s.obj == Some(o) && o.deleting && Run(w0, before).s.cache == Some(config)
    requires var w := Step(Run(w0, before), Ctl(t));
      OnePass(w, es) && Run(w, es).th.Idle? && Run(w, es).s.obj.None?
    ensures var s := Run(w0, before).s; var w := Step(Run(w0, before), Ctl(t));
      NoOrphans.NoOrphan(Run(w, es).s)
      <==> NoOrphans.NothingMade(s.plane) || (!Skips(s.requests) && AllIn(s.plane, ResolveNamespace(o.spec, config)))
  {
    var s, ns := Run(w0, before).s, ResolveNamespace(o.spec, config);
    RunMade(w0, before);
    var w := Begin(s, t);
    StepIsCtl(Run(w0, before), Ctl(t));
    BeginAlong(s, o, config, t, ns);
    RunAlong(s.plane, ns, Skips(s.requests), w, es);
    CleanedAll(s.plane, Run(w, es).s.plane, ns);
    hide Run, Step, Begin, MadeExists, CleanedOf, ResolveNamespace;
  }

  lemma CleanedAll(p: Plane, q: Plane, ns: string)
    ensures CleanedOf(p, q, ns) ==> (NoOrphans.NothingMade(q) <==> AllIn(p, ns))
  {
  }

  lemma BeginAlong(s: Stores, o: Obj, config: Config, t: Tick, ns: string)
    requires s.obj == Some(o) && o.deleting && s.cache == Some(config) && ns == ResolveNamespace(o.spec, config)
    ensures Begin(s, t).s.plane == s.plane && Along(s.plane, ns, Skips(s.requests), Begin(s, t))
  {
    hide ResolveNamespace, LastOf;
  }

  // ---- runs that leave one

  predicate DeletingThere(w: World) {
    && w.s.requests == Requests(Granted, Absent, false)
    && w.th.Accessing? && w.th.deleting && w.th.at == Renew
    && w.s.obj == Some(w.th.c.seen) && w.th.c.obj == w.th.c.seen == w.th.c.base
    && w.th.c.seen.deleting && w.th.c.seen.finalizers == {FINALIZER}
    && w.th.c.obj.status == NO_STATUS && ResolveNamespace(w.th.c.obj.spec, w.th.c.config) == THERE
  }

  /** The namespace changes while the process restarts, then the object is deleted, and the delete works elsewhere. */
  lemma Moved(w: World) returns (es: seq<Event>)
    requires w.s.obj == Some(Obj(0, 1, PLAIN, false, {FINALIZER}, NO_STATUS))
      && w.s.requests == Requests(Granted, Absent, false)
    ensures AllTame(es)
    ensures Run(w, es).s.plane == w.s.plane && DeletingThere(Run(w, es))
  {
    var crash, config, edit, delete := Env(Crash), Env(ConfigStored(Some(CONFIG))), Env(UserEdit(MOVED)),
        Env(UserDelete);
    es := [crash] + ([config] + ([edit] + ([delete] + ([GRANT] + ([GRANT] + [])))));
    var w1 := Step(w, crash);
    var w2 := Step(w1, config);
    var w3 := Step(w2, edit);
    var w4 := Step(w3, delete);
    RunCons(w, crash, [config] + ([edit] + ([delete] + ([GRANT] + ([GRANT] + [])))));
    RunCons(w1, config, [edit] + ([delete] + ([GRANT] + ([GRANT] + []))));
    RunCons(w2, edit, [delete] + ([GRANT] + ([GRANT] + [])));
    RunCons(w3, delete, [GRANT] + ([GRANT] + []));
    var o := Obj(0, 3, MOVED, true, {FINALIZER}, NO_STATUS);
    assert w4 == World(w.s.(cache := Some(CONFIG), obj := Some(o)), Idle);
    var w5 := Step(w4, GRANT);
    RunCons(w4, GRANT, [GRANT] + []);
    assert w5 == World(w4.s.(history := w5.s.history), CheckMcpRequest(Ctx(o, o, o, CONFIG)));
    RunCons(w5, GRANT, []);
    RunEmpty(Step(w5, GRANT));
    hide Run;
  }

  /** A cleanup that finds nothing there, then the release. */
  lemma LetGo(w: World, c: Ctx)
    requires w.th == Cleaning(c, THERE, CleanDeploymentGet)
    requires w.s.obj == Some(c.seen) && c.seen.deleting && c.seen.finalizers == c.obj.finalizers == {FINALIZER}
    requires Key(THERE, DEPLOYMENT) !in w.s.plane.mcp.deployments && Key(THERE, SERVICE) !in w.s.plane.mcp.services
    requires w.s.requests == Requests(Granted, Absent, false) && c.obj.status != c.base.status
    ensures var w' := Run(w, [GRANT] + ([GRANT] + ([REFUSED] + ([RELEASE] + ([RELEASE] + [])))));
      w'.s.obj.None? && w'.s.plane == w.s.plane
  {
    var w1 := Step(w, GRANT);
    var w2 := Step(w1, GRANT);
    var w3 := Step(w2, REFUSED);
    RunCons(w, GRANT, [GRANT] + ([REFUSED] + ([RELEASE] + ([RELEASE] + []))));
    RunCons(w1, GRANT, [REFUSED] + ([RELEASE] + ([RELEASE] + [])));
    RunCons(w2, REFUSED, [RELEASE] + ([RELEASE] + []));
    assert w1 == World(w.s, Cleaning(c, THERE, CleanServiceGet));
    assert w2 == World(w.s, CleanedPatch(c, false));
    assert w3 == World(w.s, Releasing(c));
    Releases(w3, c);
    hide Run;
  }

  lemma Releases(w: World, c: Ctx)
    requires w.th == Releasing(c) && w.s.obj == Some(c.seen) && c.seen.deleting && c.obj.finalizers == {FINALIZER}
    requires MayRelease(w.s.requests.mcp, Absent) && w.s.requests.workload == Absent && !w.s.requests.withWorkload
    ensures var w' := Run(w, [RELEASE] + ([RELEASE] + []));
      w'.s.obj.None? && w'.s.plane == w.s.plane
  {
    var w4 := World(w.s.(requests := Requests(Absent, Absent, false)), DropFinalizer(c));
    assert Step(w, RELEASE) == w4;
    RunCons(w, RELEASE, [RELEASE] + []);
    RunCons(w4, RELEASE, []);
    RunEmpty(Step(w4, RELEASE));
    assert c.obj.finalizers - {FINALIZER} == {};
    hide Run;
  }

  lemma TerminatingDiffers(c: Ctx)
    requires c.obj == c.seen == c.base && c.obj.status == NO_STATUS
    ensures var c' := SetTerminating(c, 0);
      c'.obj.status != c.base.status && c'.obj.finalizers == c.obj.finalizers && c'.base == c.base && c'.seen == c.seen
  {
    hide SetCondition;
  }

  /** The delete gets its access, cleans up elsewhere, and lets the object go. */
  lemma DeletedElsewhere(w: World) returns (es: seq<Event>)
    requires DeletingThere(w) && OneDeployment(w.s.plane)
    ensures AllTame(es) && Run(w, es).s.obj.None? && Run(w, es).s.plane == w.s.plane
  {
    var granted := [GRANT] + ([GRANT] + ([GRANT] + []));
    var letGo := [GRANT] + ([GRANT] + ([REFUSED] + ([RELEASE] + ([RELEASE] + []))));
    es := granted + letGo;
    RunAppend(w, granted, letGo);
    AccessThree(w);
    TerminatingDiffers(w.th.c);
    LetGo(Run(w, granted), Run(w, granted).th.c);
    hide Run, SetTerminating, ResolveNamespace;
  }

  /** Without a stable namespace orphans can be left: a service is installed, moved to another namespace while the
      controller restarts, and deleted; the object goes and the Deployment stays. */
  lemma OrphanCanBeLeft() returns (w: World, es: seq<Event>)
    ensures Initial(w) && AllTame(es) && !NoOrphans.NoOrphan(Run(w, es).s)
  {
    w := START;
    var made := Made(w);
    var moved := Moved(Run(w, made));
    var deleted := DeletedElsewhere(Run(Run(w, made), moved));
    es := made + moved + deleted;
    RunAppend(w, made + moved, deleted);
    RunAppend(w, made, moved);
    assert Key(HERE, DEPLOYMENT) in Run(w, es).s.plane.madeDeployments;
    hide Run, DeletingThere;
  }

  /** The access requests are deleted behind the controller's back, then the object is deleted. */
  lemma Tampered(w: World) returns (es: seq<Event>)
    requires w.s.obj == Some(Obj(0, 1, PLAIN, false, {FINALIZER}, NO_STATUS))
      && w.s.requests == Requests(Granted, Absent, false)
    ensures forall e | e in es :: e.Env? ==> !e.e.StripFinalizer?
    ensures var w' := Run(w, es);
      w'.s.plane == w.s.plane && w'.s.obj.None?
  {
    var tamper := Env(AccessTamper(Absent, Absent));
    var rest := [Env(Crash)] + ([Env(ConfigStored(Some(CONFIG)))] + ([Env(UserDelete)] + []));
    var calls := [RELEASE] + ([RELEASE] + ([RELEASE] + ([RELEASE] + [])));
    es := [tamper] + (rest + calls);
    var o := Obj(0, 2, PLAIN, true, {FINALIZER}, NO_STATUS);
    var w1 := World(w.s.(requests := Requests(Absent, Absent, false)), w.th);
    hide Run, Step;
    ForeignSteps(w);
    RunCons(w, tamper, rest + calls);
    RunAppend(w1, rest, calls);
    RestartAndDelete(w1, o);
    SkipCleanup(Run(w1, rest), o);
  }

  lemma ForeignSteps(w: World)
    ensures Step(w, Env(AccessTamper(Absent, Absent)))
         == World(w.s.(requests := w.s.requests.(mcp := Absent, workload := Absent)), w.th)
  {
  }

  lemma RestartAndDelete(w: World, o: Obj)
    requires w.s.obj == Some(Obj(0, 1, PLAIN, false, {FINALIZER}, NO_STATUS))
    requires o == Obj(0, 2, PLAIN, true, {FINALIZER}, NO_STATUS)
    ensures Run(w, [Env(Crash)] + ([Env(ConfigStored(Some(CONFIG)))] + ([Env(UserDelete)] + [])))
         == World(w.s.(cache := Some(CONFIG), obj := Some(o)), Idle)
  {
    var crash, config, delete := Env(Crash), Env(ConfigStored(Some(CONFIG))), Env(UserDelete);
    var w2 := World(w.s.(cache := None), Idle);
    var w3 := World(w.s.(cache := Some(CONFIG)), Idle);
    Inert(w.s.plane, w.s.requests);
    hide StepCtl, PlaneEvent, RequestsEvent, Run;
    assert Step(w, crash) == w2;
    assert Step(w2, config) == w3;
    RunCons(w, crash, [config] + ([delete] + []));
    RunCons(w2, config, [delete] + []);
    RunCons(w3, delete, []);
    RunEmpty(Step(w3, delete));
  }

  lemma SkipCleanup(w: World, o: Obj)
    requires w.th == Idle && w.s.obj == Some(o) && w.s.cache == Some(CONFIG)
      && w.s.requests == Requests(Absent, Absent, false)
    requires o.deleting && o.finalizers == {FINALIZER}
    ensures var w' := Run(w, [RELEASE] + ([RELEASE] + ([RELEASE] + ([RELEASE] + []))));
      w'.s.plane == w.s.plane && w'.s.obj.None?
  {
    var c := Ctx(o, o, o, CONFIG);
    var w5 := Step(w, RELEASE);
    var w6 := Step(w5, RELEASE);
    RunCons(w, RELEASE, [RELEASE] + ([RELEASE] + ([RELEASE] + [])));
    RunCons(w5, RELEASE, [RELEASE] + ([RELEASE] + []));
    assert w5 == World(w.s.(history := w5.s.history), CheckMcpRequest(c));
    assert w6 == World(w5.s, Releasing(c));
    Releases(w6, c);
    hide Run;
  }

  /** The access requests must be left to the controller, too: a delete that finds them gone skips the cleanup. */
  lemma TamperingLeavesOrphan() returns (w: World, es: seq<Event>)
    ensures Initial(w) && !NoOrphans.NoOrphan(Run(w, es).s)
    ensures forall e | e in es :: e.Env? ==> !e.e.StripFinalizer?
  {
    w := START;
    var made := Made(w);
    var tampered := Tampered(Run(w, made));
    es := made + tampered;
    RunAppend(w, made, tampered);
    assert forall e | e in made :: Tame(e);
    assert Key(HERE, DEPLOYMENT) in Run(w, es).s.plane.madeDeployments;
    hide Run;
  }

  /** And so must the finalizer: an object that has lost it is gone at once when it is deleted. */
  lemma StrippingLeavesOrphan() returns (w: World, es: seq<Event>)
    ensures Initial(w) && !NoOrphans.NoOrphan(Run(w, es).s)
    ensures forall e | e in es :: e.Env? ==> !e.e.AccessTamper?
  {
    w := START;
    var made := Made(w);
    var w1 := Run(w, made);
    var gone := [Env(StripFinalizer)] + ([Env(UserDelete)] + []);
    es := made + gone;
    RunAppend(w, made, gone);
    Stripped(w1);
    assert forall e | e in made :: Tame(e);
    assert Key(HERE, DEPLOYMENT) in Run(w, es).s.plane.madeDeployments;
    hide Run, Step;
  }

  lemma Stripped(w: World)
    requires w.s.obj == Some(Obj(0, 1, PLAIN, false, {FINALIZER}, NO_STATUS))
    ensures var w' := Run(w, [Env(StripFinalizer)] + ([Env(UserDelete)] + []));
      w'.s.obj.None? && w'.s.plane == w.s.plane
  {
    var w1 := Step(w, Env(StripFinalizer));
    assert {FINALIZER} - {FINALIZER} == {};
    assert w1 == World(w.s.(obj := Some(Obj(0, 1, PLAIN, false, {}, NO_STATUS))), w.th);
    RunCons(w, Env(StripFinalizer), [Env(UserDelete)] + []);
    RunCons(w1, Env(UserDelete), []);
    RunEmpty(Step(w1, Env(UserDelete)));
    hide Run;
  }
}
