/** With its inputs at rest a service becomes Ready: a budget of API calls, renewed by whatever disturbs a pass,
    runs out only once everything is in place and Ready is stored; and then undisturbed reconciles keep it so. */
module Recovery {
  import opened Kube
  import opened Api
  import opened StatusWrites
  import opened Desired
  import opened Machine
  import opened Converge
  import opened Deletion
  import opened FaultFree
  import opened Idempotence
  import StatusRuns

  // ---- where passes start from

  /** Inputs at rest and installable, whatever the running pass has met so far. */
  ghost predicate Fit(w: World, i: Inputs) {
    Steady(w, i) && Installable(w.s.plane.mcp, i) && w.s.obj.value.generation >= 1
  }

  /** No call of the install, however it ends, takes away what the install needs. */
  lemma CallInstallable(p: Plane, c: Ctx, i: Inputs, d: DomainPoint, t: Tick)
    requires Installable(p.mcp, i) && Uses(c, i) && Progress(p.mcp, i, d)
    ensures Installable(DomainCall(p, i.platform, c, Ns(i), d, t).plane.mcp, i)
  {
    match d {
      case DeploymentCreate(sources, cm, secret, dep) =>
        if Admissible(dep) {
          AdmittedFits(NEW_DEPLOYMENT, Opts(i, cm, secret));
        }
        PutInstallable(p, c, i, sources, cm, secret, dep, dep, t);
      case DeploymentUpdate(sources, cm, secret, was, dep) =>
        if Admissible(dep) {
          AdmittedFits(was, Opts(i, cm, secret));
        }
        PutInstallable(p, c, i, sources, cm, secret, was, dep, t);
      case _ => OtherInstallable(p, c, i, d, t);
    }
    hide SelectorFits, Installable, Inspected, DeploymentDone, Converge.InHand, Opts, MutateDeployment, MutateService,
      Admissible, DeploymentCreateCall, DeploymentUpdateCall, Synced;
  }

  lemma PutInstallable(p: Plane, c: Ctx, i: Inputs, sources: seq<Secret>, cm: Data, secret: Data, was: Deployment,
      d: Deployment, t: Tick)
    requires Installable(p.mcp, i) && (Admissible(d) ==> SelectorFits(d))
    ensures Installable(DeploymentCreateCall(p, DeploymentKey(i), sources, cm, secret, d, t).plane.mcp, i)
    ensures Installable(DeploymentUpdateCall(p, DeploymentKey(i), sources, cm, secret, was, d, t).plane.mcp, i)
  {
    hide SelectorFits, Admissible, Ns;
  }

  lemma OtherInstallable(p: Plane, c: Ctx, i: Inputs, d: DomainPoint, t: Tick)
    requires Installable(p.mcp, i) && Uses(c, i) && !d.DeploymentCreate? && !d.DeploymentUpdate?
    ensures Installable(DomainCall(p, i.platform, c, Ns(i), d, t).plane.mcp, i)
  {
    hide SelectorFits, Ns, HashOpts, MutateDeployment, MutateService, Admissible, SyncSecret, PullNext;
  }

  lemma InstallInstallable(s: Stores, c: Ctx, ns: string, d: DomainPoint, t: Tick, i: Inputs)
    requires Fit(World(s, Installing(c, ns, d)), i)
    ensures Installable(StepInstalling(s, c, ns, d, t).s.plane.mcp, i)
    ensures StepInstalling(s, c, ns, d, t).s.obj == s.obj
  {
    CallInstallable(s.plane, c, i, d, t);
    var call := DomainCall(s.plane, s.platform, c, ns, d, t);
    AfterCallPlane(s.(plane := call.plane, history := NoteAll(s.history, call.act)), c, ns, call.go, t.now);
    AfterCallObject(s.(plane := call.plane, history := NoteAll(s.history, call.act)), c, ns, call.go, t.now);
    hide DomainCall, Installable, Progress, AfterCall, NoteAll;
  }

  lemma AfterCallObject(s: Stores, c: Ctx, ns: string, go: DomainGo, now: int)
    ensures AfterCall(s, c, ns, go, now).s.obj == s.obj
  {
  }

  lemma OtherGeneration(s: Stores, th: Thread, t: Tick, i: Inputs)
    requires Fit(World(s, th), i) && !th.Installing?
    ensures var s' := StepCtl(s, th, t).s;
      && s'.plane == s.plane && s'.obj.Some? && s'.obj.value.generation == s.obj.value.generation
  {
    OthersSteady(s, th, t, i);
    hide Installable, Progress, AccessCall, AccessEffect, ResolveNamespace, ValidStatus, Merge, LastOf;
  }

  lemma StepFit(w: World, e: Event, i: Inputs)
    requires Fit(w, i) && Quiet(e, i)
    ensures Fit(Step(w, e), i)
  {
    StepSteady(w, e, i);
    if e.Env? {
      QuietEvent(w.s, e.e, i);
    } else if w.th.Installing? {
      InstallInstallable(w.s, w.th.c, w.th.ns, w.th.d, e.t, i);
    } else {
      OtherGeneration(w.s, w.th, e.t, i);
    }
    hide StepCtl, StepEnv, Installable, Steady, Target, Completes, Quiet, StepInstalling;
    SteadyStored(w, i);
    SteadyStored(Step(w, e), i);
  }

  lemma SteadyStored(w: World, i: Inputs)
    requires Steady(w, i)
    ensures w.s.obj.Some?
  {
  }

  lemma QuietEvent(s: Stores, e: EnvEvent, i: Inputs)
    requires Quiet(Env(e), i)
    ensures StepEnv(s, e).obj == s.obj && StepEnv(s, e).plane == s.plane
  {
  }

  // ---- passes that get through

  /** The live object is the stored one but for its status, and the finalizer is stored. */
  predicate Carries(c: Ctx) {
    c.base.status == c.seen.status && c.obj == c.seen.(status := c.obj.status) && FINALIZER in c.seen.finalizers
  }

  /** A pass nothing has gone wrong in so far. */
  ghost predicate Prospers(w: World, i: Inputs) {
    && Smooth(w, i)
    && match w.th
       case Reread(_) => true
       case AddFinalizer(c) =>
         c.base.status == c.seen.status && c.obj == c.seen.(finalizers := c.seen.finalizers + {FINALIZER})
       case Accessing(c, _, _) => Carries(c)
       case Installing(c, _, _) => Carries(c)
       case Closing(c, _, _) =>
         Carries(c) && ReadyAt(c.obj.status, c.seen.generation) && InPlace(w.s.plane.mcp, i)
       case _ => false
  }

  /** Between two reconciles, with everything in place and Ready stored for the object as it is. */
  ghost predicate Settled(w: World, i: Inputs) {
    && Steady(w, i) && w.th.Idle? && InPlace(w.s.plane.mcp, i)
    && FINALIZER in w.s.obj.value.finalizers && ReadyAt(w.s.obj.value.status, w.s.obj.value.generation)
  }

  lemma ReadyWritten(c: Ctx, now: int)
    ensures ReadyAt(SetReady(c, now).obj.status, c.obj.generation)
  {
    SetConditionEffect(c.obj.status.conditions,
        Condition(READY, True, c.obj.generation, "ReconcileSuccess", "Domain Service is ready", 0), now);
    hide SetCondition;
  }

  lemma StartProspers(s: Stores, th: Thread, t: Tick, i: Inputs)
    requires Prospers(World(s, th), i) && t.fate == Ok && (th.Reread? || th.AddFinalizer?)
    ensures Prospers(StepCtl(s, th, t), i)
  {
    OtherSmooth(s, th, t, i);
    hide Smooth, Installable, OnCourse;
    SmoothStart(s, th, i);
  }

  lemma SmoothStart(s: Stores, th: Thread, i: Inputs)
    requires Smooth(World(s, th), i)
    ensures th.Reread? ==> s.obj == Some(th.c.base) && th.c.obj == th.c.seen == th.c.base
    ensures th.AddFinalizer? || th.Installing? || th.Closing? ==> s.obj == Some(th.c.seen)
    ensures th.AddFinalizer? ==> !th.c.seen.deleting
  {
    hide Installable, OnCourse, Fresh;
  }

  lemma AccessProspers(s: Stores, c: Ctx, deleting: bool, at: AccessPoint, t: Tick, i: Inputs)
    requires Prospers(World(s, Accessing(c, deleting, at)), i)
    requires !Disturbs(World(s, Accessing(c, deleting, at)), Ctl(t))
    ensures Prospers(StepAccessing(s, c, deleting, at, t), i)
  {
    AccessSmooth(s, c, deleting, at, t, i);
    AccessGoesOn(s, c, at, t);
    hide Installable, OnCourse, StepAccessing, Fresh;
  }

  lemma AccessGoesOn(s: Stores, c: Ctx, at: AccessPoint, t: Tick)
    requires !Disturbs(World(s, Accessing(c, false, at)), Ctl(t)) && Abreast(s, Accessing(c, false, at)) && Carries(c)
    ensures var th := StepAccessing(s, c, false, at, t).th; (th.Accessing? || th.Installing?) && Carries(th.c)
  {
    hide ResolveNamespace, MayRenew, SetCondition;
  }

  lemma InstallProspers(s: Stores, c: Ctx, ns: string, d: DomainPoint, t: Tick, i: Inputs)
    requires Prospers(World(s, Installing(c, ns, d)), i) && t.fate == Ok
    ensures var w := StepInstalling(s, c, ns, d, t); Prospers(w, i) || Settled(w, i)
  {
    var w := World(s, Installing(c, ns, d));
    InstallSmooth(s, c, ns, d, t, i);
    SmoothStart(s, w.th, i);
    InstallGoesOn(s, c, d, t, i);
    if Completes(w, Ctl(t)) {
      CompletesInPlace(w, Ctl(t), i);
    }
    hide StepInstalling, Installable, Progress, InPlace, DomainCall, ReadyAt, Fresh;
  }

  /** An install that goes through goes on with what it carries, or closes with Ready. */
  lemma InstallGoesOn(s: Stores, c: Ctx, d: DomainPoint, t: Tick, i: Inputs)
    requires Smooth(World(s, Installing(c, Ns(i), d)), i) && t.fate == Ok && Carries(c)
    ensures var w := World(s, Installing(c, Ns(i), d)); var w' := StepInstalling(s, c, Ns(i), d, t);
      && w'.s.obj == s.obj
      && (!Completes(w, Ctl(t)) ==> w'.th.Installing? && w'.th.c == c)
      && (Completes(w, Ctl(t)) && w'.th.Idle? ==> ReadyAt(c.base.status, c.obj.generation))
      && (Completes(w, Ctl(t)) && !w'.th.Idle? ==>
            && w'.th.Closing? && Carries(w'.th.c) && w'.th.c.seen == c.seen
            && ReadyAt(w'.th.c.obj.status, c.seen.generation))
  {
    CallThrough(s.plane, c, i, d, t);
    ReadyWritten(c, t.now);
    hide DomainCall, Installable, Progress, Fresh, LastOf, SetCondition, ReadyAt;
  }

  lemma ClosingSettles(s: Stores, c: Ctx, res: Result, evidence: Option<Evidence>, t: Tick, i: Inputs)
    requires Prospers(World(s, Closing(c, res, evidence)), i) && t.fate == Ok && c.seen.generation >= 1
    ensures Settled(StepClosing(s, c, res, evidence, t), i)
  {
    OtherSmooth(s, Closing(c, res, evidence), t, i);
    SmoothStart(s, Closing(c, res, evidence), i);
    ReadyStored(s, c, evidence, c.seen.generation);
    hide InPlace, ReadyAt, PatchStatus, LastOf, Installable;
  }

  /** Undisturbed, such a pass goes on or ends with the service Ready. */
  lemma ProspersOn(w: World, e: Event, i: Inputs)
    requires Prospers(w, i) && Fit(w, i) && e.Ctl? && !Disturbs(w, e)
    ensures Prospers(Step(w, e), i) || Settled(Step(w, e), i)
  {
    var t := e.t;
    SmoothStart(w.s, w.th, i);
    match w.th {
      case Accessing(c, deleting, at) => AccessProspers(w.s, c, deleting, at, t, i);
      case Installing(c, ns, d) => InstallProspers(w.s, c, ns, d, t, i);
      case Closing(c, res, evidence) => ClosingSettles(w.s, c, res, evidence, t, i);
      case _ => StartProspers(w.s, w.th, t, i);
    }
    hide StepAccessing, StepInstalling, StepClosing, StepReread, StepAddFinalizer, Smooth, Settled;
  }

  lemma BeginProspers(s: Stores, t: Tick, i: Inputs)
    requires Fit(World(s, Idle), i) && !Disturbs(World(s, Idle), Ctl(t))
    ensures Prospers(Begin(s, t), i) && Begin(s, t).th.Reread?
  {
    hide Installable;
  }

  /** What does not disturb a pass leaves it as it was. */
  lemma EventProspers(w: World, e: EnvEvent, i: Inputs)
    requires Prospers(w, i) && Quiet(Env(e), i) && !Disturbs(w, Env(e))
    ensures Prospers(Step(w, Env(e)), i)
  {
    hide Installable, InPlace, Fresh, Progress, ReadyAt;
  }

  // ---- the budget

  /** The calls of the longest pass over these inputs. */
  function WholePass(i: Inputs): nat {
    17 + 3 * |i.config.pullSecrets|
  }

  /** How many calls the controller has left until the service is Ready, if nothing disturbs it: the rest of a pass that
      prospers, or the rest of whatever it is doing and then a whole pass. */
  ghost function ReadyBudget(w: World, i: Inputs): int {
    if Prospers(w, i) then Rank(w.th) else Rank(w.th) + WholePass(i)
  }

  lemma OnCourseInHand(w: World, i: Inputs)
    requires Steady(w, i)
    ensures Deletion.InHand(w.th) && Rank(w.th) <= 16 + 3 * |i.config.pullSecrets|
    ensures !w.th.Idle? ==> Rank(w.th) >= 1
  {
    hide Synced, Opts, Inspected;
  }

  lemma StepSpendsOn(w: World, e: Event, i: Inputs)
    requires Fit(w, i) && Quiet(e, i)
    ensures var w' := Step(w, e);
      Settled(w', i) || Bit(e.Ctl?) + ReadyBudget(w', i) <= ReadyBudget(w, i) + WholePass(i) * Bit(Disturbs(w, e))
  {
    var w' := Step(w, e);
    StepFit(w, e, i);
    OnCourseInHand(w, i);
    OnCourseInHand(w', i);
    if e.Env? {
      if Prospers(w, i) && !Disturbs(w, e) {
        EventProspers(w, e.e, i);
      }
    } else if w.th.Idle? {
      BeginSpends(w.s, e.t, i);
    } else {
      PassDescends(w.s, w.th, e.t);
      if Prospers(w, i) && !Disturbs(w, e) {
        ProspersOn(w, e, i);
      }
    }
    hide StepCtl, StepEnv, Rank, Disturbs, Begin, Deletion.InHand, Prospers, Settled, Steady, Installable;
  }

  lemma BeginSpends(s: Stores, t: Tick, i: Inputs)
    requires Fit(World(s, Idle), i)
    ensures !Disturbs(World(s, Idle), Ctl(t)) ==>
      Prospers(Begin(s, t), i) && Rank(Begin(s, t).th) == 16 + 3 * |i.config.pullSecrets|
    ensures Disturbs(World(s, Idle), Ctl(t)) ==> Rank(Begin(s, t).th) <= 1
    ensures !Prospers(World(s, Idle), i)
  {
    if !Disturbs(World(s, Idle), Ctl(t)) {
      BeginProspers(s, t, i);
    }
    hide Installable, SetCondition, LastOf, Smooth;
  }

  // ---- runs

  /** At some point of the run the service is settled. */
  ghost predicate GetsReady(w: World, es: seq<Event>, i: Inputs)
    decreases |es|
  {
    Settled(w, i) || (es != [] && GetsReady(Step(w, es[0]), es[1..], i))
  }

  lemma BudgetLeft(w: World, i: Inputs)
    requires Steady(w, i)
    ensures ReadyBudget(w, i) >= 1
  {
    OnCourseInHand(w, i);
    hide Prospers, Steady, Rank;
    ProspersBusy(w, i);
  }

  lemma ProspersBusy(w: World, i: Inputs)
    ensures Prospers(w, i) ==> !w.th.Idle?
  {
    hide Smooth;
  }

  lemma IdleBudget(w: World, i: Inputs)
    requires w.th.Idle?
    ensures ReadyBudget(w, i) == WholePass(i)
  {
    ProspersBusy(w, i);
    hide Prospers;
  }

  lemma {:induction false} RunRecovers(w: World, es: seq<Event>, i: Inputs)
    requires Fit(w, i) && AllQuiet(es, i) && Calls(es) >= ReadyBudget(w, i) + WholePass(i) * Disturbances(w, es)
    ensures GetsReady(w, es, i)
    decreases |es|
  {
    BudgetLeft(w, i);
    hide Fit, Steady, Step, Settled, ReadyBudget, WholePass, Disturbs, Quiet;
    Renewals(w, es, WholePass(i));
    if es != [] {
      assert Quiet(es[0], i);
      StepFit(w, es[0], i);
      StepSpendsOn(w, es[0], i);
      if !Settled(Step(w, es[0]), i) {
        RunRecovers(Step(w, es[0]), es[1..], i);
      }
    }
  }

  /** Each disturbance renews the budget once. */
  lemma Renewals(w: World, es: seq<Event>, n: nat)
    ensures n * Disturbances(w, es) ==
      if es == [] then 0 else n * Bit(Disturbs(w, es[0])) + n * Disturbances(Step(w, es[0]), es[1..])
  {
    hide Disturbs, Step;
    if es != [] {
      Distributes(n, Bit(Disturbs(w, es[0])), Disturbances(Step(w, es[0]), es[1..]));
    }
  }

  lemma Distributes(n: nat, a: nat, b: nat)
    ensures n * (a + b) == n * a + n * b
  {
  }

  /** A service becomes Ready. After any history, once its inputs are at rest and installable: every run in which the
      controller makes the calls of one pass, and of one more for each disturbance, comes to a point between two
      reconciles where all is in place, the finalizer is stored, and the status says Ready for the object as it is. */
  lemma BecomesReady(w: World, before: seq<Event>, es: seq<Event>, i: Inputs)
    requires Initial(w) && Run(w, before).th.Idle?
    requires AtRest(Run(w, before).s, i) && Installable(Run(w, before).s.plane.mcp, i) && AllQuiet(es, i)
    requires Calls(es) >= WholePass(i) * (1 + Disturbances(Run(w, before), es))
    ensures GetsReady(Run(w, before), es, i)
  {
    var v := Run(w, before);
    StatusRuns.RunKeeps(w, before);
    Distributes(WholePass(i), 1, Disturbances(v, es));
    IdleBudget(v, i);
    RunRecovers(v, es, i);
    hide Run, Installable, ReadyBudget, WholePass, Disturbances, Calls, GetsReady, Disturbs;
  }

  /** What is settled stays, as long as nothing disturbs the reconciles. */
  lemma {:induction false} ReadyRemains(w: World, es: seq<Event>, i: Inputs)
    requires Fit(w, i) && GetsReady(w, es, i) && Undisturbed(w, es)
    ensures var s := Run(w, es).s;
      && InPlace(s.plane.mcp, i) && s.obj.Some? && FINALIZER in s.obj.value.finalizers
      && ReadyAt(s.obj.value.status, s.obj.value.generation)
    decreases |es|
  {
    if Settled(w, i) {
      SecondPassChangesNothing(w, es, i);
    } else {
      StepFit(w, es[0], i);
      ReadyRemains(Step(w, es[0]), es[1..], i);
    }
    hide Step, InPlace, ReadyAt, Steady, Installable;
  }

  lemma {:induction false} UndisturbedCounts(w: World, es: seq<Event>, i: Inputs)
    requires Undisturbed(w, es)
    ensures AllQuiet(es, i) && Calls(es) == |es| && Disturbances(w, es) == 0
    decreases |es|
  {
    hide Step, Disturbs;
    if es != [] {
      UndisturbedCounts(Step(w, es[0]), es[1..], i);
    }
  }

  lemma TargetInPlace(m: Mcp, i: Inputs)
    requires InPlace(m, i)
    ensures m == Target(m, i)
  {
    hide Installable, Target;
  }

  lemma IdleFit(w: World, i: Inputs)
    requires w.th.Idle? && StatusRuns.Inv(w) && AtRest(w.s, i) && Installable(w.s.plane.mcp, i)
    ensures Fit(w, i)
  {
    hide Installable;
  }

  lemma UndisturbedEnds(v: World, es: seq<Event>, i: Inputs)
    requires Fit(v, i) && GetsReady(v, es, i) && Undisturbed(v, es)
    ensures var s := Run(v, es).s;
      && s.plane.mcp == Target(v.s.plane.mcp, i) && InPlace(s.plane.mcp, i) && AtRest(s, i)
      && FINALIZER in s.obj.value.finalizers && ReadyAt(s.obj.value.status, s.obj.value.generation)
  {
    UndisturbedCounts(v, es, i);
    ReadyRemains(v, es, i);
    RunSteady(v, es, i);
    TargetInPlace(Run(v, es).s.plane.mcp, i);
    SteadyRests(Run(v, es), i);
    hide Run, Installable, Target, ReadyAt, Undisturbed, InPlace, AtRest, GetsReady, OnCourse;
  }

  lemma SteadyRests(w: World, i: Inputs)
    requires Steady(w, i)
    ensures AtRest(w.s, i)
  {
    hide OnCourse;
  }

  /** And from the end of one undisturbed pass on, at every point, the control plane is the target computed from
      where it stood, and the status says Ready for the object as it is. */
  lemma ReadyInTheEnd(w: World, before: seq<Event>, es: seq<Event>, i: Inputs)
    requires Initial(w) && Run(w, before).th.Idle?
    requires AtRest(Run(w, before).s, i) && Installable(Run(w, before).s.plane.mcp, i)
    requires Undisturbed(Run(w, before), es) && |es| >= WholePass(i)
    ensures var s := Run(Run(w, before), es).s;
      && s.plane.mcp == Target(Run(w, before).s.plane.mcp, i) && InPlace(s.plane.mcp, i) && AtRest(s, i)
      && FINALIZER in s.obj.value.finalizers && ReadyAt(s.obj.value.status, s.obj.value.generation)
  {
    var v := Run(w, before);
    StatusRuns.RunKeeps(w, before);
    IdleFit(v, i);
    UndisturbedCounts(v, es, i);
    BecomesReady(w, before, es, i);
    UndisturbedEnds(v, es, i);
    hide Run, Installable, Target, ReadyAt, Undisturbed, InPlace, AtRest, GetsReady, Fit, StatusRuns.Inv;
  }
}
