/** How reconciles end: no object is forgotten while the poll interval is positive, and whoever asked for
    a delay first gets it. */
module Endings {
  import opened Kube
  import opened Api
  import opened Desired
  import opened StatusWrites
  import opened Machine

  // ---- what a reconcile has met

  /** The control plane refuses this write, or the platform has no such secret. */
  predicate Refused(p: Plane, platform: map<string, Secret>, c: Ctx, ns: string, d: DomainPoint) {
    match d
    case NamespaceCreate => ns in p.mcp.namespaces
    case PullSource(sources) => PullKey(c, ns, sources).name !in platform
    case PullCreate(sources, _) => ns !in p.mcp.namespaces || PullKey(c, ns, sources) in p.mcp.secrets
    case PullUpdate(sources, _, dst) => Lookup(p.mcp.secrets, PullKey(c, ns, sources)) != Some(dst)
    case DeploymentCreate(_, _, _, dep) =>
      ns !in p.mcp.namespaces || Key(ns, DEPLOYMENT) in p.mcp.deployments || !Admissible(dep)
    case DeploymentUpdate(_, _, _, was, dep) =>
      Lookup(p.mcp.deployments, Key(ns, DEPLOYMENT)) != Some(was) || !Admissible(dep)
    case ServiceCreate(_, _, _, _, _) => ns !in p.mcp.namespaces || Key(ns, SERVICE) in p.mcp.services
    case ServiceUpdate(_, _, _, _, was, _) => Lookup(p.mcp.services, Key(ns, SERVICE)) != Some(was)
    case _ => false
  }

  /** Cluster access is not what this call of clusters() takes for granted, or the access provider fails. */
  predicate NoAccess(q: Requests, at: AccessPoint, t: Tick) {
    match at
    case Renew => !RenewReply(q, t.reply) || t.reply.verdict.Failed?
    case McpCluster => t.fate != Ok || q.mcp != Granted
    case McpRequest => t.fate != Ok || q.mcp == Absent
    case WorkloadCluster => t.fate != Ok || q.workload != Granted
    case WorkloadRequest => t.fate != Ok || q.workload == Absent
  }

  /** This call fails: there is no config to go on with, the call or its answer fails, or a write is refused. A
      read that finds nothing does not fail, and a status patch is not asked how it went. */
  predicate Fails(s: Stores, th: Thread, t: Tick) {
    match th
    case Idle => t.fate != Ok || (s.obj.Some? && s.cache.None?)
    case Recreate(_) => true
    case AddFinalizer(c) => t.fate != Ok || s.obj != Some(c.seen) || c.seen.deleting
    case Accessing(_, _, at) => NoAccess(s.requests, at, t)
    case Installing(c, ns, d) => t.fate != Ok || Refused(s.plane, s.platform, c, ns, d)
    case Releasing(_) => !ReleaseReply(s.requests, t.reply) || t.reply.verdict.Failed?
    case DropFinalizer(c) => t.fate != Ok || s.obj != Some(c.seen)
    case NoConfigPatch(_, _) => false
    case Closing(_, _, _) => false
    case CleanedPatch(_, _) => false
    case _ => t.fate != Ok
  }

  function Positive(v: Verdict): Option<int> {
    if v.Settled? && v.delay > 0 then Some(v.delay) else None
  }

  /** The delay this call asks the reconcile to wait: the access provider's own, or the 30 seconds for missing
      prerequisites. */
  function Asks(s: Stores, th: Thread, t: Tick): Option<int> {
    match th
    case Accessing(_, _, Renew) => if RenewReply(s.requests, t.reply) then Positive(t.reply.verdict) else None
    case Releasing(_) => if ReleaseReply(s.requests, t.reply) then Positive(t.reply.verdict) else None
    case Installing(_, ns, SecretGet(_, found)) =>
      if t.fate == Ok && (found.None? || Key(ns, SECRET) !in s.plane.mcp.secrets) then Some(30) else None
    case _ => None
  }

  /** What to remember of the reconcile under way: the config it loaded, whether anything failed, and the delay it was
      asked for. */
  datatype Pass = Pass(config: Option<Config>, failed: bool, delay: Option<int>)

  const NOTHING := Pass(None, false, None)

  function Track(w: World, e: Event, p: Pass): Pass {
    if e.Env? then p
    else if w.th.Idle? then Pass(w.s.cache, Fails(w.s, w.th, e.t), None)
    else
      Pass(p.config, p.failed || Fails(w.s, w.th, e.t),
           if Asks(w.s, w.th, e.t).Some? then Asks(w.s, w.th, e.t) else p.delay)
  }

  ghost function TrackRun(w: World, es: seq<Event>, p: Pass): Pass
    decreases |es|
  {
    if es == [] then p else TrackRun(Step(w, es[0]), es[1..], Track(w, es[0], p))
  }

  // ---- what it ends as

  /** How often a config has its services looked after: as it says, or once a minute. */
  function Every(c: Config): int {
    match c.pollInterval
    case Some(interval) => interval
    case None => 60
  }

  /** What a reconcile that found its object ends as. */
  predicate EndsWell(last: Last, p: Pass) {
    match last
    case Never => false
    case Gone => false
    case Errored => p.failed
    case Requeue(after) =>
      !p.failed && p.config.Some? && after == (if p.delay.Some? then p.delay.value else Every(p.config.value))
  }

  /** A reconcile ended on its first call because there was no object. */
  predicate FoundNothing(w: World, t: Tick, w': World) {
    w.th.Idle? && t.fate == Ok && w.s.obj.None? && w'.th.Idle? && w'.s.history.last == Gone
  }

  predicate Agrees(res: Result, p: Pass) {
    match res
    case Fail => p.failed
    case Wait(d) => !p.failed && if d > 0 then p.delay == Some(d) else p.delay.None?
  }

  predicate Inv(th: Thread, p: Pass) {
    match th
    case Idle => true
    case NoConfigPatch(_, _) => p.failed
    case Closing(c, res, _) => p.config == Some(c.config) && Agrees(res, p)
    case CleanedPatch(c, failed) => p.config == Some(c.config) && p.failed == failed && p.delay.None?
    case _ => p.config == Some(th.c.config) && !p.failed && p.delay.None?
  }

  /** The thread goes on remembered, or has ended as it should. */
  predicate Ended(w: World, p: Pass) {
    Inv(w.th, p) && (w.th.Idle? ==> EndsWell(w.s.history.last, p))
  }

  lemma FinishEnds(s: Stores, config: Config, res: Result, p: Pass)
    requires Agrees(res, p) && (res.Wait? ==> p.config == Some(config))
    ensures Ended(Finish(s, config, res), p)
  {
  }

  lemma CloseEnds(s: Stores, c: Ctx, res: Result, evidence: Option<Evidence>, p: Pass)
    requires p.config == Some(c.config) && Agrees(res, p)
    ensures Ended(Close(s, c, res, evidence), p)
  {
    FinishEnds(s, c.config, res, p);
    hide Finish, EndsWell, Agrees;
  }

  /** A call of clusters() fails, asks for a delay, or goes on, as told above. */
  lemma AccessMet(s: Stores, c: Ctx, deleting: bool, at: AccessPoint, t: Tick)
    ensures var go := AccessCall(s.requests, at, t); var th := Accessing(c, deleting, at);
      && (go.AccessFailed? <==> Fails(s, th, t))
      && (go.AccessPending? ==> go.delay > 0 && Asks(s, th, t) == Some(go.delay))
      && (go.AccessNext? || go.AccessReady? ==> Asks(s, th, t) == None)
  {
    hide MayRenew;
  }

  lemma AccessEnds(s: Stores, c: Ctx, deleting: bool, at: AccessPoint, t: Tick, p: Pass)
    requires Inv(Accessing(c, deleting, at), p)
    ensures var w := World(s, Accessing(c, deleting, at));
      Ended(StepAccessing(s, c, deleting, at, t), Track(w, Ctl(t), p))
  {
    var p' := Track(World(s, Accessing(c, deleting, at)), Ctl(t), p);
    var go := AccessCall(s.requests, at, t);
    var s' := s.(requests := AccessEffect(s.requests, at, t));
    AccessMet(s, c, deleting, at, t);
    match go {
      case AccessNext(_) =>
      case AccessReady =>
      case AccessFailed =>
        CloseEnds(s', SetProgressing(c, "ClusterAccessError", "Failed to setup cluster access", t.now), Fail, None, p');
        FinishEnds(s', c.config, Fail, p');
      case AccessPending(d) =>
        CloseEnds(s', SetProgressing(c, "Reconciling", "Setting up cluster access", t.now), Wait(d), None, p');
        FinishEnds(s', c.config, Wait(d), p');
    }
    hide AccessCall, AccessEffect, Finish, Close, EndsWell, ResolveNamespace, Fails, Asks, SetCondition;
  }

  /** So does a call of the install. */
  lemma InstallMet(s: Stores, c: Ctx, ns: string, d: DomainPoint, t: Tick)
    ensures var go := DomainCall(s.plane, s.platform, c, ns, d, t).go; var th := Installing(c, ns, d);
      && (go.Abort? <==> Fails(s, th, t))
      && Asks(s, th, t) == if go.Await? then Some(30) else None
  {
    hide HashOpts, MutateDeployment, MutateService, SyncSecret, PullNext, Admissible, Missing,
      MakeDeployment, PutDeployment, MakeService, PutService, PutSecret, PutNamespace;
  }

  lemma InstallEnds(s: Stores, c: Ctx, ns: string, d: DomainPoint, t: Tick, p: Pass)
    requires Inv(Installing(c, ns, d), p)
    ensures var w := World(s, Installing(c, ns, d)); Ended(StepInstalling(s, c, ns, d, t), Track(w, Ctl(t), p))
  {
    var p' := Track(World(s, Installing(c, ns, d)), Ctl(t), p);
    var call := DomainCall(s.plane, s.platform, c, ns, d, t);
    var s' := s.(plane := call.plane, history := NoteAll(s.history, call.act));
    InstallMet(s, c, ns, d, t);
    match call.go {
      case Continue(_) =>
      case Abort => CloseEnds(s', c, Fail, None, p');
      case Await(message) => CloseEnds(s', SetProgressing(c, "WaitingForPrerequisites", message, t.now),
          Wait(WAITING), None, p');
      case Installed(evidence) => CloseEnds(s', SetReady(c, t.now), Wait(0), Some(evidence), p');
    }
    hide DomainCall, Close, EndsWell, Fails, Asks, SetProgressing, SetReady;
  }

  lemma ReleaseEnds(s: Stores, c: Ctx, t: Tick, p: Pass)
    requires Inv(Releasing(c), p)
    ensures Ended(StepReleasing(s, c, t), Track(World(s, Releasing(c)), Ctl(t), p))
  {
    hide ReleaseReply;
  }

  lemma BeginEnds(s: Stores, t: Tick, p: Pass)
    ensures Ended(Begin(s, t), Track(World(s, Idle), Ctl(t), p)) || FoundNothing(World(s, Idle), t, Begin(s, t))
    ensures t.fate == Ok && s.obj.None? ==> FoundNothing(World(s, Idle), t, Begin(s, t))
  {
    hide SetCondition;
  }

  lemma OtherEnds(s: Stores, th: Thread, t: Tick, p: Pass)
    requires Inv(th, p) && !th.Idle? && !th.Accessing? && !th.Installing? && !th.Releasing?
    ensures Ended(StepCtl(s, th, t), Track(World(s, th), Ctl(t), p))
  {
    hide PatchStatus, PatchLands, ResolveNamespace;
  }

  lemma StepEnds(w: World, e: Event, p: Pass)
    requires Inv(w.th, p)
    ensures Inv(Step(w, e).th, Track(w, e, p))
    ensures e.Ctl? ==> Ended(Step(w, e), Track(w, e, p)) || FoundNothing(w, e.t, Step(w, e))
    ensures e.Ctl? && w.th.Idle? && e.t.fate == Ok && w.s.obj.None? ==> FoundNothing(w, e.t, Step(w, e))
  {
    if e.Ctl? {
      match w.th
      case Idle => BeginEnds(w.s, e.t, p);
      case Accessing(c, deleting, at) => AccessEnds(w.s, c, deleting, at, e.t, p);
      case Installing(c, ns, d) => InstallEnds(w.s, c, ns, d, e.t, p);
      case Releasing(c) => ReleaseEnds(w.s, c, e.t, p);
      case _ => OtherEnds(w.s, w.th, e.t, p);
    }
    hide Begin, StepAccessing, StepInstalling, StepReleasing, EndsWell, StepEnv, Track, StepNoConfigPatch,
      StepReread, StepRecreate, StepAddFinalizer, StepClosing, StepCheckMcpRequest, StepCheckWorkloadRequest,
      StepCleaning, StepCleanedPatch, StepDropFinalizer, Agrees;
  }

  lemma {:induction false} RunEnds(w: World, es: seq<Event>, p: Pass)
    requires Inv(w.th, p)
    ensures Inv(Run(w, es).th, TrackRun(w, es, p))
    decreases |es|
  {
    hide Inv, Step, Track;
    if es != [] {
      StepEnds(w, es[0], p);
      RunEnds(Step(w, es[0]), es[1..], Track(w, es[0], p));
    }
  }

  /** Over every run, a reconcile that returns is an error exactly if it had no config, a call or an answer of it
      failed, or a write was refused. It reports the object gone exactly if its first read found none. And else it
      is requeued, after the delay the access provider or the domain asked for, if one did, or after the interval
      of the config it loaded, a minute if that has none. */
  lemma ReturnsExactly(w: World, es: seq<Event>, t: Tick)
    requires Initial(w) && Step(Run(w, es), Ctl(t)).th.Idle?
    ensures var b := Run(w, es); var last := Step(b, Ctl(t)).s.history.last;
      var p := Track(b, Ctl(t), TrackRun(w, es, NOTHING));
      && (last == Errored <==> p.failed)
      && (last == Gone <==> b.th.Idle? && b.s.obj.None? && t.fate == Ok)
      && (last.Requeue? <==> !p.failed && last != Gone)
      && (last.Requeue? ==>
            && p.config.Some?
            && last.after == (if p.delay.Some? then p.delay.value
                              else if p.config.value.pollInterval.Some? then p.config.value.pollInterval.value
                              else 60))
  {
    var b := Run(w, es);
    RunEnds(w, es, NOTHING);
    StepEnds(b, Ctl(t), TrackRun(w, es, NOTHING));
    if FoundNothing(b, t, Step(b, Ctl(t))) {
      NothingFound(b, t, TrackRun(w, es, NOTHING));
    }
    hide Step, Track, Run;
  }

  /** To find nothing is no failure. */
  lemma NothingFound(w: World, t: Tick, p: Pass)
    requires FoundNothing(w, t, Step(w, Ctl(t)))
    ensures !Track(w, Ctl(t), p).failed
  {
  }

  // ---- nothing is forgotten

  predicate Polls(c: Option<Config>) {
    c.Some? ==> Every(c.value) > 0
  }

  /** Every config the operators publish polls. */
  predicate OnlyPolling(es: seq<Event>) {
    forall e | e in es :: e.Env? && e.e.ConfigStored? ==> Polls(e.e.config)
  }

  predicate Remembered(w: World, p: Pass) {
    Polls(w.s.cache) && Polls(p.config) && (p.delay.Some? ==> p.delay.value > 0)
  }

  lemma CtlKeepsCache(s: Stores, th: Thread, t: Tick)
    ensures StepCtl(s, th, t).s.cache == s.cache
  {
    hide DomainCall, Cleanup, AccessCall, AccessEffect, ResolveNamespace, PatchLands, MergedInto, LastOf;
  }

  lemma StepRemembers(w: World, e: Event, p: Pass)
    requires Remembered(w, p) && OnlyPolling([e])
    ensures Remembered(Step(w, e), Track(w, e, p))
  {
    assert e in [e];
    if e.Ctl? {
      CtlKeepsCache(w.s, w.th, e.t);
    }
    hide StepCtl, ObjectEvent, PlaneEvent, RequestsEvent, Every, RenewReply, ReleaseReply, Fails;
  }

  lemma {:induction false} RunRemembers(w: World, es: seq<Event>, p: Pass)
    requires Remembered(w, p) && OnlyPolling(es)
    ensures Remembered(Run(w, es), TrackRun(w, es, p))
    decreases |es|
  {
    hide Remembered, Step, Track, Polls;
    if es != [] {
      assert OnlyPolling([es[0]]);
      assert OnlyPolling(es[1..]);
      StepRemembers(w, es[0], p);
      RunRemembers(Step(w, es[0]), es[1..], Track(w, es[0], p));
    }
  }

  /** With configs that poll, every reconcile of an object that returns has failed or is requeued
      after a positive delay. */
  lemma NothingForgotten(w: World, es: seq<Event>, t: Tick)
    requires Initial(w) && OnlyPolling(es)
    ensures var b := Run(w, es); var w' := Step(b, Ctl(t)); var last := w'.s.history.last;
      w'.th.Idle? ==> FoundNothing(b, t, w') || last == Errored || (last.Requeue? && last.after > 0)
  {
    RunEnds(w, es, NOTHING);
    StepEnds(Run(w, es), Ctl(t), TrackRun(w, es, NOTHING));
    RunRemembers(w, es, NOTHING);
    StepRemembers(Run(w, es), Ctl(t), TrackRun(w, es, NOTHING));
    hide Step, Track, Run;
  }

  predicate DelayPositive(p: Pass) {
    p.delay.Some? ==> p.delay.value > 0
  }

  lemma {:induction false} RunDelays(w: World, es: seq<Event>, p: Pass)
    requires DelayPositive(p)
    ensures DelayPositive(TrackRun(w, es, p))
    decreases |es|
  {
    hide Step;
    if es != [] {
      RunDelays(Step(w, es[0]), es[1..], Track(w, es[0], p));
    }
  }

  /** And exactly then: a reconcile that returns without an error and without a requeue of its own accord is one that
      was asked for no delay, on a config that does not poll. */
  lemma ForgottenExactlyWithoutPolling(w: World, es: seq<Event>, t: Tick)
    requires Initial(w) && Step(Run(w, es), Ctl(t)).th.Idle? && Step(Run(w, es), Ctl(t)).s.history.last.Requeue?
    ensures var p := Track(Run(w, es), Ctl(t), TrackRun(w, es, NOTHING));
      && p.config.Some?
      && (Step(Run(w, es), Ctl(t)).s.history.last.after <= 0 <==> p.delay.None? && Every(p.config.value) <= 0)
  {
    ReturnsExactly(w, es, t);
    RunDelays(w, es + [Ctl(t)], NOTHING);
    TrackLast(w, es, t, NOTHING);
    hide Step, Track, Run;
  }

  lemma {:induction false} TrackLast(w: World, es: seq<Event>, t: Tick, p: Pass)
    ensures TrackRun(w, es + [Ctl(t)], p) == Track(Run(w, es), Ctl(t), TrackRun(w, es, p))
    decreases |es|
  {
    hide Step, Track;
    if es == [] {
      assert es + [Ctl(t)] == [Ctl(t)];
      assert TrackRun(Step(w, Ctl(t)), [], Track(w, Ctl(t), p)) == Track(w, Ctl(t), p);
      assert [Ctl(t)][1..] == [];
    } else {
      assert (es + [Ctl(t)])[1..] == es[1..] + [Ctl(t)];
      TrackLast(Step(w, es[0]), es[1..], t, Track(w, es[0], p));
    }
  }
}
