/** The finalizer holds the service object in place from before the first access request until after the last one is
    given up, so that a reconcile in between keeps working on the incarnation it read. */
module Guard {
  import opened Kube
  import opened Api
  import opened Machine
  import opened Frame

  predicate Guarded(s: Stores) {
    s.obj.Some? && FINALIZER in s.obj.value.finalizers
  }

  predicate AccessHeld(q: Requests) {
    q.mcp == Granted && (q.withWorkload ==> q.workload == Granted)
  }

  predicate AccessAlive(q: Requests) {
    q.mcp in {Pending, Granted} || (q.withWorkload && q.workload in {Pending, Granted})
  }

  /** The stored object is the incarnation the thread last read, and the finalizer keeps it there. */
  predicate Pinned(s: Stores, c: Ctx) {
    Guarded(s) && s.obj.value.uid == c.seen.uid
  }

  predicate ThreadInv(s: Stores, th: Thread) {
    match th
    case AddFinalizer(c) => FINALIZER in c.obj.finalizers && c.obj.status == c.seen.status
    case CheckMcpRequest(c) => AccessAlive(s.requests) ==> Pinned(s, c)
    case CheckWorkloadRequest(c) => Pinned(s, c) && s.requests.withWorkload
    case Accessing(c, deleting, at) => Pinned(s, c) && (at != Renew ==> AccessHeld(s.requests))
    case Installing(c, ns, d) => Pinned(s, c) && AccessHeld(s.requests) && PullInHand(c, d)
    case Closing(c, res, evidence) => Pinned(s, c) || c.obj.status == c.seen.status
    case Cleaning(c, ns, p) => Pinned(s, c) && AccessHeld(s.requests)
    case CleanedPatch(c, failed) => Pinned(s, c)
    case DropFinalizer(c) => !AccessAlive(s.requests)
    case Reread(c) => c.obj == c.seen == c.base
    case Recreate(c) => c.obj == c.seen == c.base
    case _ => true
  }

  predicate Inv(w: World) {
    (AccessAlive(w.s.requests) ==> Guarded(w.s)) && ThreadInv(w.s, w.th)
  }

  // ---- the environment

  lemma EventKeepsGuard(s: Stores, e: EnvEvent)
    requires Guarded(s) && Tame(Env(e))
    ensures Guarded(StepEnv(s, e)) && StepEnv(s, e).obj.value.uid == s.obj.value.uid
  {
  }

  lemma EventKeepsAccess(q: Requests, e: EnvEvent)
    requires Tame(Env(e))
    ensures var q' := RequestsEvent(q, e);
      (AccessHeld(q) ==> AccessHeld(q')) && (AccessAlive(q') ==> AccessAlive(q)) && q'.withWorkload == q.withWorkload
  {
  }

  lemma EnvKeeps(w: World, e: EnvEvent)
    requires Inv(w) && Tame(Env(e))
    ensures Inv(Step(w, Env(e)))
  {
    EventKeepsAccess(w.s.requests, e);
    if Guarded(w.s) {
      EventKeepsGuard(w.s, e);
    }
    hide ObjectEvent, PlaneEvent, RequestsEvent, PullInHand;
  }

  // ---- the controller

  lemma BeginKeeps(s: Stores, t: Tick)
    requires AccessAlive(s.requests) ==> Guarded(s)
    ensures Inv(Begin(s, t))
  {
  }

  lemma FinalizerKeeps(s: Stores, th: Thread, t: Tick)
    requires Inv(World(s, th)) && (th.Reread? || th.Recreate? || th.AddFinalizer?)
    ensures Inv(StepCtl(s, th, t))
  {
  }

  lemma PatchKeeps(s: Stores, c: Ctx, evidence: Option<Evidence>, fate: Fate)
    ensures var s' := PatchStatus(s, c, evidence, fate);
      && s'.plane == s.plane && s'.requests == s.requests && (Guarded(s) <==> Guarded(s'))
      && (Guarded(s) ==> s'.obj.value.uid == s.obj.value.uid)
  {
    hide Merge;
  }

  lemma PatchesKeep(s: Stores, th: Thread, t: Tick)
    requires Inv(World(s, th)) && (th.NoConfigPatch? || th.Closing? || th.CleanedPatch?)
    ensures Inv(StepCtl(s, th, t))
  {
    match th
    case NoConfigPatch(base, obj) => PatchKeeps(s, Ctx(base, base, obj, NO_CONFIG), None, t.fate);
    case Closing(c, res, evidence) => PatchKeeps(s, c, evidence, t.fate);
    case CleanedPatch(c, failed) => PatchKeeps(s, c, None, t.fate);
    hide PatchStatus, PatchLands, Merge;
  }

  lemma AccessCallSound(q: Requests, at: AccessPoint, t: Tick)
    requires at != Renew ==> AccessHeld(q)
    ensures var q' := AccessEffect(q, at, t);
      && (AccessHeld(q) ==> AccessHeld(q')) && q'.withWorkload == q.withWorkload
      && (var go := AccessCall(q, at, t);
          go.AccessNext? || go.AccessReady? ==> AccessHeld(q') && (go.AccessNext? ==> go.at != Renew))
  {
  }

  lemma AccessKeeps(s: Stores, c: Ctx, deleting: bool, at: AccessPoint, t: Tick)
    requires Inv(World(s, Accessing(c, deleting, at)))
    ensures Inv(StepAccessing(s, c, deleting, at, t))
  {
    AccessCallSound(s.requests, at, t);
    hide AccessCall, AccessEffect, SetProgressing, SetTerminating, ResolveNamespace;
  }

  lemma ContinueInHand(p: Plane, platform: map<string, Secret>, c: Ctx, ns: string, d: DomainPoint, t: Tick)
    requires PullInHand(c, d)
    ensures var go := DomainCall(p, platform, c, ns, d, t).go; go.Continue? ==> PullInHand(c, go.d)
  {
    hide HashOpts, MakeDeployment, PutDeployment, MakeService, PutService, PutSecret, PutNamespace;
  }

  lemma AfterCallKeeps(s: Stores, c: Ctx, ns: string, go: DomainGo, now: int)
    requires Pinned(s, c) && AccessHeld(s.requests)
    requires go.Continue? ==> PullInHand(c, go.d)
    ensures Inv(AfterCall(s, c, ns, go, now))
  {
    hide PullInHand;
  }

  lemma InstallKeeps(s: Stores, c: Ctx, ns: string, d: DomainPoint, t: Tick)
    requires Inv(World(s, Installing(c, ns, d)))
    ensures Inv(StepInstalling(s, c, ns, d, t))
  {
    var call := DomainCall(s.plane, s.platform, c, ns, d, t);
    ContinueInHand(s.plane, s.platform, c, ns, d, t);
    AfterCallKeeps(s.(plane := call.plane, history := NoteAll(s.history, call.act)), c, ns, call.go, t.now);
    hide DomainCall, AfterCall, PullInHand;
  }

  lemma CleaningKeeps(s: Stores, c: Ctx, ns: string, at: CleanupPoint, t: Tick)
    requires Inv(World(s, Cleaning(c, ns, at)))
    ensures Inv(StepCleaning(s, c, ns, at, t))
  {
    hide Cleanup;
  }

  lemma CheckKeeps(s: Stores, th: Thread, t: Tick)
    requires Inv(World(s, th)) && (th.CheckMcpRequest? || th.CheckWorkloadRequest?)
    ensures Inv(StepCtl(s, th, t))
  {
  }

  lemma ReleaseKeeps(s: Stores, th: Thread, t: Tick)
    requires Inv(World(s, th)) && (th.Releasing? || th.DropFinalizer?)
    ensures Inv(StepCtl(s, th, t))
  {
  }

  lemma CtlKeeps(s: Stores, th: Thread, t: Tick)
    requires Inv(World(s, th))
    ensures Inv(StepCtl(s, th, t))
  {
    match th
    case Idle => BeginKeeps(s, t);
    case NoConfigPatch(_, _) => PatchesKeep(s, th, t);
    case Reread(c) => FinalizerKeeps(s, th, t);
    case Recreate(c) => FinalizerKeeps(s, th, t);
    case AddFinalizer(c) => FinalizerKeeps(s, th, t);
    case Accessing(c, deleting, at) => AccessKeeps(s, c, deleting, at, t);
    case Installing(c, n, d) => InstallKeeps(s, c, n, d, t);
    case Closing(_, _, _) => PatchesKeep(s, th, t);
    case CheckMcpRequest(c) => CheckKeeps(s, th, t);
    case CheckWorkloadRequest(c) => CheckKeeps(s, th, t);
    case Cleaning(c, n, p) => CleaningKeeps(s, c, n, p, t);
    case CleanedPatch(_, _) => PatchesKeep(s, th, t);
    case Releasing(c) => ReleaseKeeps(s, th, t);
    case DropFinalizer(c) => ReleaseKeeps(s, th, t);
    hide Begin, StepAccessing, StepInstalling, StepCleaning;
  }

  lemma StepKeeps(w: World, e: Event)
    requires Inv(w) && Tame(e)
    ensures Inv(Step(w, e))
  {
    match e
    case Env(e) => EnvKeeps(w, e);
    case Ctl(t) => CtlKeeps(w.s, w.th, t);
    hide StepCtl, StepEnv, ThreadInv;
  }

  lemma {:induction false} RunKeeps(w: World, es: seq<Event>)
    requires Inv(w) && AllTame(es)
    ensures Inv(Run(w, es))
    decreases |es|
  {
    hide Inv, Step;
    if es != [] {
      assert Tame(es[0]);
      StepKeeps(w, es[0]);
      RunKeeps(Step(w, es[0]), es[1..]);
    }
  }

  /** In every reachable state a live access request has a finalized service object above it. */
  lemma NoAccessWithoutObject(w: World, es: seq<Event>)
    requires Initial(w) && AllTame(es)
    ensures AccessAlive(Run(w, es).s.requests) ==> Guarded(Run(w, es).s)
  {
    RunKeeps(w, es);
  }
}
