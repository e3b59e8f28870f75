/** Deletion terminates: a budget of API calls, renewed only by what disturbs a delete, runs out unless the
    controller's finalizer goes. */
module Deletion {
  import opened Kube
  import opened Api
  import opened Machine
  import opened Desired
  import opened Frame
  import Guard

  /** Incarnation `uid` is being deleted and still held by our finalizer. */
  predicate Held(s: Stores, uid: nat) {
    s.obj.Some? && s.obj.value.uid == uid && s.obj.value.deleting && FINALIZER in s.obj.value.finalizers
  }

  /** It is gone, or held by others only. */
  predicate Released(s: Stores, uid: nat) {
    && uid < s.nextUid
    && (s.obj.Some? && s.obj.value.uid == uid ==> s.obj.value.deleting && FINALIZER !in s.obj.value.finalizers)
  }

  // ---- every pass ends

  function InstallRank(c: Ctx, d: DomainPoint): int {
    var n := |c.config.pullSecrets|;
    match d
    case NamespaceGet => 9 + 3 * n
    case NamespaceCreate => 8 + 3 * n
    case PullSource(sources) => 7 + 3 * (n - |sources|)
    case PullGet(sources, _) => 6 + 3 * (n - |sources|)
    case PullCreate(sources, _) => 5 + 3 * (n - |sources|)
    case PullUpdate(sources, _, _) => 5 + 3 * (n - |sources|)
    case ConfigMapGet(_) => 7
    case SecretGet(_, _) => 6
    case DeploymentGet(_, _, _) => 5
    case DeploymentCreate(_, _, _, _) => 4
    case DeploymentUpdate(_, _, _, _, _) => 4
    case ServiceGet(_, _, _, _) => 3
    case ServiceCreate(_, _, _, _, _) => 2
    case ServiceUpdate(_, _, _, _, _, _) => 2
  }

  function AccessRank(at: AccessPoint): nat {
    match at
    case Renew => 5
    case McpCluster => 4
    case McpRequest => 3
    case WorkloadCluster => 2
    case WorkloadRequest => 1
  }

  function CleanupRank(p: CleanupPoint): nat {
    match p
    case CleanDeploymentGet => 7
    case CleanDeployment => 6
    case CleanServiceGet => 5
    case CleanService => 4
  }

  /** How many calls a pass can still make from here. */
  function Rank(th: Thread): int {
    match th
    case Idle => 0
    case NoConfigPatch(_, _) => 1
    case Reread(c) => 16 + 3 * |c.config.pullSecrets|
    case Recreate(_) => 2
    case AddFinalizer(c) => 15 + 3 * |c.config.pullSecrets|
    case Accessing(c, deleting, at) => AccessRank(at) + (if deleting then 7 else 9 + 3 * |c.config.pullSecrets|)
    case Installing(c, _, d) => InstallRank(c, d)
    case Closing(_, _, _) => 1
    case CheckMcpRequest(_) => DELETE_CALLS
    case CheckWorkloadRequest(_) => 13
    case Cleaning(_, _, p) => CleanupRank(p)
    case CleanedPatch(_, _) => 3
    case Releasing(_) => 2
    case DropFinalizer(_) => 1
  }

  /** The calls of the longest delete, its first read aside. */
  const DELETE_CALLS := 14

  /** A thread that syncs pull secrets has one in hand. */
  predicate InHand(th: Thread) {
    th.Installing? ==> PullInHand(th.c, th.d)
  }

  lemma RankPositive(th: Thread)
    requires InHand(th) && !th.Idle?
    ensures Rank(th) >= 1
  {
  }

  lemma CallDescends(p: Plane, platform: map<string, Secret>, c: Ctx, ns: string, d: DomainPoint, t: Tick)
    requires PullInHand(c, d)
    ensures var go := DomainCall(p, platform, c, ns, d, t).go;
      InstallRank(c, d) >= 2 && (go.Continue? ==> InstallRank(c, go.d) < InstallRank(c, d))
  {
    hide HashOpts, MakeDeployment, PutDeployment, MakeService, PutService, PutSecret, PutNamespace, SyncSecret,
      Admissible;
  }

  lemma InstallDescends(s: Stores, c: Ctx, ns: string, d: DomainPoint, t: Tick)
    requires PullInHand(c, d)
    ensures Rank(StepInstalling(s, c, ns, d, t).th) < InstallRank(c, d)
  {
    CallDescends(s.plane, s.platform, c, ns, d, t);
    hide DomainCall, InstallRank, LastOf;
  }

  lemma OtherDescends(s: Stores, th: Thread, t: Tick)
    requires !th.Idle? && !th.Installing?
    ensures Rank(StepCtl(s, th, t).th) < Rank(th)
  {
    hide PatchLands, MergedInto, LastOf, ResolveNamespace, RenewReply, ReleaseReply;
  }

  /** Every call of the controller brings its pass nearer to the end, whatever the call returns. */
  lemma PassDescends(s: Stores, th: Thread, t: Tick)
    requires InHand(th) && !th.Idle?
    ensures Rank(StepCtl(s, th, t).th) < Rank(th)
  {
    if th.Installing? {
      InstallDescends(s, th.c, th.ns, th.d, t);
    } else {
      OtherDescends(s, th, t);
    }
    hide StepInstalling, PullInHand;
  }

  // ---- undisturbed deletes

  predicate Deleting(th: Thread) {
    || th.CheckMcpRequest? || th.CheckWorkloadRequest? || (th.Accessing? && th.deleting) || th.Cleaning?
    || (th.CleanedPatch? && !th.failed) || th.Releasing? || th.DropFinalizer?
  }

  /** A delete whose object is stored just as it last read it, and whose access holds. */
  predicate Clean(s: Stores, th: Thread) {
    && Deleting(th) && s.obj == Some(th.c.seen) && th.c.obj.finalizers == th.c.seen.finalizers
    && (th.Accessing? && th.at != Renew ==> Guard.AccessHeld(s.requests))
    && (th.Accessing? && (th.at.WorkloadCluster? || th.at.WorkloadRequest?) ==> s.requests.withWorkload)
  }

  /** What can keep a pass from finishing: somebody changes the object or interferes with the access requests, the
      process restarts, no config is loaded, a call fails, or the access provider fails or asks for more time. */
  predicate Disturbs(w: World, e: Event) {
    match e
    case Env(e) =>
      || e.Crash? || ObjectEvent(w.s.obj, w.s.nextUid, e) != w.s.obj
      || (e.AccessTamper? && RequestsEvent(w.s.requests, e) != w.s.requests)
    case Ctl(t) =>
      match w.th
      case Idle => t.fate != Ok || w.s.cache.None?
      case Accessing(_, _, Renew) => !RenewReply(w.s.requests, t.reply) || !Finished(t.reply.verdict)
      case Releasing(_) => !ReleaseReply(w.s.requests, t.reply) || !Finished(t.reply.verdict)
      case _ => t.fate != Ok
  }

  /** Only the controller acts, and nothing disturbs it. */
  ghost predicate Undisturbed(w: World, es: seq<Event>)
    decreases |es|
  {
    es != [] ==> es[0].Ctl? && !Disturbs(w, es[0]) && Undisturbed(Step(w, es[0]), es[1..])
  }

  lemma CleanAccess(s: Stores, c: Ctx, at: AccessPoint, t: Tick)
    requires Clean(s, Accessing(c, true, at))
    requires !Disturbs(World(s, Accessing(c, true, at)), Ctl(t))
    ensures var w := StepAccessing(s, c, true, at, t); Clean(w.s, w.th)
  {
    hide ResolveNamespace, MayRenew, MayRelease;
  }

  lemma CleanCleanup(s: Stores, c: Ctx, ns: string, p: CleanupPoint, t: Tick)
    requires Clean(s, Cleaning(c, ns, p)) && t.fate == Ok
    ensures var w := StepCleaning(s, c, ns, p, t); Clean(w.s, w.th)
  {
  }

  lemma CleanPatch(s: Stores, c: Ctx, t: Tick)
    requires Clean(s, CleanedPatch(c, false)) && t.fate == Ok
    ensures var w := StepCleanedPatch(s, c, false, t); Clean(w.s, w.th)
  {
    hide Merge, ValidStatus;
  }

  /** Undisturbed, a delete goes on or releases the object. */
  lemma CleanGoesOn(s: Stores, th: Thread, t: Tick, uid: nat)
    requires Held(s, uid) && Clean(s, th) && !Disturbs(World(s, th), Ctl(t))
    ensures var w := StepCtl(s, th, t); Clean(w.s, w.th) || !Held(w.s, uid)
  {
    match th {
      case Accessing(c, deleting, at) => CleanAccess(s, c, at, t);
      case Cleaning(c, ns, p) => CleanCleanup(s, c, ns, p, t);
      case CleanedPatch(c, failed) => CleanPatch(s, c, t);
      case _ =>
    }
    hide StepAccessing, StepCleaning, StepCleanedPatch, LastOf, MayRelease;
  }

  lemma CleanBegins(s: Stores, t: Tick, uid: nat)
    requires Held(s, uid) && !Disturbs(World(s, Idle), Ctl(t))
    ensures var w := Begin(s, t); Clean(w.s, w.th) && Rank(w.th) == DELETE_CALLS
  {
  }

  lemma EventSpares(w: World, e: EnvEvent)
    requires !Disturbs(w, Env(e))
    ensures var w' := Step(w, Env(e)); w'.th == w.th && (Clean(w.s, w.th) ==> Clean(w'.s, w'.th))
  {
    hide ObjectEvent, PlaneEvent;
  }

  // ---- the budget

  const PASS := DELETE_CALLS + 1
  const RENEWAL := DELETE_CALLS + PASS + 1

  /** How many calls the controller has left to release the object, if nothing disturbs it: the rest of an undisturbed
      delete, or the rest of whatever it is doing and then a whole delete. */
  function Budget(w: World): int {
    if Clean(w.s, w.th) then Rank(w.th) else Rank(w.th) + PASS
  }

  function Bit(b: bool): nat { if b then 1 else 0 }

  lemma StepSpends(w: World, e: Event, uid: nat)
    requires InHand(w.th) && Held(w.s, uid)
    ensures Held(Step(w, e).s, uid) ==> Bit(e.Ctl?) + Budget(Step(w, e)) <= Budget(w) + RENEWAL * Bit(Disturbs(w, e))
  {
    var w' := Step(w, e);
    if e.Env? {
      if !Disturbs(w, e) {
        EventSpares(w, e.e);
      }
      RankBounded(w.th);
    } else if w.th.Idle? {
      BeginRank(w.s, e.t, uid);
      if !Disturbs(w, e) {
        CleanBegins(w.s, e.t, uid);
      }
    } else {
      PassDescends(w.s, w.th, e.t);
      RankBounded(w.th);
      if Clean(w.s, w.th) && !Disturbs(w, e) {
        CleanGoesOn(w.s, w.th, e.t, uid);
      }
    }
    hide StepCtl, StepEnv, Rank, Disturbs, Begin, InHand;
  }

  lemma RankBounded(th: Thread)
    ensures Deleting(th) ==> Rank(th) <= DELETE_CALLS
  {
  }

  lemma BeginRank(s: Stores, t: Tick, uid: nat)
    requires Held(s, uid)
    ensures Rank(Begin(s, t).th) <= DELETE_CALLS
    ensures !(Clean(s, Idle))
  {
  }

  // ---- runs

  /** Incarnations are numbered in order. */
  predicate Numbered(s: Stores) {
    s.obj.Some? ==> s.obj.value.uid < s.nextUid
  }

  lemma StepNumbered(w: World, e: Event)
    requires Numbered(w.s) && InHand(w.th)
    ensures Numbered(Step(w, e).s) && InHand(Step(w, e).th)
  {
    match e {
      case Env(e) => EventNumbered(w.s, e);
      case Ctl(t) =>
        if w.th.Installing? {
          InstallNumbered(w.s, w.th.c, w.th.ns, w.th.d, t);
        } else {
          CtlNumbered(w.s, w.th, t);
        }
    }
    hide StepEnv, StepInstalling, InHand, Numbered;
  }

  lemma EventNumbered(s: Stores, e: EnvEvent)
    requires Numbered(s)
    ensures Numbered(StepEnv(s, e)) && InHand(Idle)
  {
    hide PlaneEvent, RequestsEvent;
  }

  lemma InstallNumbered(s: Stores, c: Ctx, ns: string, d: DomainPoint, t: Tick)
    requires Numbered(s) && PullInHand(c, d)
    ensures var w := StepInstalling(s, c, ns, d, t); Numbered(w.s) && InHand(w.th)
  {
    Guard.ContinueInHand(s.plane, s.platform, c, ns, d, t);
    hide DomainCall, PullInHand, LastOf;
  }

  lemma CtlNumbered(s: Stores, th: Thread, t: Tick)
    requires Numbered(s) && !th.Installing?
    ensures var w := StepCtl(s, th, t); Numbered(w.s) && InHand(w.th)
  {
    hide Cleanup, AccessCall, AccessEffect, ResolveNamespace, ValidStatus, Merge, LastOf;
  }

  lemma ReleasedStays(w: World, e: Event, uid: nat)
    requires Released(w.s, uid)
    ensures Released(Step(w, e).s, uid)
  {
    if e.Env? {
      EventKeepsReleased(w.s, e.e, uid);
    } else {
      CtlKeepsReleased(w.s, w.th, e.t, uid);
    }
    hide StepCtl, StepEnv;
  }

  lemma EventKeepsReleased(s: Stores, e: EnvEvent, uid: nat)
    requires Released(s, uid)
    ensures Released(StepEnv(s, e), uid)
  {
    hide PlaneEvent, RequestsEvent;
  }

  lemma CtlKeepsReleased(s: Stores, th: Thread, t: Tick, uid: nat)
    requires Released(s, uid)
    ensures Released(StepCtl(s, th, t).s, uid)
  {
    hide DomainCall, Cleanup, AccessCall, AccessEffect, ResolveNamespace, ValidStatus, Merge, LastOf;
  }

  /** A held object stays held until it is released: its deletion cannot be taken back. */
  lemma HeldOrReleased(w: World, e: Event, uid: nat)
    requires Numbered(w.s) && Held(w.s, uid)
    ensures Held(Step(w, e).s, uid) || Released(Step(w, e).s, uid)
  {
    if e.Env? {
      EventHeldOrReleased(w.s, e.e, uid);
    } else {
      CtlHeldOrReleased(w.s, w.th, e.t, uid);
    }
    hide StepCtl, StepEnv;
  }

  lemma EventHeldOrReleased(s: Stores, e: EnvEvent, uid: nat)
    requires Numbered(s) && Held(s, uid)
    ensures Held(StepEnv(s, e), uid) || Released(StepEnv(s, e), uid)
  {
    hide PlaneEvent, RequestsEvent;
  }

  lemma CtlHeldOrReleased(s: Stores, th: Thread, t: Tick, uid: nat)
    requires Numbered(s) && Held(s, uid)
    ensures Held(StepCtl(s, th, t).s, uid) || Released(StepCtl(s, th, t).s, uid)
  {
    hide DomainCall, Cleanup, AccessCall, AccessEffect, ResolveNamespace, ValidStatus, Merge, LastOf;
  }

  /** How many API calls the controller makes in a run. */
  function Calls(es: seq<Event>): nat {
    if es == [] then 0 else Bit(es[0].Ctl?) + Calls(es[1..])
  }

  ghost function Disturbances(w: World, es: seq<Event>): nat
    decreases |es|
  {
    if es == [] then 0 else Bit(Disturbs(w, es[0])) + Disturbances(Step(w, es[0]), es[1..])
  }

  lemma BudgetPositive(w: World)
    requires InHand(w.th)
    ensures Budget(w) >= 1
  {
    if !w.th.Idle? {
      RankPositive(w.th);
    }
    hide InHand, Clean;
  }

  lemma {:induction false} RunNumbered(w: World, es: seq<Event>)
    requires Numbered(w.s) && InHand(w.th)
    ensures Numbered(Run(w, es).s) && InHand(Run(w, es).th)
    decreases |es|
  {
    hide Numbered, InHand, Step;
    if es != [] {
      StepNumbered(w, es[0]);
      RunNumbered(Step(w, es[0]), es[1..]);
    }
  }

  lemma {:induction false} RunReleased(w: World, es: seq<Event>, uid: nat)
    requires Released(w.s, uid)
    ensures Released(Run(w, es).s, uid)
    decreases |es|
  {
    hide Released, Step;
    if es != [] {
      ReleasedStays(w, es[0], uid);
      RunReleased(Step(w, es[0]), es[1..], uid);
    }
  }

  lemma {:induction false} RunSpends(w: World, es: seq<Event>, uid: nat)
    requires Numbered(w.s) && InHand(w.th) && Held(w.s, uid)
    ensures Released(Run(w, es).s, uid) || Calls(es) < Budget(w) + RENEWAL * Disturbances(w, es)
    decreases |es|
  {
    BudgetPositive(w);
    hide Numbered, InHand, Released, Held, Step, Budget, Disturbs;
    if es != [] {
      var w' := Step(w, es[0]);
      HeldOrReleased(w, es[0], uid);
      StepNumbered(w, es[0]);
      if Held(w'.s, uid) {
        StepSpends(w, es[0], uid);
        RunSpends(w', es[1..], uid);
      } else {
        RunReleased(w', es[1..], uid);
      }
    }
  }

  /** Deletion terminates. After any history, once an incarnation is in deletion and held by our finalizer: every run in
      which the controller makes as many calls as its budget plus one renewal per disturbance has released it, and
      released it stays. Without a disturbance, and from an idle controller, PASS calls do. */
  lemma DeletionTerminates(w: World, before: seq<Event>, es: seq<Event>, uid: nat)
    requires Initial(w) && Held(Run(w, before).s, uid)
    requires Calls(es) >= Budget(Run(w, before)) + RENEWAL * Disturbances(Run(w, before), es)
    ensures Released(Run(Run(w, before), es).s, uid)
    ensures Run(w, before).th.Idle? ==> Budget(Run(w, before)) == PASS
  {
    RunNumbered(w, before);
    RunSpends(Run(w, before), es, uid);
    hide Run;
  }
}
