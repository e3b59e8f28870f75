/** What holds of the persisted status in every run, whatever users, operators and the access provider do: it is
    coherent, and every status write is of the object it was read from or of a later incarnation without a status. */
module StatusRuns {
  import opened Kube
  import opened Api
  import opened StatusWrites
  import opened Machine

  // ---- what threads hold

  /** Until this thread patches, the stored status is the one in its snapshot, or, if another incarnation has taken the
      name, none at all: nobody else writes statuses. */
  predicate Unwritten(stored: Option<Obj>, base: Obj) {
    stored.Some? ==>
      if stored.value.uid == base.uid then stored.value.status == base.status
      else stored.value.status == NO_STATUS && stored.value.uid > base.uid
  }

  /** What was read is not ahead of what is stored: incarnations, generations and deletion only move forward. */
  predicate NotAhead(stored: Option<Obj>, read: Obj) {
    stored.Some? ==>
      && read.uid <= stored.value.uid
      && (read.uid == stored.value.uid ==>
            read.generation <= stored.value.generation && (read.deleting ==> stored.value.deleting))
  }

  /** The live object is the version last read, with either its status or one written for its generation. */
  predicate LocalCtx(c: Ctx) {
    && CoherentOrNone(c.base.status) && CoherentOrNone(c.obj.status)
    && c.obj.uid == c.seen.uid && c.obj.generation == c.seen.generation && c.obj.generation >= 1
    && (c.obj.status == c.seen.status || c.obj.status.observedGeneration == c.obj.generation)
    && c.base.uid <= c.seen.uid
    && (c.base.uid == c.seen.uid ==> c.base.generation <= c.seen.generation && c.base.status == c.seen.status)
  }

  predicate CtxInv(s: Stores, c: Ctx) {
    LocalCtx(c) && Unwritten(s.obj, c.base) && NotAhead(s.obj, c.seen) && c.seen.uid < s.nextUid
  }

  predicate Installs(th: Thread) {
    th.Reread? || th.Recreate? || th.AddFinalizer? || (th.Accessing? && !th.deleting) || th.Installing? || th.Closing?
  }

  predicate Deletes(th: Thread) {
    th.CheckMcpRequest? || th.CheckWorkloadRequest? || (th.Accessing? && th.deleting) || th.Cleaning?
      || th.CleanedPatch?
  }

  /** A delete works on the object it found; a patch is only made for a status that differs. */
  predicate ThreadInv(s: Stores, th: Thread) {
    && (th.NoConfigPatch? ==>
          && CtxInv(s, Ctx(th.base, th.base, th.obj, NO_CONFIG))
          && Coherent(th.obj.status) && th.obj.status.observedGeneration == th.obj.generation
          && th.obj.status.phase == PHASE_PROGRESSING && th.obj.status != th.base.status)
    && (Installs(th) || Deletes(th) ==> CtxInv(s, th.c))
    && (Deletes(th) ==> th.c.seen == th.c.base && th.c.base.deleting)
    && (th.Reread? || th.Recreate? ==> th.c.obj == th.c.seen == th.c.base)
    && (th.AddFinalizer? ==> th.c.obj.status == th.c.seen.status)
    && (th.Closing? || th.CleanedPatch? ==> th.c.obj.status != th.c.base.status)
    && (th.Cleaning? || th.CleanedPatch? ==> th.c.obj.status.phase == PHASE_TERMINATING)
  }

  predicate Stored(s: Stores) {
    s.obj.Some? ==>
      s.obj.value.uid < s.nextUid && s.obj.value.generation >= 1 && CoherentOrNone(s.obj.value.status)
  }

  predicate Inv(w: World) {
    Stored(w.s) && ThreadInv(w.s, w.th)
  }

  // ---- patches

  /** A merge patch the server accepts leaves either the whole new status or what was stored: with one writer no
      mixture of two statuses can be persisted, not even on a different incarnation. */
  lemma MergeWhole(stored: Status, base: Status, next: Status)
    requires CoherentOrNone(base) && CoherentOrNone(next) && (stored == base || stored == NO_STATUS)
    requires ValidStatus(Merge(stored, base, next))
    ensures Merge(stored, base, next) == next || Merge(stored, base, next) == stored
    ensures next == base ==> Merge(stored, base, next) == stored
    ensures next != base ==> Merge(stored, base, next) == next
  {
    if stored != base && next != NO_STATUS && next.observedGeneration != base.observedGeneration {
      assert next.conditions != base.conditions;
    }
  }

  lemma PatchResult(s: Stores, c: Ctx, evidence: Option<Evidence>, fate: Fate)
    requires Unwritten(s.obj, c.base) && CoherentOrNone(c.base.status) && CoherentOrNone(c.obj.status)
    ensures var s' := PatchStatus(s, c, evidence, fate);
      && s' == s.(obj := s'.obj, history := s'.history)
      && (s.obj.None? <==> s'.obj.None?)
      && (s.obj.Some? ==>
            s'.obj.value == s.obj.value.(status :=
              if PatchLands(s.obj, c, fate) && c.obj.status != c.base.status then c.obj.status else s.obj.value.status))
  {
    if PatchLands(s.obj, c, fate) {
      MergeWhole(s.obj.value.status, c.base.status, c.obj.status);
    }
    hide Merge, Coherent, ValidStatus;
  }

  // ---- local writes

  lemma WritesLocal(c: Ctx, reason: string, message: string, now: int)
    requires LocalCtx(c)
    ensures var c' := SetProgressing(c, reason, message, now);
      LocalCtx(c') && Coherent(c'.obj.status) && c'.obj.status.phase == PHASE_PROGRESSING
    ensures var c' := SetReady(c, now);
      LocalCtx(c') && Coherent(c'.obj.status) && c'.obj.status.phase == PHASE_READY
    ensures var c' := SetTerminating(c, now);
      LocalCtx(c') && Coherent(c'.obj.status) && c'.obj.status.phase == PHASE_TERMINATING
  {
    WriteCoherent(c.obj.status, c.obj.generation, False, reason, message, PHASE_PROGRESSING, now);
    WriteCoherent(c.obj.status, c.obj.generation, True, "ReconcileSuccess", "Domain Service is ready", PHASE_READY,
        now);
    WriteCoherent(c.obj.status, c.obj.generation, False, "Terminating", "Cleanup in progress", PHASE_TERMINATING, now);
    hide Coherent, Write;
  }

  lemma WritesCtx(s: Stores, c: Ctx, reason: string, message: string, now: int)
    requires CtxInv(s, c)
    ensures var c' := SetProgressing(c, reason, message, now);
      CtxInv(s, c') && c'.base == c.base && c'.seen == c.seen && c'.obj.status.phase == PHASE_PROGRESSING
    ensures var c' := SetReady(c, now);
      CtxInv(s, c') && c'.base == c.base && c'.seen == c.seen && c'.obj.status.phase == PHASE_READY
    ensures var c' := SetTerminating(c, now);
      CtxInv(s, c') && c'.base == c.base && c'.seen == c.seen && c'.obj.status.phase == PHASE_TERMINATING
  {
    WritesLocal(c, reason, message, now);
    hide LocalCtx, Coherent;
  }

  lemma CloseKeeps(s: Stores, c: Ctx, res: Result, evidence: Option<Evidence>)
    requires Stored(s) && CtxInv(s, c)
    ensures var w := Close(s, c, res, evidence); Stored(w.s) && ThreadInv(w.s, w.th)
  {
    hide LocalCtx, Coherent;
  }

  // ---- the environment

  lemma EventKeepsCtx(s: Stores, e: EnvEvent, c: Ctx)
    requires Stored(s) && CtxInv(s, c)
    ensures CtxInv(StepEnv(s, e), c)
  {
    hide Coherent, PlaneEvent, RequestsEvent;
  }

  lemma EventKeepsStored(s: Stores, e: EnvEvent)
    requires Stored(s)
    ensures Stored(StepEnv(s, e))
  {
    hide Coherent, PlaneEvent, RequestsEvent;
  }

  lemma EnvKeeps(w: World, e: EnvEvent)
    requires Inv(w)
    ensures Inv(Step(w, Env(e)))
  {
    EventKeepsStored(w.s, e);
    if w.th.NoConfigPatch? {
      EventKeepsCtx(w.s, e, Ctx(w.th.base, w.th.base, w.th.obj, NO_CONFIG));
    } else if Installs(w.th) || Deletes(w.th) {
      EventKeepsCtx(w.s, e, w.th.c);
    }
    hide Stored, CtxInv, StepEnv, Coherent;
  }

  // ---- the controller

  lemma BeginWithoutConfigKeeps(s: Stores, o: Obj, now: int)
    requires Stored(s) && s.obj == Some(o)
    ensures var w := BeginWithoutConfig(s, o, now); Stored(w.s) && ThreadInv(w.s, w.th)
  {
    var c := Ctx(o, o, o, NO_CONFIG);
    assert CtxInv(s, c);
    WritesCtx(s, c, "ReconcileError", "No ProviderConfig found", now);
    WritesLocal(c, "ReconcileError", "No ProviderConfig found", now);
    FinishKeeps(s, NO_CONFIG, Fail);
    hide Coherent, Finish, SetReady, SetTerminating, SetCondition, Stored, CtxInv;
  }

  lemma BeginWithConfigKeeps(s: Stores, o: Obj, config: Config)
    requires Stored(s) && s.obj == Some(o)
    ensures var w := BeginWithConfig(s, o, config); Stored(w.s) && ThreadInv(w.s, w.th)
  {
    hide Coherent;
  }

  lemma BeginKeeps(s: Stores, t: Tick)
    requires Stored(s)
    ensures Stored(Begin(s, t).s) && ThreadInv(Begin(s, t).s, Begin(s, t).th)
  {
    var s' := s.(history := StartRound(s.history));
    if t.fate == Ok && s.obj.Some? {
      if s.cache.None? {
        BeginWithoutConfigKeeps(s', s.obj.value, t.now);
      } else {
        BeginWithConfigKeeps(s', s.obj.value, s.cache.value);
      }
    }
    hide Coherent, LocalCtx, BeginWithConfig, BeginWithoutConfig, LastOf;
  }

  lemma RereadKeeps(s: Stores, c: Ctx, t: Tick)
    requires Stored(s) && ThreadInv(s, Reread(c))
    ensures var w := StepReread(s, c, t); Stored(w.s) && ThreadInv(w.s, w.th)
    ensures var w := StepRecreate(s, c, t); Stored(w.s) && ThreadInv(w.s, w.th)
  {
    hide Coherent;
  }

  lemma AddFinalizerKeeps(s: Stores, c: Ctx, t: Tick)
    requires Stored(s) && ThreadInv(s, AddFinalizer(c))
    ensures var w := StepAddFinalizer(s, c, t); Stored(w.s) && ThreadInv(w.s, w.th)
  {
    hide Coherent;
  }

  lemma AccessToInstallKeeps(s: Stores, c: Ctx, go: AccessGo, now: int)
    requires Stored(s) && CtxInv(s, c)
    ensures var w := AccessToInstall(s, c, go, now); Stored(w.s) && ThreadInv(w.s, w.th)
  {
    match go {
      case AccessNext(at) =>
      case AccessFailed =>
        WritesCtx(s, c, "ClusterAccessError", "Failed to setup cluster access", now);
        CloseKeeps(s, SetProgressing(c, "ClusterAccessError", "Failed to setup cluster access", now), Fail, None);
      case AccessPending(d) =>
        WritesCtx(s, c, "Reconciling", "Setting up cluster access", now);
        CloseKeeps(s, SetProgressing(c, "Reconciling", "Setting up cluster access", now), Wait(d), None);
      case AccessReady => WritesCtx(s, c, "Reconciling", "Reconcile in progress", now);
    }
    hide CtxInv, Stored, Close, SetProgressing, SetReady, SetTerminating, ResolveNamespace;
  }

  lemma FinishKeeps(s: Stores, config: Config, res: Result)
    requires Stored(s)
    ensures var w := Finish(s, config, res); Stored(w.s) && ThreadInv(w.s, w.th)
  {
    hide LastOf, CoherentOrNone;
  }

  lemma AccessToCleanupKeeps(s: Stores, c: Ctx, go: AccessGo, now: int)
    requires Stored(s) && CtxInv(s, c) && c.seen == c.base && c.base.deleting
    ensures var w := AccessToCleanup(s, c, go, now); Stored(w.s) && ThreadInv(w.s, w.th)
  {
    match go {
      case AccessNext(at) =>
      case AccessFailed => FinishKeeps(s, c.config, Fail);
      case AccessPending(d) => FinishKeeps(s, c.config, Wait(d));
      case AccessReady => WritesCtx(s, c, "", "", now);
    }
    hide CtxInv, Stored, SetTerminating, ResolveNamespace, Finish, SetReady, SetProgressing;
  }

  lemma AccessKeeps(s: Stores, c: Ctx, deleting: bool, at: AccessPoint, t: Tick)
    requires Stored(s) && ThreadInv(s, Accessing(c, deleting, at))
    ensures var w := StepAccessing(s, c, deleting, at, t); Stored(w.s) && ThreadInv(w.s, w.th)
  {
    var s' := s.(requests := AccessEffect(s.requests, at, t));
    assert CtxInv(s', c) && Stored(s');
    if deleting {
      AccessToCleanupKeeps(s', c, AccessCall(s.requests, at, t), t.now);
    } else {
      AccessToInstallKeeps(s', c, AccessCall(s.requests, at, t), t.now);
    }
    hide Coherent, AccessCall, AccessEffect, LocalCtx, AccessToCleanup, AccessToInstall;
  }

  lemma AfterCallKeeps(s: Stores, c: Ctx, ns: string, go: DomainGo, now: int)
    requires Stored(s) && CtxInv(s, c)
    ensures var w := AfterCall(s, c, ns, go, now); Stored(w.s) && ThreadInv(w.s, w.th)
  {
    match go {
      case Continue(d) =>
      case Abort => CloseKeeps(s, c, Fail, None);
      case Await(message) =>
        WritesCtx(s, c, "WaitingForPrerequisites", message, now);
        CloseKeeps(s, SetProgressing(c, "WaitingForPrerequisites", message, now), Wait(WAITING), None);
      case Installed(evidence) =>
        WritesCtx(s, c, "", "", now);
        CloseKeeps(s, SetReady(c, now), Wait(0), Some(evidence));
    }
    hide CtxInv, Stored, Close, SetProgressing, SetReady;
  }

  lemma InstallKeeps(s: Stores, c: Ctx, ns: string, d: DomainPoint, t: Tick)
    requires Stored(s) && ThreadInv(s, Installing(c, ns, d))
    ensures var w := StepInstalling(s, c, ns, d, t); Stored(w.s) && ThreadInv(w.s, w.th)
  {
    var call := DomainCall(s.plane, s.platform, c, ns, d, t);
    AfterCallKeeps(s.(plane := call.plane, history := NoteAll(s.history, call.act)), c, ns, call.go, t.now);
    hide DomainCall, AfterCall, LocalCtx, Coherent;
  }

  lemma ClosingKeeps(s: Stores, c: Ctx, res: Result, evidence: Option<Evidence>, t: Tick)
    requires Stored(s) && ThreadInv(s, Closing(c, res, evidence))
    ensures var w := StepClosing(s, c, res, evidence, t); Stored(w.s) && w.th.Idle?
  {
    PatchResult(s, c, evidence, t.fate);
    hide PatchStatus, PatchLands, Coherent;
  }

  lemma NoConfigKeeps(s: Stores, base: Obj, obj: Obj, t: Tick)
    requires Stored(s) && ThreadInv(s, NoConfigPatch(base, obj))
    ensures var w := StepNoConfigPatch(s, base, obj, t); Stored(w.s) && w.th.Idle?
  {
    PatchResult(s, Ctx(base, base, obj, NO_CONFIG), None, t.fate);
    hide PatchStatus, PatchLands, Merge;
  }

  lemma CleanedPatchKeeps(s: Stores, c: Ctx, failed: bool, t: Tick)
    requires Stored(s) && ThreadInv(s, CleanedPatch(c, failed))
    ensures var w := StepCleanedPatch(s, c, failed, t); Stored(w.s) && (w.th.Idle? || w.th.Releasing?)
  {
    PatchResult(s, c, None, t.fate);
    hide PatchStatus, PatchLands, Coherent;
  }

  lemma CheckKeeps(s: Stores, th: Thread, t: Tick)
    requires Stored(s) && ThreadInv(s, th) && (th.CheckMcpRequest? || th.CheckWorkloadRequest?)
    ensures var w := StepCtl(s, th, t); Stored(w.s) && ThreadInv(w.s, w.th)
  {
    hide Coherent, LocalCtx;
  }

  lemma CleaningKeeps(s: Stores, c: Ctx, ns: string, at: CleanupPoint, t: Tick)
    requires Stored(s) && ThreadInv(s, Cleaning(c, ns, at))
    ensures var w := StepCleaning(s, c, ns, at, t); Stored(w.s) && ThreadInv(w.s, w.th)
  {
    hide Coherent, LocalCtx, Cleanup;
  }

  lemma ReleaseKeeps(s: Stores, c: Ctx, t: Tick)
    requires Stored(s)
    ensures var w := StepReleasing(s, c, t); Stored(w.s) && (w.th.Idle? || w.th.DropFinalizer?)
    ensures var w := StepDropFinalizer(s, c, t); Stored(w.s) && w.th.Idle?
  {
    hide Coherent;
  }

  lemma DeleteCallKeeps(s: Stores, th: Thread, t: Tick)
    requires Inv(World(s, th)) && (Deletes(th) || th.Releasing? || th.DropFinalizer?)
    ensures var w := StepCtl(s, th, t); Stored(w.s) && ThreadInv(w.s, w.th)
  {
    match th
    case CheckMcpRequest(c) => CheckKeeps(s, th, t);
    case CheckWorkloadRequest(c) => CheckKeeps(s, th, t);
    case Accessing(c, deleting, at) => AccessKeeps(s, c, deleting, at, t);
    case Cleaning(c, n, p) => CleaningKeeps(s, c, n, p, t);
    case CleanedPatch(c, failed) => CleanedPatchKeeps(s, c, failed, t);
    case Releasing(c) => ReleaseKeeps(s, c, t);
    case DropFinalizer(c) => ReleaseKeeps(s, c, t);
    hide StepAccessing, StepCheckMcpRequest, StepCheckWorkloadRequest, StepCleaning, StepCleanedPatch, StepReleasing,
      StepDropFinalizer, CtxInv, Stored;
  }

  lemma InstallCallKeeps(s: Stores, th: Thread, t: Tick)
    requires Inv(World(s, th)) && (Installs(th) || th.Idle? || th.NoConfigPatch?)
    ensures var w := StepCtl(s, th, t); Stored(w.s) && ThreadInv(w.s, w.th)
  {
    match th
    case Idle => BeginKeeps(s, t);
    case NoConfigPatch(base, obj) => NoConfigKeeps(s, base, obj, t);
    case Reread(c) => RereadKeeps(s, c, t);
    case Recreate(c) => RereadKeeps(s, c, t);
    case AddFinalizer(c) => AddFinalizerKeeps(s, c, t);
    case Accessing(c, deleting, at) => AccessKeeps(s, c, deleting, at, t);
    case Installing(c, n, d) => InstallKeeps(s, c, n, d, t);
    case Closing(c, res, evidence) => ClosingKeeps(s, c, res, evidence, t);
    hide Begin, StepNoConfigPatch, StepReread, StepRecreate, StepAddFinalizer, StepAccessing, StepInstalling,
      StepClosing, CtxInv, Stored;
  }

  lemma CtlKeeps(s: Stores, th: Thread, t: Tick)
    requires Inv(World(s, th))
    ensures Inv(StepCtl(s, th, t))
  {
    if Deletes(th) || th.Releasing? || th.DropFinalizer? {
      DeleteCallKeeps(s, th, t);
    } else {
      InstallCallKeeps(s, th, t);
    }
    hide StepCtl, Stored, ThreadInv;
  }

  lemma StepKeeps(w: World, e: Event)
    requires Inv(w)
    ensures Inv(Step(w, e))
  {
    match e
    case Env(e) => EnvKeeps(w, e);
    case Ctl(t) => CtlKeeps(w.s, w.th, t);
    hide StepCtl, StepEnv, Stored, ThreadInv;
  }

  lemma {:induction false} RunKeeps(w: World, es: seq<Event>)
    requires Inv(w)
    ensures Inv(Run(w, es))
    decreases |es|
  {
    hide Inv, Step;
    if es != [] {
      StepKeeps(w, es[0]);
      RunKeeps(Step(w, es[0]), es[1..]);
    }
  }

  /** In every state any run reaches the persisted status is coherent: one Ready condition, true exactly in phase
      Ready, and one generation in condition and status. */
  lemma StatusCoherent(w: World, es: seq<Event>)
    requires Initial(w)
    ensures var s := Run(w, es).s; s.obj.Some? ==> CoherentOrNone(s.obj.value.status)
  {
    RunKeeps(w, es);
  }
}
