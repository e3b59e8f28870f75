/** observedGeneration over whole runs: never behind itself within an incarnation, and never ahead of the object
    exactly as long as every status patch lands on an object that has caught up. */
module Observed {
  import opened Kube
  import opened Api
  import opened StatusWrites
  import opened Machine
  import opened StatusRuns
  import Guard

  /** The persisted observedGeneration is not ahead of the object. */
  predicate Bounded(s: Stores) {
    s.obj.Some? ==> s.obj.value.status.observedGeneration <= s.obj.value.generation
  }

  /** Nor is any status a thread has read. */
  predicate ReadBounded(th: Thread) {
    && (th.NoConfigPatch? ==> th.base.status.observedGeneration <= th.base.generation)
    && (Installs(th) || Deletes(th) ==>
          && th.c.base.status.observedGeneration <= th.c.base.generation
          && th.c.seen.status.observedGeneration <= th.c.seen.generation)
  }

  predicate BoundInv(w: World) {
    Bounded(w.s) && ReadBounded(w.th)
  }

  predicate Patches(th: Thread) {
    th.NoConfigPatch? || th.Closing? || th.CleanedPatch?
  }

  /** What the status patch of this thread is computed from. */
  function PatchCtx(th: Thread): Ctx
    requires Patches(th)
  {
    if th.NoConfigPatch? then Ctx(th.base, th.base, th.obj, NO_CONFIG) else th.c
  }

  /** If this event lands a status patch, the object has at least the generation the status was written for. */
  predicate PatchFits(w: World, e: Event) {
    Patches(w.th) && e.Ctl? && PatchLands(w.s.obj, PatchCtx(w.th), e.t.fate) ==>
      PatchCtx(w.th).obj.generation <= w.s.obj.value.generation
  }

  /** One incarnation's observedGeneration does not go backwards. */
  predicate Forward(s: Stores, s': Stores) {
    s.obj.Some? && s'.obj.Some? && s.obj.value.uid == s'.obj.value.uid ==>
      s.obj.value.status.observedGeneration <= s'.obj.value.status.observedGeneration
  }

  /** The bound survives a patch exactly if the patch fits, and nothing goes backwards. */
  lemma PatchBound(s: Stores, c: Ctx, evidence: Option<Evidence>, fate: Fate)
    requires Bounded(s) && CtxInv(s, c) && c.obj.status != c.base.status
    requires c.base.status.observedGeneration <= c.base.generation
    requires c.seen.status.observedGeneration <= c.seen.generation
    ensures var s' := PatchStatus(s, c, evidence, fate);
      && (Bounded(s') <==> (PatchLands(s.obj, c, fate) ==> c.obj.generation <= s.obj.value.generation))
      && Forward(s, s')
  {
    PatchResult(s, c, evidence, fate);
    if PatchLands(s.obj, c, fate) && c.obj.status == c.seen.status {
      assert c.seen != c.base && s.obj == Some(c.seen);
    }
    hide PatchStatus, PatchLands, Coherent;
  }

  /** Only a patch writes a status. */
  predicate StatusKept(s: Stores, s': Stores) {
    s'.obj.Some? ==>
      && (s.obj.Some? && s.obj.value.uid == s'.obj.value.uid ==>
            s'.obj.value.status == s.obj.value.status && s.obj.value.generation <= s'.obj.value.generation)
      && (s.obj.None? || s.obj.value.uid != s'.obj.value.uid ==> s'.obj.value.status == NO_STATUS)
  }

  lemma EventKeepsStatus(s: Stores, e: EnvEvent)
    requires Stored(s)
    ensures StatusKept(s, StepEnv(s, e))
  {
    hide PlaneEvent, RequestsEvent;
  }

  lemma PlainCalls(s: Stores, th: Thread, t: Tick)
    requires th.Idle? || th.Reread? || th.Recreate? || th.AddFinalizer? || th.CheckMcpRequest?
      || th.CheckWorkloadRequest? || th.Releasing? || th.DropFinalizer?
    requires BoundInv(World(s, th))
    requires ThreadInv(s, th)
    ensures var w := StepCtl(s, th, t); BoundInv(w) && Forward(s, w.s)
  {
    hide CtxInv;
  }

  lemma AccessCalls(s: Stores, c: Ctx, deleting: bool, at: AccessPoint, t: Tick)
    requires BoundInv(World(s, Accessing(c, deleting, at)))
    ensures var w := StepAccessing(s, c, deleting, at, t); BoundInv(w) && Forward(s, w.s)
  {
    hide AccessCall, AccessEffect, ResolveNamespace;
  }

  lemma InstallCalls(s: Stores, c: Ctx, ns: string, d: DomainPoint, t: Tick)
    requires BoundInv(World(s, Installing(c, ns, d)))
    ensures var w := StepInstalling(s, c, ns, d, t); BoundInv(w) && Forward(s, w.s)
  {
    hide DomainCall;
  }

  lemma CleaningCalls(s: Stores, c: Ctx, ns: string, at: CleanupPoint, t: Tick)
    requires BoundInv(World(s, Cleaning(c, ns, at)))
    ensures var w := StepCleaning(s, c, ns, at, t); BoundInv(w) && Forward(s, w.s)
  {
    hide Cleanup;
  }

  function EvidenceOf(th: Thread): Option<Evidence> {
    if th.Closing? then th.evidence else None
  }

  /** A patching thread does no more to the object than its patch. */
  lemma PatchStep(s: Stores, th: Thread, t: Tick)
    requires Patches(th)
    ensures var w := StepCtl(s, th, t);
      && w.s.obj == PatchStatus(s, PatchCtx(th), EvidenceOf(th), t.fate).obj
      && (w.th.Idle? || w.th.Releasing?)
  {
    hide PatchStatus, PatchLands, MergedInto, LastOf;
  }

  lemma PatchCalls(s: Stores, th: Thread, t: Tick)
    requires Patches(th) && BoundInv(World(s, th)) && Inv(World(s, th))
    ensures var w := StepCtl(s, th, t);
      Forward(s, w.s) && (Bounded(w.s) <==> PatchFits(World(s, th), Ctl(t))) && ReadBounded(w.th)
  {
    PatchBound(s, PatchCtx(th), EvidenceOf(th), t.fate);
    PatchStep(s, th, t);
    hide StepCtl, PatchStatus, PatchLands, CtxInv, Stored, EvidenceOf;
  }

  lemma EventBound(w: World, e: EnvEvent)
    requires Inv(w) && BoundInv(w)
    ensures Forward(w.s, Step(w, Env(e)).s) && BoundInv(Step(w, Env(e)))
  {
    EventKeepsStatus(w.s, e);
    hide StepEnv, CtxInv, Stored;
  }

  lemma StepBound(w: World, e: Event)
    requires Inv(w) && BoundInv(w)
    ensures Forward(w.s, Step(w, e).s)
    ensures Bounded(Step(w, e).s) <==> PatchFits(w, e)
    ensures PatchFits(w, e) ==> BoundInv(Step(w, e))
  {
    if e.Env? {
      EventBound(w, e.e);
    } else {
      var t := e.t;
      match w.th
      case Accessing(c, deleting, at) => AccessCalls(w.s, c, deleting, at, t);
      case Installing(c, ns, d) => InstallCalls(w.s, c, ns, d, t);
      case Cleaning(c, ns, p) => CleaningCalls(w.s, c, ns, p, t);
      case NoConfigPatch(_, _) => PatchCalls(w.s, w.th, t);
      case Closing(_, _, _) => PatchCalls(w.s, w.th, t);
      case CleanedPatch(_, _) => PatchCalls(w.s, w.th, t);
      case _ => PlainCalls(w.s, w.th, t);
    }
    hide StepAccessing, StepInstalling, StepCleaning, StepEnv, CtxInv, Begin, StepNoConfigPatch, StepReread,
      StepRecreate, StepAddFinalizer, StepClosing, StepCheckMcpRequest, StepCheckWorkloadRequest, StepCleanedPatch,
      StepReleasing, StepDropFinalizer, Stored, Forward, PatchLands, PatchCtx;
  }

  ghost predicate AlwaysFits(w: World, es: seq<Event>)
    decreases |es|
  {
    es != [] ==> PatchFits(w, es[0]) && AlwaysFits(Step(w, es[0]), es[1..])
  }

  ghost predicate AlwaysBounded(w: World, es: seq<Event>)
    decreases |es|
  {
    Bounded(w.s) && (es != [] ==> AlwaysBounded(Step(w, es[0]), es[1..]))
  }

  ghost predicate AlwaysForward(w: World, es: seq<Event>)
    decreases |es|
  {
    es != [] ==> Forward(w.s, Step(w, es[0]).s) && AlwaysForward(Step(w, es[0]), es[1..])
  }

  lemma {:induction false} RunBound(w: World, es: seq<Event>)
    requires Inv(w) && BoundInv(w)
    ensures AlwaysBounded(w, es) <==> AlwaysFits(w, es)
    ensures AlwaysFits(w, es) ==> AlwaysForward(w, es)
    decreases |es|
  {
    hide Inv, Step, PatchFits, Forward;
    if es != [] {
      StepBound(w, es[0]);
      StepKeeps(w, es[0]);
      if Bounded(Step(w, es[0]).s) {
        RunBound(Step(w, es[0]), es[1..]);
      }
    }
  }

  /** Over every run from the start: the persisted observedGeneration stays within metadata.generation throughout if and
      only if every status patch that lands meets an object of at least the generation it was written for; and then it
      never goes backwards within one incarnation. */
  lemma ObservedGeneration(w: World, es: seq<Event>)
    requires Initial(w)
    ensures AlwaysBounded(w, es) <==> AlwaysFits(w, es)
    ensures AlwaysFits(w, es) ==> AlwaysForward(w, es)
  {
    RunBound(w, es);
  }

  // ---- when patches fit

  /** No status patch meets another incarnation than the one it was written for. */
  ghost predicate NeverAstray(w: World, es: seq<Event>)
    decreases |es|
  {
    es != [] ==>
      && (Patches(w.th) && w.s.obj.Some? ==> w.s.obj.value.uid == PatchCtx(w.th).obj.uid)
      && NeverAstray(Step(w, es[0]), es[1..])
  }

  lemma HomeFits(w: World, e: Event)
    requires Inv(w) && (Patches(w.th) && w.s.obj.Some? ==> w.s.obj.value.uid == PatchCtx(w.th).obj.uid)
    ensures PatchFits(w, e)
  {
    hide Coherent, Merge, ValidStatus;
  }

  lemma {:induction false} HomeRunFits(w: World, es: seq<Event>)
    requires Inv(w) && NeverAstray(w, es)
    ensures AlwaysFits(w, es)
    decreases |es|
  {
    hide Inv, Step, PatchFits;
    if es != [] {
      HomeFits(w, es[0]);
      StepKeeps(w, es[0]);
      HomeRunFits(Step(w, es[0]), es[1..]);
    }
  }

  /** So as long as nobody deletes and re-creates an object between a reconcile's last read of it and its patch,
      observedGeneration stays within metadata.generation and only moves forward. */
  lemma ObservedWithoutReplacement(w: World, es: seq<Event>)
    requires Initial(w) && NeverAstray(w, es)
    ensures AlwaysBounded(w, es) && AlwaysForward(w, es)
  {
    HomeRunFits(w, es);
    RunBound(w, es);
  }

  /** A patch of a context that has re-read its object only ever reaches the incarnation it read, if the
      finalizer held it there. */
  lemma PatchStaysHome(s: Stores, c: Ctx, fate: Fate)
    requires CtxInv(s, c) && (Guard.Pinned(s, c) || c.obj.status == c.seen.status)
    requires PatchLands(s.obj, c, fate) && c.obj.status != c.base.status
    ensures s.obj.value.uid == c.seen.uid && c.obj.generation <= s.obj.value.generation
  {
    hide Coherent, Merge;
  }

  /** If only the controller takes its finalizer and its access requests away, only a reconcile that found no config can
      patch an object that has not caught up. */
  lemma TameFits(w: World, e: Event)
    requires Inv(w) && Guard.Inv(w) && (Patches(w.th) && !w.th.NoConfigPatch? && e.Ctl?)
    ensures PatchFits(w, e)
  {
    if PatchLands(w.s.obj, w.th.c, e.t.fate) {
      PatchStaysHome(w.s, w.th.c, e.t.fate);
    }
    hide CtxInv, PatchLands, Stored;
  }

  /** The status patches of reconciles without a config fit. */
  ghost predicate ReportsFit(w: World, es: seq<Event>)
    decreases |es|
  {
    es != [] ==> (w.th.NoConfigPatch? ==> PatchFits(w, es[0])) && ReportsFit(Step(w, es[0]), es[1..])
  }

  lemma {:induction false} TameRunFits(w: World, es: seq<Event>)
    requires Inv(w) && Guard.Inv(w) && AllTame(es)
    ensures AlwaysFits(w, es) <==> ReportsFit(w, es)
    decreases |es|
  {
    if es != [] {
      assert Tame(es[0]);
      if Patches(w.th) && !w.th.NoConfigPatch? && es[0].Ctl? {
        TameFits(w, es[0]);
      }
      hide Step, Inv, Guard.Inv, PatchLands;
      StepKeeps(w, es[0]);
      Guard.StepKeeps(w, es[0]);
      TameRunFits(Step(w, es[0]), es[1..]);
    }
  }

  /** In such runs the bound holds throughout if and only if the patches made without a config fit. */
  lemma ObservedWhenTame(w: World, es: seq<Event>)
    requires Initial(w) && AllTame(es)
    ensures AlwaysBounded(w, es) <==> ReportsFit(w, es)
  {
    ObservedGeneration(w, es);
    TameRunFits(w, es);
  }

  /** Every reconcile starts with a config loaded. */
  ghost predicate AlwaysLoaded(w: World, es: seq<Event>)
    decreases |es|
  {
    es != [] ==>
      && (w.th.Idle? && es[0].Ctl? ==> w.s.cache.Some?)
      && AlwaysLoaded(Step(w, es[0]), es[1..])
  }

  /** Then none ever reports a missing one. */
  lemma LoadedReportsNothing(w: World, e: Event)
    requires !w.th.NoConfigPatch? && (w.th.Idle? && e.Ctl? ==> w.s.cache.Some?)
    ensures !Step(w, e).th.NoConfigPatch?
  {
    hide DomainCall, Cleanup, AccessCall, AccessEffect, ResolveNamespace, PatchLands, MergedInto, LastOf, StepEnv;
  }

  lemma {:induction false} LoadedReportsFit(w: World, es: seq<Event>)
    requires !w.th.NoConfigPatch? && AlwaysLoaded(w, es)
    ensures ReportsFit(w, es)
    decreases |es|
  {
    hide Step;
    if es != [] {
      LoadedReportsNothing(w, es[0]);
      LoadedReportsFit(Step(w, es[0]), es[1..]);
    }
  }

  /** And in particular if every reconcile has a config. */
  lemma ObservedWithConfig(w: World, es: seq<Event>)
    requires Initial(w) && AllTame(es) && AlwaysLoaded(w, es)
    ensures AlwaysBounded(w, es) && AlwaysForward(w, es)
  {
    LoadedReportsFit(w, es);
    ObservedWhenTame(w, es);
    ObservedGeneration(w, es);
  }

  /** The bound does fail: read at generation 2 without a config, deleted, made anew, and only then patched. */
  lemma BoundCanFail(w: World, spec: ServiceSpec, other: ServiceSpec) returns (es: seq<Event>)
    requires Initial(w) && spec != other
    ensures AllTame(es) && !Bounded(Run(w, es).s)
  {
    var t := Ctl(Tick(Ok, 0, Reply(Absent, Absent, Failed)));
    var edit, delete, create := Env(UserEdit(other)), Env(UserDelete), Env(UserCreate(spec, {}));
    es := [create] + ([edit] + ([t] + ([delete] + ([create] + ([t] + [])))));
    var w1 := Step(w, create);
    var w2 := Step(w1, edit);
    var w3 := Step(w2, t);
    var w4 := Step(w3, delete);
    var w5 := Step(w4, create);
    RunCons(w, create, [edit] + ([t] + ([delete] + ([create] + ([t] + [])))));
    RunCons(w1, edit, [t] + ([delete] + ([create] + ([t] + []))));
    RunCons(w2, t, [delete] + ([create] + ([t] + [])));
    RunCons(w3, delete, [create] + ([t] + []));
    RunCons(w4, create, [t] + []);
    RunCons(w5, t, []);
  }
}
