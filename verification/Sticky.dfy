/** Once an incarnation is persisted as Terminating it stays so. */
module Sticky {
  import opened Kube
  import opened Api
  import opened StatusWrites
  import opened Machine
  import opened StatusRuns
  import opened Scenario
  import Guard
  import Observed

  /** Incarnation `uid` is gone or stored as Terminating. */
  predicate GoneOrTerminating(s: Stores, uid: nat) {
    s.obj.Some? && s.obj.value.uid == uid ==> s.obj.value.status.phase == PHASE_TERMINATING
  }

  /** A reconcile that found no config gets its Progressing status stored on that incarnation. */
  predicate Overwrites(w: World, e: Event, uid: nat) {
    && w.th.NoConfigPatch? && e.Ctl?
    && PatchLands(w.s.obj, Ctx(w.th.base, w.th.base, w.th.obj, NO_CONFIG), e.t.fate)
    && w.s.obj.value.uid == uid
  }

  // ---- who is Terminating

  /** Only an object in deletion is stored as Terminating. */
  predicate Honest(s: Stores) {
    s.obj.Some? && s.obj.value.status.phase == PHASE_TERMINATING ==> s.obj.value.deleting
  }

  /** If this event lands the status patch of a delete, the object it meets is in deletion. */
  predicate HitsDeleting(w: World, e: Event) {
    w.th.CleanedPatch? && e.Ctl? && PatchLands(w.s.obj, w.th.c, e.t.fate) ==> w.s.obj.value.deleting
  }

  /** An install starts from an object that is not Terminating, and never writes Terminating. */
  predicate Fair(th: Thread) {
    Installs(th) ==> th.c.base.status.phase != PHASE_TERMINATING && th.c.obj.status.phase != PHASE_TERMINATING
  }

  predicate HonestInv(w: World) {
    Inv(w) && Honest(w.s) && Fair(w.th)
  }

  lemma EventHonest(s: Stores, e: EnvEvent)
    requires Honest(s)
    ensures Honest(StepEnv(s, e))
  {
    hide PlaneEvent, RequestsEvent;
  }

  lemma AccessFair(s: Stores, c: Ctx, deleting: bool, at: AccessPoint, t: Tick)
    requires Honest(s) && Fair(Accessing(c, deleting, at))
    ensures var w := StepAccessing(s, c, deleting, at, t); Honest(w.s) && Fair(w.th)
  {
    hide AccessCall, AccessEffect, ResolveNamespace, LastOf, SetCondition;
  }

  lemma InstallFair(s: Stores, c: Ctx, ns: string, d: DomainPoint, t: Tick)
    requires Honest(s) && Fair(Installing(c, ns, d))
    ensures var w := StepInstalling(s, c, ns, d, t); Honest(w.s) && Fair(w.th)
  {
    hide DomainCall, LastOf, SetCondition;
  }

  lemma PatchHonest(s: Stores, th: Thread, t: Tick)
    requires HonestInv(World(s, th)) && Observed.Patches(th)
    ensures var w := StepCtl(s, th, t); Fair(w.th) && (Honest(w.s) <==> HitsDeleting(World(s, th), Ctl(t)))
  {
    var c := Observed.PatchCtx(th);
    PatchResult(s, c, Observed.EvidenceOf(th), t.fate);
    Observed.PatchStep(s, th, t);
    hide PatchStatus, PatchLands, Coherent, StepCtl;
  }

  lemma OtherFair(s: Stores, th: Thread, t: Tick)
    requires HonestInv(World(s, th))
    requires th.Idle? || th.Reread? || th.Recreate? || th.AddFinalizer?
    ensures var w := StepCtl(s, th, t); Honest(w.s) && Fair(w.th)
  {
    hide Coherent, LastOf, SetCondition;
  }

  lemma DeleteFair(s: Stores, th: Thread, t: Tick)
    requires Honest(s)
    requires th.CheckMcpRequest? || th.CheckWorkloadRequest? || th.Cleaning? || th.Releasing? || th.DropFinalizer?
    ensures var w := StepCtl(s, th, t); Honest(w.s) && Fair(w.th)
  {
    hide LastOf, Cleanup, ReleaseReply;
  }

  lemma CallHonest(s: Stores, th: Thread, t: Tick)
    requires HonestInv(World(s, th))
    ensures var w := StepCtl(s, th, t); Fair(w.th) && (Honest(w.s) <==> HitsDeleting(World(s, th), Ctl(t)))
  {
    match th
    case Accessing(c, deleting, at) => AccessFair(s, c, deleting, at, t);
    case Installing(c, ns, d) => InstallFair(s, c, ns, d, t);
    case NoConfigPatch(_, _) => PatchHonest(s, th, t);
    case Closing(_, _, _) => PatchHonest(s, th, t);
    case CleanedPatch(_, _) => PatchHonest(s, th, t);
    case Idle => OtherFair(s, th, t);
    case Reread(_) => OtherFair(s, th, t);
    case Recreate(_) => OtherFair(s, th, t);
    case AddFinalizer(_) => OtherFair(s, th, t);
    case _ => DeleteFair(s, th, t);
    hide StepAccessing, StepInstalling, StepClosing, StepNoConfigPatch, StepCleanedPatch, Begin, StepReread,
      StepRecreate, StepAddFinalizer, StepCheckMcpRequest, StepCheckWorkloadRequest, StepCleaning, StepReleasing,
      StepDropFinalizer, Honest, Inv, PatchLands;
  }

  lemma StepHonest(w: World, e: Event)
    requires HonestInv(w)
    ensures Honest(Step(w, e).s) <==> HitsDeleting(w, e)
    ensures HitsDeleting(w, e) ==> HonestInv(Step(w, e))
  {
    StepKeeps(w, e);
    if e.Env? {
      EventHonest(w.s, e.e);
    } else {
      CallHonest(w.s, w.th, e.t);
    }
    hide Inv, StepCtl, StepEnv, Honest, PatchLands;
  }

  ghost predicate AlwaysHonest(w: World, es: seq<Event>)
    decreases |es|
  {
    Honest(w.s) && (es != [] ==> AlwaysHonest(Step(w, es[0]), es[1..]))
  }

  ghost predicate AlwaysHitsDeleting(w: World, es: seq<Event>)
    decreases |es|
  {
    es != [] ==> HitsDeleting(w, es[0]) && AlwaysHitsDeleting(Step(w, es[0]), es[1..])
  }

  lemma {:induction false} RunHonest(w: World, es: seq<Event>)
    requires HonestInv(w)
    ensures AlwaysHonest(w, es) <==> AlwaysHitsDeleting(w, es)
    ensures AlwaysHonest(w, es) ==> HonestInv(Run(w, es))
    decreases |es|
  {
    hide Inv, Honest, Fair, Step, HitsDeleting;
    if es != [] {
      StepHonest(w, es[0]);
      if HitsDeleting(w, es[0]) {
        RunHonest(Step(w, es[0]), es[1..]);
      }
    }
  }

  /** Over every run: Terminating is stored on objects in deletion only if and only if no status patch of a delete lands
      on an object that is not. */
  lemma HonestExactly(w: World, es: seq<Event>)
    requires Initial(w)
    ensures AlwaysHonest(w, es) <==> AlwaysHitsDeleting(w, es)
  {
    RunHonest(w, es);
  }

  /** The controller's finalizer and access requests see to that, as long as they are left to it. */
  lemma TameHits(w: World, e: Event)
    requires Inv(w) && Guard.Inv(w)
    ensures HitsDeleting(w, e)
  {
    hide Coherent, PatchLands;
  }

  lemma {:induction false} TameRunHits(w: World, es: seq<Event>)
    requires Inv(w) && Guard.Inv(w) && AllTame(es)
    ensures AlwaysHitsDeleting(w, es)
    decreases |es|
  {
    hide Inv, Guard.Inv, Step, HitsDeleting;
    if es != [] {
      assert Tame(es[0]);
      TameHits(w, es[0]);
      StepKeeps(w, es[0]);
      Guard.StepKeeps(w, es[0]);
      TameRunHits(Step(w, es[0]), es[1..]);
    }
  }

  // ---- Terminating stays

  /** Incarnation `uid` is gone, or stored as Terminating and in deletion with no install under way. */
  predicate Ending(w: World, uid: nat) {
    && uid < w.s.nextUid
    && (w.s.obj.Some? && w.s.obj.value.uid == uid ==>
          w.s.obj.value.status.phase == PHASE_TERMINATING && w.s.obj.value.deleting && !Installs(w.th))
  }

  lemma PatchesSpareTerminating(s: Stores, th: Thread, t: Tick, uid: nat)
    requires Inv(World(s, th)) && Ending(World(s, th), uid) && Observed.Patches(th)
    ensures var w := StepCtl(s, th, t);
      && (GoneOrTerminating(w.s, uid) <==> !Overwrites(World(s, th), Ctl(t), uid))
      && (GoneOrTerminating(w.s, uid) ==> Ending(w, uid))
  {
    PatchResult(s, Observed.PatchCtx(th), Observed.EvidenceOf(th), t.fate);
    Observed.PatchStep(s, th, t);
    NextUidKept(s, th, t);
    hide PatchStatus, PatchLands, Coherent, StepCtl;
  }

  lemma PlainCalls(s: Stores, th: Thread, t: Tick, uid: nat)
    requires th.Idle? || th.Reread? || th.Recreate? || th.AddFinalizer? || th.CheckMcpRequest?
      || th.CheckWorkloadRequest? || th.Releasing? || th.DropFinalizer?
    requires Ending(World(s, th), uid)
    ensures Ending(StepCtl(s, th, t), uid)
  {
    hide LastOf, SetCondition, ReleaseReply;
  }

  lemma DomainCalls(s: Stores, th: Thread, t: Tick, uid: nat)
    requires (th.Accessing? || th.Installing? || th.Cleaning?) && Ending(World(s, th), uid)
    ensures Ending(StepCtl(s, th, t), uid)
  {
    hide DomainCall, Cleanup, AccessCall, AccessEffect, ResolveNamespace, LastOf, SetCondition;
  }

  lemma EventSpares(w: World, e: EnvEvent, uid: nat)
    requires Inv(w) && Ending(w, uid)
    ensures Ending(Step(w, Env(e)), uid)
  {
    hide PlaneEvent, RequestsEvent, ThreadInv;
  }

  lemma StepSpares(w: World, e: Event, uid: nat)
    requires Inv(w) && Ending(w, uid)
    ensures GoneOrTerminating(Step(w, e).s, uid) <==> !Overwrites(w, e, uid)
    ensures !Overwrites(w, e, uid) ==> Ending(Step(w, e), uid)
  {
    if e.Env? {
      EventSpares(w, e.e, uid);
    } else if Observed.Patches(w.th) {
      PatchesSpareTerminating(w.s, w.th, e.t, uid);
    } else if w.th.Accessing? || w.th.Installing? || w.th.Cleaning? {
      DomainCalls(w.s, w.th, e.t, uid);
    } else {
      PlainCalls(w.s, w.th, e.t, uid);
    }
    hide StepCtl, StepEnv, PatchLands, Stored, ThreadInv;
  }

  /** The controller makes no incarnations. */
  lemma NextUidKept(s: Stores, th: Thread, t: Tick)
    ensures StepCtl(s, th, t).s.nextUid == s.nextUid
  {
    hide DomainCall, Cleanup, AccessCall, AccessEffect, ResolveNamespace, PatchLands, MergedInto, LastOf;
  }

  ghost predicate AlwaysGoneOrTerminating(w: World, es: seq<Event>, uid: nat)
    decreases |es|
  {
    GoneOrTerminating(w.s, uid) && (es != [] ==> AlwaysGoneOrTerminating(Step(w, es[0]), es[1..], uid))
  }

  ghost predicate NeverOverwritten(w: World, es: seq<Event>, uid: nat)
    decreases |es|
  {
    es != [] ==> !Overwrites(w, es[0], uid) && NeverOverwritten(Step(w, es[0]), es[1..], uid)
  }

  lemma {:induction false} EndingStays(w: World, es: seq<Event>, uid: nat)
    requires Inv(w) && Ending(w, uid)
    ensures AlwaysGoneOrTerminating(w, es, uid) <==> NeverOverwritten(w, es, uid)
    decreases |es|
  {
    hide Inv, Step, Overwrites, Installs;
    if es != [] {
      StepSpares(w, es[0], uid);
      StepKeeps(w, es[0]);
      if !Overwrites(w, es[0], uid) {
        EndingStays(Step(w, es[0]), es[1..], uid);
      }
    }
  }

  /** An honest Terminating is stored on an object no install works on. */
  lemma HonestEnds(w: World, uid: nat)
    requires HonestInv(w) && w.s.obj.Some? && w.s.obj.value.uid == uid
    requires w.s.obj.value.status.phase == PHASE_TERMINATING
    ensures Ending(w, uid)
  {
    hide Coherent;
  }

  /** However an incarnation has come to be stored as Terminating, as long as deletes patched only objects in deletion:
      from then on, whatever happens, to finalizers and access requests too, it stays Terminating until it is gone if
      and only if no reconcile that found the config missing gets a status patch through to it. */
  lemma TerminatingIsSticky(w: World, before: seq<Event>, es: seq<Event>, uid: nat)
    requires Initial(w) && AlwaysHitsDeleting(w, before)
    requires var s := Run(w, before).s;
      s.obj.Some? && s.obj.value.uid == uid && s.obj.value.status.phase == PHASE_TERMINATING
    ensures AlwaysGoneOrTerminating(Run(w, before), es, uid) <==> NeverOverwritten(Run(w, before), es, uid)
  {
    RunHonest(w, before);
    HonestEnds(Run(w, before), uid);
    EndingStays(Run(w, before), es, uid);
  }

  /** After a tame history in particular. */
  lemma TerminatingAfterTame(w: World, before: seq<Event>, es: seq<Event>, uid: nat)
    requires Initial(w) && AllTame(before)
    requires var s := Run(w, before).s;
      s.obj.Some? && s.obj.value.uid == uid && s.obj.value.status.phase == PHASE_TERMINATING
    ensures AlwaysGoneOrTerminating(Run(w, before), es, uid) <==> NeverOverwritten(Run(w, before), es, uid)
  {
    TameRunHits(w, before);
    TerminatingIsSticky(w, before, es, uid);
  }

  lemma {:induction false} LoadedNeverOverwrites(w: World, es: seq<Event>, uid: nat)
    requires !w.th.NoConfigPatch? && Observed.AlwaysLoaded(w, es)
    ensures NeverOverwritten(w, es, uid)
    decreases |es|
  {
    hide Step;
    if es != [] {
      Observed.LoadedReportsNothing(w, es[0]);
      LoadedNeverOverwrites(Step(w, es[0]), es[1..], uid);
    }
  }

  /** So with a config loaded throughout, no step persists Progressing or Ready again. */
  lemma StaysWithConfig(w: World, before: seq<Event>, es: seq<Event>, uid: nat)
    requires Initial(w) && AlwaysHitsDeleting(w, before)
    requires var s := Run(w, before).s;
      s.obj.Some? && s.obj.value.uid == uid && s.obj.value.status.phase == PHASE_TERMINATING
    requires !Run(w, before).th.NoConfigPatch? && Observed.AlwaysLoaded(Run(w, before), es)
    ensures AlwaysGoneOrTerminating(Run(w, before), es, uid)
  {
    LoadedNeverOverwrites(Run(w, before), es, uid);
    TerminatingIsSticky(w, before, es, uid);
  }

  // ---- a run in which it is overwritten

  /** A delete of the installing object, up to its cleanup. */
  lemma DeleteStarted(w: World) returns (es: seq<Event>, c: Ctx)
    requires AtInstall(w)
    ensures AllTame(es) && Run(w, es) == World(Run(w, es).s, Cleaning(c, HERE, CleanDeploymentGet))
    ensures var s := Run(w, es).s;
      s.obj == Some(c.seen) && s.plane == START.s.plane && s.requests == w.s.requests && s.nextUid == w.s.nextUid
    ensures c.base == c.seen == Obj(0, 2, PLAIN, true, {FINALIZER}, NO_STATUS) && WritesTerminating(c)
  {
    var restart := [Env(Crash)] + ([Env(ConfigStored(Some(CONFIG)))] + []);
    var start := [Env(UserDelete)] + ([GRANT] + ([GRANT] + []));
    var access := [GRANT] + ([GRANT] + ([GRANT] + []));
    es := restart + start + access;
    RunAppend(w, restart + start, access);
    RunAppend(w, restart, start);
    hide Run, SetTerminating;
    Restarted(w);
    var o := Obj(0, 2, PLAIN, true, {FINALIZER}, NO_STATUS);
    DeleteBegins(Run(w, restart), o);
    AccessThree(Run(w, restart + start));
    Terminates(Ctx(o, o, o, CONFIG));
    c := SetTerminating(Ctx(o, o, o, CONFIG), 0);
  }

  predicate WritesTerminating(c: Ctx) {
    && c.obj.status.conditions != [] && c.obj.status.observedGeneration == 2
    && c.obj.status.phase == PHASE_TERMINATING
  }

  /** Its cleanup finds nothing; then comes the status patch. */
  lemma CleanedUp(w: World, c: Ctx)
    requires w.th == Cleaning(c, HERE, CleanDeploymentGet) && w.s.plane == START.s.plane
    requires c.base.status == NO_STATUS && WritesTerminating(c)
    ensures Run(w, [GRANT] + ([GRANT] + [])) == World(w.s, CleanedPatch(c, false))
  {
    var w1 := World(w.s, Cleaning(c, HERE, CleanServiceGet));
    assert Step(w, GRANT) == w1;
    assert Step(w1, GRANT) == World(w.s, CleanedPatch(c, false));
    RunCons(w, GRANT, [GRANT] + []);
    RunCons(w1, GRANT, []);
    RunEmpty(Step(w1, GRANT));
    hide Run;
  }

  /** It lands on whatever object without a status is there. */
  lemma PatchedTerminating(w: World, c: Ctx, o: Obj)
    requires w.th == CleanedPatch(c, false) && w.s.obj == Some(o) && o.status == NO_STATUS
    requires c.base == c.seen && c.base.status == NO_STATUS && WritesTerminating(c)
    ensures var w' := Run(w, [GRANT] + []);
      w'.s.obj == Some(o.(status := c.obj.status)) && w'.s.requests == w.s.requests && w'.th.Releasing?
  {
    assert PatchLands(w.s.obj, c, Ok) && MergedInto(o, c) == o.(status := c.obj.status);
    RunCons(w, GRANT, []);
    RunEmpty(Step(w, GRANT));
    hide Run, Merge;
  }

  /** The delete up to and with its status patch. */
  lemma Terminated(w: World) returns (es: seq<Event>)
    requires AtInstall(w)
    ensures AllTame(es)
    ensures var s := Run(w, es).s;
      s.obj.Some? && s.obj.value.uid == 0 && s.obj.value.status.phase == PHASE_TERMINATING
        && s.obj.value.generation >= 1
  {
    var start, c := DeleteStarted(w);
    var clean, patch := [GRANT] + ([GRANT] + []), [GRANT] + [];
    es := start + clean + patch;
    RunAppend(w, start + clean, patch);
    RunAppend(w, start, clean);
    hide Run, Step;
    CleanedUp(Run(w, start), c);
    PatchedTerminating(Run(w, start + clean), c, c.seen);
  }

  lemma DeleteBegins(w: World, o: Obj)
    requires w.th == Idle && w.s.cache == Some(CONFIG) && w.s.requests == Requests(Granted, Absent, false)
    requires w.s.obj == Some(Obj(0, 1, PLAIN, false, {FINALIZER}, NO_STATUS))
    requires o == Obj(0, 2, PLAIN, true, {FINALIZER}, NO_STATUS)
    ensures var w' := Run(w, [Env(UserDelete)] + ([GRANT] + ([GRANT] + [])));
      && w'.th == Accessing(Ctx(o, o, o, CONFIG), true, Renew)
      && w'.s == w.s.(obj := Some(o), history := w'.s.history)
  {
    var w1 := World(w.s.(obj := Some(o)), Idle);
    Inert(w.s.plane, w.s.requests);
    assert Step(w, Env(UserDelete)) == w1;
    var w2 := Step(w1, GRANT);
    assert w2.th == CheckMcpRequest(Ctx(o, o, o, CONFIG)) && w2.s == w1.s.(history := w2.s.history);
    RunCons(w, Env(UserDelete), [GRANT] + ([GRANT] + []));
    RunCons(w1, GRANT, [GRANT] + []);
    RunCons(w2, GRANT, []);
    RunEmpty(Step(w2, GRANT));
    hide Run;
  }

  lemma Terminates(c: Ctx)
    ensures var c' := SetTerminating(c, 0);
      && c' == c.(obj := c'.obj) && c'.obj == c.obj.(status := c'.obj.status)
      && c'.obj.status.conditions != [] && c'.obj.status.observedGeneration == c.obj.generation
      && c'.obj.status.phase == PHASE_TERMINATING
  {
    SetConditionEffect(c.obj.status.conditions,
        Condition(READY, False, c.obj.generation, "Terminating", "Cleanup in progress", 0), 0);
    hide SetCondition;
  }

  /** A restart loses the config; the next reconcile reports it, and its patch goes through. */
  lemma Reported(w: World, uid: nat) returns (es: seq<Event>)
    requires Inv(w) && w.s.obj.Some? && w.s.obj.value.uid == uid && w.s.obj.value.status.phase == PHASE_TERMINATING
    ensures AllTame(es) && !AlwaysGoneOrTerminating(w, es, uid)
  {
    es := [Env(Crash)] + ([GRANT] + ([GRANT] + []));
    var w1 := Step(w, Env(Crash));
    var w2 := Step(w1, GRANT);
    var w3 := Step(w2, GRANT);
    StepKeeps(w, Env(Crash));
    StepKeeps(w1, GRANT);
    Lost(w);
    Overwritten(w1, w.s.obj.value);
    hide Step, GoneOrTerminating, Inv;
    assert es[1..] == [GRANT] + ([GRANT] + []);
    assert es[1..][1..] == [GRANT] + [];
    assert !GoneOrTerminating(w3.s, uid);
    assert !AlwaysGoneOrTerminating(w3, [], uid);
    assert ([GRANT] + [])[1..] == [];
    assert !AlwaysGoneOrTerminating(w2, [GRANT] + [], uid);
    assert !AlwaysGoneOrTerminating(w1, [GRANT] + ([GRANT] + []), uid);
  }

  lemma Lost(w: World)
    ensures var w1 := Step(w, Env(Crash)); w1.th == Idle && w1.s.cache.None? && w1.s.obj == w.s.obj
  {
    hide PlaneEvent, RequestsEvent;
  }

  lemma Overwritten(w: World, o: Obj)
    requires w.th == Idle && w.s.cache.None? && w.s.obj == Some(o) && o.status.phase == PHASE_TERMINATING
    requires Inv(Step(w, GRANT))
    ensures var w' := Step(Step(w, GRANT), GRANT);
      w'.s.obj.Some? && w'.s.obj.value.uid == o.uid && w'.s.obj.value.status.phase == PHASE_PROGRESSING
  {
    var w1 := Step(w, GRANT);
    var c := Ctx(o, o, w1.th.obj, NO_CONFIG);
    assert w1.th.NoConfigPatch? && w1.s.obj == Some(o) && w1.th.base == o;
    PatchResult(w1.s, c, None, Ok);
    assert PatchLands(w1.s.obj, c, Ok);
    hide PatchStatus, Coherent, SetCondition;
  }

  /** Terminating does get overwritten: it is persisted, the process restarts, and the first
      reconcile finds no config. */
  lemma TerminatingCanBeOverwritten() returns (w: World, before: seq<Event>, es: seq<Event>)
    ensures Initial(w) && AllTame(before) && AllTame(es)
    ensures var s := Run(w, before).s;
      s.obj.Some? && s.obj.value.uid == 0 && s.obj.value.status.phase == PHASE_TERMINATING
    ensures !AlwaysGoneOrTerminating(Run(w, before), es, 0)
  {
    w := START;
    var first := Granting(w, Env(UserCreate(PLAIN, {})), Env(ConfigStored(Some(CONFIG))));
    var second := Terminated(Run(w, first));
    before := first + second;
    RunAppend(w, first, second);
    RunKeeps(w, before);
    es := Reported(Run(w, before), 0);
    hide Run, AlwaysGoneOrTerminating;
  }

  // ---- a run in which it lands on an object that is not in deletion

  predicate LeavesAccess(es: seq<Event>) {
    forall e | e in es :: e.Env? ==> !e.e.AccessTamper?
  }

  const RENEWAL_FAILS := Ctl(Tick(Ok, 0, Reply(Granted, Absent, Failed)))

  /** The finalizer of the object in deletion is stripped, and it is made anew. */
  lemma MadeAnew(w: World, c: Ctx)
    requires w.s.obj == Some(Obj(0, 2, PLAIN, true, {FINALIZER}, NO_STATUS)) && w.s.nextUid == 1
    ensures var w' := Run(w, [Env(StripFinalizer)] + ([Env(UserCreate(PLAIN, {}))] + []));
      && w'.th == w.th && w'.s.obj == Some(Obj(1, 1, PLAIN, false, {}, NO_STATUS))
      && w'.s.requests == w.s.requests
  {
    var strip, create := Env(StripFinalizer), Env(UserCreate(PLAIN, {}));
    var w1 := Step(w, strip);
    assert {FINALIZER} - {FINALIZER} == {};
    assert w1 == World(w.s.(obj := None), w.th);
    RunCons(w, strip, [create] + []);
    RunCons(w1, create, []);
    RunEmpty(Step(w1, create));
    hide Run;
  }

  /** With a config again, the next reconcile installs: its finalizer is added, its access fails, and it says so. */
  lemma ReconciledAnew(w: World, o: Obj)
    requires w.th == Idle && w.s.obj == Some(o) && w.s.cache == Some(CONFIG) && !o.deleting && o.finalizers == {}
    requires o.generation == 1 && o.status.phase == PHASE_TERMINATING && o.status.observedGeneration == 2
    requires w.s.requests == Requests(Granted, Absent, false)
    ensures var es := [GRANT] + ([GRANT] + ([GRANT] + ([RENEWAL_FAILS] + ([GRANT] + []))));
      var s := Run(w, es).s; s.obj.Some? && s.obj.value.uid == o.uid && s.obj.value.status.phase == PHASE_PROGRESSING
    ensures Observed.AlwaysLoaded(w, [GRANT] + ([GRANT] + ([GRANT] + ([RENEWAL_FAILS] + ([GRANT] + [])))))
  {
    var o' := o.(finalizers := {FINALIZER});
    assert {} + {FINALIZER} == {FINALIZER};
    var w1 := Step(w, GRANT);
    assert w1.th == Reread(Ctx(o, o, o, CONFIG)) && w1.s == w.s.(history := w1.s.history);
    var w2 := Step(w1, GRANT);
    assert w2.th == AddFinalizer(Ctx(o, o, o', CONFIG)) && w2.s == w.s.(history := w2.s.history);
    var w3 := Step(w2, GRANT);
    var c := Ctx(o, o', o', CONFIG);
    assert w3.th == Accessing(c, false, Renew) && w3.s == w.s.(obj := Some(o'), history := w3.s.history);
    var w4 := Step(w3, RENEWAL_FAILS);
    FailedAccess(w3, c);
    var w5 := Step(w4, GRANT);
    RunCons(w, GRANT, [GRANT] + ([GRANT] + ([RENEWAL_FAILS] + ([GRANT] + []))));
    RunCons(w1, GRANT, [GRANT] + ([RENEWAL_FAILS] + ([GRANT] + [])));
    RunCons(w2, GRANT, [RENEWAL_FAILS] + ([GRANT] + []));
    RunCons(w3, RENEWAL_FAILS, [GRANT] + []);
    RunCons(w4, GRANT, []);
    RunEmpty(w5);
    hide Run, Step;
    LoadedCons(w4, GRANT, []);
    LoadedCons(w3, RENEWAL_FAILS, [GRANT] + []);
    LoadedCons(w2, GRANT, [RENEWAL_FAILS] + ([GRANT] + []));
    LoadedCons(w1, GRANT, [GRANT] + ([RENEWAL_FAILS] + ([GRANT] + [])));
    LoadedCons(w, GRANT, [GRANT] + ([GRANT] + ([RENEWAL_FAILS] + ([GRANT] + []))));
  }

  lemma FailedAccess(w: World, c: Ctx)
    requires w.th == Accessing(c, false, Renew) && w.s.obj == Some(c.seen) && c.obj == c.seen && c.seen != c.base
    requires c.base.status == c.seen.status && c.obj.generation == 1
    requires c.seen.status.phase == PHASE_TERMINATING && c.seen.status.observedGeneration == 2
    requires w.s.requests == Requests(Granted, Absent, false)
    ensures var w1 := Step(w, RENEWAL_FAILS); var s := Step(w1, GRANT).s;
      && !w1.th.Idle?
      && s.obj.Some? && s.obj.value.uid == c.seen.uid && s.obj.value.status.phase == PHASE_PROGRESSING
  {
    hide SetCondition;
  }

  lemma LoadedCons(w: World, e: Event, es: seq<Event>)
    requires (w.th.Idle? && e.Ctl? ==> w.s.cache.Some?) && Observed.AlwaysLoaded(Step(w, e), es)
    ensures Observed.AlwaysLoaded(w, [e] + es)
  {
    assert ([e] + es)[1..] == es;
  }

  lemma {:induction false} TerminatingToTheEnd(w: World, es: seq<Event>, uid: nat)
    ensures AlwaysGoneOrTerminating(w, es, uid) ==> GoneOrTerminating(Run(w, es).s, uid)
    decreases |es|
  {
    hide Step, GoneOrTerminating;
    if es != [] {
      TerminatingToTheEnd(Step(w, es[0]), es[1..], uid);
    }
  }

  /** The delete goes on with its cleanup while the object is made anew; its patch then lands on the new one. */
  lemma Astray(w: World, c: Ctx) returns (es: seq<Event>)
    requires w.th == Cleaning(c, HERE, CleanDeploymentGet) && w.s.plane == START.s.plane && w.s.nextUid == 1
    requires c.base == c.seen == Obj(0, 2, PLAIN, true, {FINALIZER}, NO_STATUS) && WritesTerminating(c)
    requires w.s.obj == Some(c.seen)
    ensures LeavesAccess(es)
    ensures var w' := Run(w, es);
      && w'.th.Releasing? && w'.s.obj == Some(Obj(1, 1, PLAIN, false, {}, c.obj.status))
      && w'.s.requests == w.s.requests
  {
    var clean := [GRANT] + ([GRANT] + []);
    var anew := [Env(StripFinalizer)] + ([Env(UserCreate(PLAIN, {}))] + []);
    var patch := [GRANT] + [];
    es := clean + anew + patch;
    RunAppend(w, clean + anew, patch);
    RunAppend(w, clean, anew);
    hide Run, Step;
    CleanedUp(w, c);
    MadeAnew(Run(w, clean), c);
    PatchedTerminating(Run(w, clean + anew), c, Obj(1, 1, PLAIN, false, {}, NO_STATUS));
  }

  /** The condition of TerminatingIsSticky can fail: during a delete the finalizer is stripped and the object made anew,
      and the delete's status patch lands on the new one, which nobody deletes. The next reconcile, with its config,
      overwrites it. */
  lemma TerminatingCanGoAstray() returns (w: World, before: seq<Event>, es: seq<Event>)
    ensures Initial(w) && LeavesAccess(before) && AllTame(es)
    ensures var s := Run(w, before).s;
      && s.obj.Some? && s.obj.value.uid == 1
      && s.obj.value.status.phase == PHASE_TERMINATING && !s.obj.value.deleting
    ensures NeverOverwritten(Run(w, before), es, 1) && !AlwaysGoneOrTerminating(Run(w, before), es, 1)
  {
    w := START;
    var first := Granting(w, Env(UserCreate(PLAIN, {})), Env(ConfigStored(Some(CONFIG))));
    var start, c := DeleteStarted(Run(w, first));
    var last := Astray(Run(Run(w, first), start), c);
    before := first + start + last;
    RunAppend(w, first + start, last);
    RunAppend(w, first, start);
    assert forall e | e in first + start :: Tame(e);
    es := Revised(Run(w, before), Obj(1, 1, PLAIN, false, {}, c.obj.status));
    hide Run, NeverOverwritten, AlwaysGoneOrTerminating;
  }

  /** After a restart that finds its config at once. */
  lemma Revised(w: World, o: Obj) returns (es: seq<Event>)
    requires w.th.Releasing? && w.s.obj == Some(o) && !o.deleting && o.finalizers == {}
    requires o.generation == 1 && o.status.phase == PHASE_TERMINATING && o.status.observedGeneration == 2
    requires w.s.requests == Requests(Granted, Absent, false)
    ensures AllTame(es) && NeverOverwritten(w, es, o.uid) && !AlwaysGoneOrTerminating(w, es, o.uid)
  {
    var restart := [Env(Crash)] + ([Env(ConfigStored(Some(CONFIG)))] + []);
    var calls := [GRANT] + ([GRANT] + ([GRANT] + ([RENEWAL_FAILS] + ([GRANT] + []))));
    es := restart + calls;
    hide Run, Step;
    Restarted(w);
    RunAppend(w, restart, calls);
    ReconciledAnew(Run(w, restart), o);
    RestartLoads(w, calls);
    LoadedNeverOverwrites(w, es, o.uid);
    TerminatingToTheEnd(w, es, o.uid);
  }

  /** The reconciles after such a restart have a config, if those after it do. */
  lemma RestartLoads(w: World, calls: seq<Event>)
    requires var restart := [Env(Crash)] + ([Env(ConfigStored(Some(CONFIG)))] + []);
      Observed.AlwaysLoaded(Run(w, restart), calls)
    ensures Observed.AlwaysLoaded(w, [Env(Crash)] + ([Env(ConfigStored(Some(CONFIG)))] + []) + calls)
  {
    var crash, config := Env(Crash), Env(ConfigStored(Some(CONFIG)));
    var w1 := Step(w, crash);
    hide Run, Step;
    RunCons(w, crash, [config] + []);
    RunCons(w1, config, []);
    RunEmpty(Step(w1, config));
    LoadedCons(w1, config, calls);
    LoadedCons(w, crash, [config] + calls);
    assert [crash] + ([config] + []) + calls == [crash] + ([config] + calls);
  }
}
