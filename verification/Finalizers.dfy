/** What the controller does to the stored object itself: over every run it sets or drops its own finalizer and writes
    the status, and nothing else. */
module Finalizers {
  import opened Kube
  import opened Api
  import opened StatusWrites
  import opened Machine
  import Guard
  import StatusRuns

  /** The finalizers a thread would store are those it read, with ours where it is about to be added. */
  predicate Holds(th: Thread) {
    match th
    case AddFinalizer(c) => c.obj.finalizers == c.seen.finalizers + {FINALIZER}
    case CheckMcpRequest(c) => c.obj.finalizers == c.seen.finalizers
    case CheckWorkloadRequest(c) => c.obj.finalizers == c.seen.finalizers
    case Accessing(c, _, _) => c.obj.finalizers == c.seen.finalizers
    case Cleaning(c, _, _) => c.obj.finalizers == c.seen.finalizers
    case CleanedPatch(c, _) => c.obj.finalizers == c.seen.finalizers
    case Releasing(c) => c.obj.finalizers == c.seen.finalizers
    case DropFinalizer(c) => c.obj.finalizers == c.seen.finalizers
    case _ => true
  }

  /** An object in deletion is there because somebody holds it. */
  predicate Held(s: Stores) {
    s.obj.Some? && s.obj.value.deleting ==> s.obj.value.finalizers != {}
  }

  predicate Inv(w: World) {
    Held(w.s) && Holds(w.th)
  }

  /** What a call may do to the stored object. */
  predicate OnlyOurs(stored: Option<Obj>, stored': Option<Obj>) {
    && (stored.None? ==> stored'.None?)
    && (stored.Some? && stored'.Some? ==>
          && stored'.value == stored.value.(finalizers := stored'.value.finalizers, status := stored'.value.status)
          && stored'.value.finalizers - {FINALIZER} == stored.value.finalizers - {FINALIZER})
    && (stored.Some? && stored'.None? ==> stored.value.deleting && stored.value.finalizers == {FINALIZER})
  }

  lemma PatchOurs(s: Stores, c: Ctx, evidence: Option<Evidence>, fate: Fate)
    ensures var s' := PatchStatus(s, c, evidence, fate);
      && OnlyOurs(s.obj, s'.obj) && (s.obj.Some? ==> s'.obj.Some? && s'.obj.value.finalizers == s.obj.value.finalizers)
  {
    hide Merge, ValidStatus;
  }

  lemma PatchingOurs(s: Stores, th: Thread, t: Tick)
    requires Inv(World(s, th)) && (th.NoConfigPatch? || th.Closing? || th.CleanedPatch?)
    ensures var w := StepCtl(s, th, t); Inv(w) && OnlyOurs(s.obj, w.s.obj)
  {
    match th
    case NoConfigPatch(base, obj) => PatchOurs(s, Ctx(base, base, obj, NO_CONFIG), None, t.fate);
    case Closing(c, _, evidence) => PatchOurs(s, c, evidence, t.fate);
    case CleanedPatch(c, _) => PatchOurs(s, c, None, t.fate);
    hide PatchStatus, PatchLands, LastOf;
  }

  lemma InstallOurs(s: Stores, c: Ctx, ns: string, d: DomainPoint, t: Tick)
    requires Inv(World(s, Installing(c, ns, d)))
    ensures var w := StepInstalling(s, c, ns, d, t); Inv(w) && OnlyOurs(s.obj, w.s.obj)
  {
    hide DomainCall, LastOf, SetCondition;
  }

  lemma AccessOurs(s: Stores, c: Ctx, deleting: bool, at: AccessPoint, t: Tick)
    requires Inv(World(s, Accessing(c, deleting, at)))
    ensures var w := StepAccessing(s, c, deleting, at, t); Inv(w) && OnlyOurs(s.obj, w.s.obj)
  {
    hide AccessCall, AccessEffect, ResolveNamespace, LastOf, SetCondition;
  }

  lemma FinalizerOurs(s: Stores, th: Thread, t: Tick)
    requires Inv(World(s, th)) && (th.Idle? || th.Reread? || th.Recreate? || th.AddFinalizer?)
    ensures var w := StepCtl(s, th, t); Inv(w) && OnlyOurs(s.obj, w.s.obj)
  {
    hide LastOf, SetCondition;
  }

  lemma DeleteOurs(s: Stores, th: Thread, t: Tick)
    requires Inv(World(s, th))
    requires th.CheckMcpRequest? || th.CheckWorkloadRequest? || th.Cleaning? || th.Releasing? || th.DropFinalizer?
    ensures var w := StepCtl(s, th, t); Inv(w) && OnlyOurs(s.obj, w.s.obj)
  {
    hide LastOf, Cleanup, ReleaseReply;
  }

  lemma CallOurs(s: Stores, th: Thread, t: Tick)
    requires Inv(World(s, th))
    ensures var w := StepCtl(s, th, t); Inv(w) && OnlyOurs(s.obj, w.s.obj)
  {
    match th
    case Accessing(c, deleting, at) => AccessOurs(s, c, deleting, at, t);
    case Installing(c, ns, d) => InstallOurs(s, c, ns, d, t);
    case NoConfigPatch(_, _) => PatchingOurs(s, th, t);
    case Closing(_, _, _) => PatchingOurs(s, th, t);
    case CleanedPatch(_, _) => PatchingOurs(s, th, t);
    case Idle => FinalizerOurs(s, th, t);
    case Reread(_) => FinalizerOurs(s, th, t);
    case Recreate(_) => FinalizerOurs(s, th, t);
    case AddFinalizer(_) => FinalizerOurs(s, th, t);
    case _ => DeleteOurs(s, th, t);
    hide StepAccessing, StepInstalling, StepClosing, StepNoConfigPatch, StepCleanedPatch, Begin, StepReread,
      StepRecreate, StepAddFinalizer, StepCheckMcpRequest, StepCheckWorkloadRequest, StepCleaning, StepReleasing,
      StepDropFinalizer, Inv, OnlyOurs;
  }

  lemma EventKeeps(w: World, e: EnvEvent)
    requires Inv(w)
    ensures Inv(Step(w, Env(e)))
  {
    hide PlaneEvent, RequestsEvent;
  }

  lemma {:induction false} RunKeeps(w: World, es: seq<Event>)
    requires Inv(w)
    ensures Inv(Run(w, es))
    decreases |es|
  {
    if es != [] {
      match es[0] {
        case Env(e) => EventKeeps(w, e);
        case Ctl(t) => CallOurs(w.s, w.th, t);
      }
      hide Inv, StepCtl, StepEnv, OnlyOurs;
      RunKeeps(Step(w, es[0]), es[1..]);
    }
  }

  /** Over every run, each call of the controller leaves the stored object as it is but for its status and our
      finalizer: whoever else holds the object goes on holding it. If the object is gone after the call, it was in
      deletion and ours was the only finalizer left. */
  lemma OthersFinalizersKept(w: World, es: seq<Event>, t: Tick)
    requires Initial(w)
    ensures var o, o' := Run(w, es).s.obj, Step(Run(w, es), Ctl(t)).s.obj;
      && (o.None? ==> o'.None?)
      && (o.Some? && o'.Some? ==>
            && o'.value == o.value.(finalizers := o'.value.finalizers, status := o'.value.status)
            && o'.value.finalizers - {FINALIZER} == o.value.finalizers - {FINALIZER})
      && (o.Some? && o'.None? ==> o.value.deleting && o.value.finalizers == {FINALIZER})
  {
    RunKeeps(w, es);
    CallOurs(Run(w, es).s, Run(w, es).th, t);
    hide Run, StepCtl;
  }

  // ---- when ours goes

  predicate ReleasesDeleting(th: Thread) {
    th.Releasing? || th.DropFinalizer? ==> th.c.seen.deleting
  }

  lemma DeleteReleases(s: Stores, th: Thread, t: Tick)
    requires StatusRuns.Inv(World(s, th)) && Guard.Inv(World(s, th)) && ReleasesDeleting(th)
    ensures ReleasesDeleting(StepCtl(s, th, t).th)
  {
    match th
    case CleanedPatch(c, failed) => PatchedDeleting(s, c, failed, t);
    case Installing(c, ns, d) => InstallReleasesNone(s, c, ns, d, t);
    case Accessing(c, deleting, at) => AccessReleasesNone(s, c, deleting, at, t);
    case Closing(c, res, evidence) =>
    case NoConfigPatch(_, _) =>
    case Cleaning(c, ns, at) => CleaningReleases(s, c, ns, at, t);
    case _ => OtherReleases(s, th, t);
    hide StepInstalling, StepAccessing, StepCleanedPatch, StepCleaning, PatchStatus, LastOf, StatusRuns.Inv, Guard.Inv,
      Begin, StepReread, StepRecreate, StepAddFinalizer, StepCheckMcpRequest, StepCheckWorkloadRequest, StepReleasing,
      StepDropFinalizer;
  }

  lemma AccessReleasesNone(s: Stores, c: Ctx, deleting: bool, at: AccessPoint, t: Tick)
    ensures ReleasesDeleting(StepAccessing(s, c, deleting, at, t).th)
  {
    hide AccessCall, AccessEffect, ResolveNamespace, LastOf;
  }

  lemma CleaningReleases(s: Stores, c: Ctx, ns: string, at: CleanupPoint, t: Tick)
    requires StatusRuns.Inv(World(s, Cleaning(c, ns, at)))
    ensures ReleasesDeleting(StepCleaning(s, c, ns, at, t).th)
  {
    hide Cleanup, LastOf, StatusRuns.LocalCtx, StatusRuns.Stored;
  }

  lemma OtherReleases(s: Stores, th: Thread, t: Tick)
    requires StatusRuns.Inv(World(s, th)) && ReleasesDeleting(th)
    requires th.Idle? || th.Reread? || th.Recreate? || th.AddFinalizer? || th.CheckMcpRequest?
      || th.CheckWorkloadRequest? || th.Releasing? || th.DropFinalizer?
    ensures ReleasesDeleting(StepCtl(s, th, t).th)
  {
    hide LastOf, SetCondition, StatusRuns.LocalCtx, StatusRuns.Stored, ReleaseReply;
  }

  lemma InstallReleasesNone(s: Stores, c: Ctx, ns: string, d: DomainPoint, t: Tick)
    ensures ReleasesDeleting(StepInstalling(s, c, ns, d, t).th)
  {
    hide DomainCall;
  }

  lemma PatchedDeleting(s: Stores, c: Ctx, failed: bool, t: Tick)
    requires StatusRuns.Inv(World(s, CleanedPatch(c, failed))) && Guard.Inv(World(s, CleanedPatch(c, failed)))
    ensures ReleasesDeleting(StepCleanedPatch(s, c, failed, t).th)
  {
    hide StatusRuns.LocalCtx, Merge, ValidStatus, LastOf;
  }

  lemma {:induction false} RunReleases(w: World, es: seq<Event>)
    requires StatusRuns.Inv(w) && Guard.Inv(w) && ReleasesDeleting(w.th) && AllTame(es)
    ensures var w' := Run(w, es); StatusRuns.Inv(w') && Guard.Inv(w') && ReleasesDeleting(w'.th)
    decreases |es|
  {
    if es != [] {
      assert Tame(es[0]);
      StatusRuns.StepKeeps(w, es[0]);
      Guard.StepKeeps(w, es[0]);
      if es[0].Ctl? {
        DeleteReleases(w.s, w.th, es[0].t);
      }
      assert ReleasesDeleting(Idle);
      hide StatusRuns.Inv, Guard.Inv, StepCtl, StepEnv;
      RunReleases(Step(w, es[0]), es[1..]);
    }
  }

  /** Over every tame run, our own finalizer goes from an object only when that is in deletion and no access to its
      control plane is left. */
  lemma OurFinalizerLast(w: World, es: seq<Event>, t: Tick)
    requires Initial(w) && AllTame(es)
    ensures var b := Run(w, es); var o, o' := b.s.obj, Step(b, Ctl(t)).s.obj;
      o.Some? && FINALIZER in o.value.finalizers && (o'.None? || FINALIZER !in o'.value.finalizers) ==>
        o.value.deleting && !Guard.AccessAlive(b.s.requests)
  {
    RunReleases(w, es);
    RunKeeps(w, es);
    LastCall(Run(w, es).s, Run(w, es).th, t);
    hide Run, StepCtl, StatusRuns.Inv, Inv;
  }

  lemma LastCall(s: Stores, th: Thread, t: Tick)
    requires Inv(World(s, th)) && Guard.Inv(World(s, th)) && ReleasesDeleting(th)
    ensures var o, o' := s.obj, StepCtl(s, th, t).s.obj;
      o.Some? && FINALIZER in o.value.finalizers && (o'.None? || FINALIZER !in o'.value.finalizers) ==>
        o.value.deleting && !Guard.AccessAlive(s.requests)
  {
    if th.Installing? {
      InstallKeepsObject(s, th.c, th.ns, th.d, t);
    }
    hide StepInstalling, Cleanup, AccessCall, AccessEffect, ResolveNamespace, PatchLands, Merge, LastOf, SetCondition,
      ReleaseReply;
  }

  lemma InstallKeepsObject(s: Stores, c: Ctx, ns: string, d: DomainPoint, t: Tick)
    ensures StepInstalling(s, c, ns, d, t).s.obj == s.obj
  {
    hide DomainCall, LastOf;
  }
}
