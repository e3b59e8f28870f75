/** Which incarnation a persisted Ready speaks of: the one its pass read, exactly as long as no Ready patch meets
    another one; and the finalizer sees to that. */
module ReadyHome {
  import opened Kube
  import opened Api
  import opened StatusWrites
  import opened Desired
  import opened Machine
  import opened ReadyRuns
  import opened Scenario
  import Guard
  import StatusRuns

  /** A Ready status in the log is stored on the incarnation its pass read. */
  predicate AtHome(e: Entry) {
    e.act.StatusPut? && e.act.status.phase == PHASE_READY && e.act.evidence.Some? ==>
      e.act.evidence.value.read.uid == e.act.uid
  }

  predicate AllAtHome(log: seq<Entry>) {
    forall j | 0 <= j < |log| :: AtHome(log[j])
  }

  /** If this event lands a Ready patch, it meets the incarnation the pass read. */
  predicate LandsHome(w: World, e: Event) {
    && w.th.Closing? && w.th.c.obj.status.phase == PHASE_READY && e.Ctl? && PatchLands(w.s.obj, w.th.c, e.t.fate) ==>
      w.s.obj.value.uid == w.th.c.seen.uid
  }

  /** This call sends a Ready patch to an object that has taken the name since the pass read its own, the patch
      demands no version, because none has moved since the snapshot, and it carries generation and phase, because
      the snapshot had others. */
  predicate Strays(w: World, e: Event) {
    && w.th.Closing? && w.th.c.obj.status.phase == PHASE_READY && e.Ctl? && Lands(e.t.fate)
    && w.s.obj.Some? && w.s.obj.value.uid != w.th.c.seen.uid
    && w.th.c.seen == w.th.c.base
    && w.th.c.base.status.observedGeneration != w.th.c.seen.generation
    && w.th.c.base.status.phase != PHASE_READY
  }

  ghost predicate NeverStrays(w: World, es: seq<Event>)
    decreases |es|
  {
    es != [] ==> !Strays(w, es[0]) && NeverStrays(Step(w, es[0]), es[1..])
  }

  /** Such patches, and no others, land on another incarnation. */
  lemma StraysExactly(w: World, e: Event)
    requires RecordInv(w) && StatusRuns.Inv(w)
    ensures Strays(w, e) <==> !LandsHome(w, e)
  {
    if w.th.Closing? && w.th.c.obj.status.phase == PHASE_READY && w.th.c.seen == w.th.c.base && w.s.obj.Some?
      && w.s.obj.value.uid != w.th.c.seen.uid
    {
      StrayLands(w.s.obj.value, w.th.c);
    }
    hide AllEarned, Coherent, Merge, ValidStatus, Justified;
  }

  /** Without a version, whether the schema admits what the patch leaves behind on an object without a status. */
  lemma StrayLands(o: Obj, c: Ctx)
    requires o.status == NO_STATUS && CoherentOrNone(c.base.status) && Coherent(c.obj.status)
    requires c.obj.status.phase == PHASE_READY && c.obj.status != c.base.status && c.obj.status.observedGeneration >= 1
    ensures ValidStatus(MergedInto(o, c).status)
      <==> c.base.status.observedGeneration != c.obj.status.observedGeneration && c.base.status.phase != PHASE_READY
  {
  }

  /** The log is as it was, or has one more entry, which is at home or not as `home` says. */
  predicate Grows(log: seq<Entry>, log': seq<Entry>, home: bool) {
    || (log' == log && home)
    || (|log'| == |log| + 1 && log'[..|log|] == log && (AtHome(log'[|log|]) <==> home))
  }

  lemma GrowsHome(log: seq<Entry>, log': seq<Entry>, home: bool)
    requires Grows(log, log', home)
    ensures AllAtHome(log') <==> AllAtHome(log) && home
  {
    if log' != log {
      assert log' == log + [log'[|log|]];
    }
    hide AtHome;
  }

  lemma ClosingGrows(s: Stores, c: Ctx, res: Result, evidence: Option<Evidence>, t: Tick)
    requires RecordInv(World(s, Closing(c, res, evidence))) && StatusRuns.Inv(World(s, Closing(c, res, evidence)))
    ensures Grows(s.history.log, StepClosing(s, c, res, evidence, t).s.history.log,
                  LandsHome(World(s, Closing(c, res, evidence)), Ctl(t)))
  {
    StatusRuns.PatchResult(s, c, evidence, t.fate);
    hide AllEarned, PatchLands, LastOf, Coherent, Merge, Justified;
  }

  lemma InstallGrows(s: Stores, c: Ctx, ns: string, d: DomainPoint, t: Tick)
    ensures Grows(s.history.log, StepInstalling(s, c, ns, d, t).s.history.log, true)
  {
    InstallEntry(s, c, ns, d, t);
    CallActs(s.plane, s.platform, c, ns, d, t);
    hide DomainCall, StepInstalling, EntryTrue;
  }

  lemma OtherGrows(s: Stores, th: Thread, t: Tick)
    requires !th.Closing? && !th.Installing?
    ensures Grows(s.history.log, StepCtl(s, th, t).s.history.log, true)
  {
    hide PatchLands, MergedInto, LastOf, AccessCall, AccessEffect, ResolveNamespace, Cleanup, SetCondition;
  }

  lemma StepGrows(w: World, e: Event)
    requires RecordInv(w) && StatusRuns.Inv(w)
    ensures Grows(w.s.history.log, Step(w, e).s.history.log, LandsHome(w, e))
  {
    match e {
      case Env(_) =>
      case Ctl(t) =>
        match w.th
        case Closing(c, res, evidence) => ClosingGrows(w.s, c, res, evidence, t);
        case Installing(c, ns, d) => InstallGrows(w.s, c, ns, d, t);
        case _ => OtherGrows(w.s, w.th, t);
    }
    hide StepClosing, StepInstalling, ObjectEvent, PlaneEvent, RequestsEvent, AtHome, PatchLands, RecordInv,
      StatusRuns.Inv;
  }

  lemma {:induction false} RunHome(w: World, es: seq<Event>)
    requires RecordInv(w) && StatusRuns.Inv(w)
    ensures AllAtHome(Run(w, es).s.history.log) <==> AllAtHome(w.s.history.log) && NeverStrays(w, es)
    decreases |es|
  {
    hide RecordInv, StatusRuns.Inv, Step, AllAtHome, LandsHome, Strays, Grows;
    if es != [] {
      StepGrows(w, es[0]);
      StraysExactly(w, es[0]);
      GrowsHome(w.s.history.log, Step(w, es[0]).s.history.log, LandsHome(w, es[0]));
      StepKeeps(w, es[0]);
      StatusRuns.StepKeeps(w, es[0]);
      RunHome(Step(w, es[0]), es[1..]);
    }
  }

  /** Over every run: each Ready that was ever stored sits on the incarnation its pass read if and only if no Ready
      patch strayed: none was sent without a version, and with all a status needs, after another object had taken
      the name. */
  lemma ReadyAtHome(w: World, es: seq<Event>)
    requires Initial(w)
    ensures AllAtHome(Run(w, es).s.history.log) <==> NeverStrays(w, es)
  {
    RunHome(w, es);
  }

  // ---- the finalizer keeps Ready patches at home

  /** From the moment the finalizer is known to be stored, the install works on a pinned object. */
  predicate Pins(s: Stores, th: Thread) {
    match th
    case AddFinalizer(c) => FINALIZER in c.obj.finalizers
    case Accessing(c, deleting, _) => !deleting ==> Guard.Pinned(s, c)
    case Installing(c, _, _) => Guard.Pinned(s, c)
    case Closing(c, _, evidence) => evidence.Some? ==> Guard.Pinned(s, c)
    case _ => true
  }

  /** Nobody strips the finalizer while an install that relies on it is under way. */
  predicate LeavesFinalizer(w: World, e: Event) {
    (w.th.Accessing? && !w.th.deleting) || w.th.Installing? || w.th.Closing? ==> e.Env? ==> !e.e.StripFinalizer?
  }

  ghost predicate AlwaysLeavesFinalizer(w: World, es: seq<Event>)
    decreases |es|
  {
    es != [] ==> LeavesFinalizer(w, es[0]) && AlwaysLeavesFinalizer(Step(w, es[0]), es[1..])
  }

  lemma EventPins(w: World, e: EnvEvent)
    requires Pins(w.s, w.th) && LeavesFinalizer(w, Env(e))
    ensures var w' := Step(w, Env(e)); Pins(w'.s, w'.th)
  {
    hide PlaneEvent, RequestsEvent;
  }

  lemma InstallPins(s: Stores, c: Ctx, ns: string, d: DomainPoint, t: Tick)
    requires Guard.Pinned(s, c)
    ensures var w := StepInstalling(s, c, ns, d, t); Pins(w.s, w.th)
  {
    hide DomainCall, LastOf;
  }

  lemma CtlPins(s: Stores, th: Thread, t: Tick)
    requires Pins(s, th) && !th.Installing?
    ensures var w := StepCtl(s, th, t); Pins(w.s, w.th)
  {
    hide PatchLands, MergedInto, LastOf, ResolveNamespace, Cleanup, AccessCall, AccessEffect, SetCondition;
  }

  lemma StepPins(w: World, e: Event)
    requires Pins(w.s, w.th) && LeavesFinalizer(w, e)
    ensures var w' := Step(w, e); Pins(w'.s, w'.th)
  {
    match e {
      case Env(e) => EventPins(w, e);
      case Ctl(t) =>
        if w.th.Installing? {
          InstallPins(w.s, w.th.c, w.th.ns, w.th.d, t);
        } else {
          CtlPins(w.s, w.th, t);
        }
    }
    hide StepInstalling, StepEnv;
  }

  lemma PinnedLandsHome(w: World, e: Event)
    requires Pins(w.s, w.th) && RecordInv(w)
    ensures LandsHome(w, e)
  {
    hide AllEarned, PatchLands, Justified;
  }

  lemma {:induction false} RunPins(w: World, es: seq<Event>)
    requires Pins(w.s, w.th) && RecordInv(w) && StatusRuns.Inv(w) && AlwaysLeavesFinalizer(w, es)
    ensures NeverStrays(w, es)
    decreases |es|
  {
    hide RecordInv, StatusRuns.Inv, Step, Pins, LandsHome, Strays, LeavesFinalizer;
    if es != [] {
      PinnedLandsHome(w, es[0]);
      StraysExactly(w, es[0]);
      StepPins(w, es[0]);
      StepKeeps(w, es[0]);
      StatusRuns.StepKeeps(w, es[0]);
      RunPins(Step(w, es[0]), es[1..]);
    }
  }

  /** Ready fidelity in full, as long as nobody takes our finalizer away during an install, whatever becomes of it
      otherwise and of the access requests: every stored Ready is earned, and by a pass over the very incarnation that
      carries it. */
  lemma ReadyOfThisIncarnation(w: World, es: seq<Event>)
    requires Initial(w) && AlwaysLeavesFinalizer(w, es)
    ensures AllEarned(Run(w, es).s.history.log) && AllAtHome(Run(w, es).s.history.log)
  {
    ReadyIsEarned(w, es);
    RunPins(w, es);
    ReadyAtHome(w, es);
  }

  // ---- a run in which Ready lands on another incarnation

  /** A second pass over an object that has its finalizer: what it patches carries no resourceVersion. */
  lemma SecondPass(w: World) returns (es: seq<Event>)
    requires AtInstall(w)
    ensures AllTame(es) && AtInstall(Run(w, es)) && Run(w, es).s.obj == w.s.obj
    ensures var c := Run(w, es).th.c; c.base == c.seen == w.s.obj.value
  {
    var restart := [Env(Crash)] + ([Env(ConfigStored(Some(CONFIG)))] + []);
    var gets := [GRANT] + ([GRANT] + []);
    var access := [GRANT] + ([GRANT] + ([GRANT] + []));
    es := restart + gets + access;
    RunAppend(w, restart + gets, access);
    RunAppend(w, restart, gets);
    hide Run, SetProgressing;
    var o := w.s.obj.value;
    Restarted(w);
    FoundFinalizer(Run(w, restart), o);
    AccessThree(Run(w, restart + gets));
    Progresses(Ctx(o, o, o, CONFIG));
  }

  lemma Progresses(c: Ctx)
    ensures var c' := SetProgressing(c, "Reconciling", "Reconcile in progress", 0);
      c' == c.(obj := c'.obj) && c'.obj.spec == c.obj.spec && c'.obj.generation == c.obj.generation
  {
    hide SetCondition;
  }

  lemma FoundFinalizer(w: World, o: Obj)
    requires w.th == Idle && w.s.obj == Some(o) && w.s.cache == Some(CONFIG) && FINALIZER in o.finalizers && !o.deleting
    ensures var w' := Run(w, [GRANT] + ([GRANT] + []));
      w'.s == w.s.(history := w'.s.history) && w'.th == Accessing(Ctx(o, o, o, CONFIG), false, Renew)
  {
    var w1 := Step(w, GRANT);
    assert w1.th == Reread(Ctx(o, o, o, CONFIG)) && w1.s == w.s.(history := w1.s.history);
    RunCons(w, GRANT, [GRANT] + []);
    RunCons(w1, GRANT, []);
    RunEmpty(Step(w1, GRANT));
    hide Run;
  }

  /** The install is complete and its Ready status is about to be patched. */
  predicate AboutToPatch(w: World, c: Ctx) {
    && w.th.Closing? && w.th.c == SetReady(c, 0) && w.th.c.obj.status != w.th.c.base.status
    && w.th.evidence.Some? && w.th.evidence.value.read == c.seen
  }

  lemma Completed(w: World) returns (es: seq<Event>)
    requires AtInstall(w) && w.th.c.base.status == NO_STATUS
    ensures AllTame(es)
    ensures var w' := Run(w, es); AboutToPatch(w', w.th.c) && w'.s.obj == w.s.obj && w'.s.nextUid == w.s.nextUid
  {
    var gets := [GRANT] + ([GRANT] + ([GRANT] + []));
    var puts := [GRANT] + ([GRANT] + []);
    var service := [GRANT] + ([GRANT] + []);
    es := gets + puts + service;
    RunAppend(w, gets + puts, service);
    RunAppend(w, gets, puts);
    InstallReads(w);
    InstallWrites(Run(w, gets), w.th.c);
    ServicePut(Run(w, gets + puts), w.th.c);
    hide Run, Step;
  }

  lemma ServicePut(w: World, c: Ctx)
    requires AtService(w.th, c) && OneDeployment(w.s.plane) && HERE in w.s.plane.mcp.namespaces
    requires c.base.status == NO_STATUS
    ensures var w' := Run(w, [GRANT] + ([GRANT] + []));
      AboutToPatch(w', c) && w'.s == w.s.(plane := w'.s.plane, history := w'.s.history)
  {
    var d := w.th.d;
    var svc := MutateService(NEW_SERVICE);
    var w1 := World(w.s, Installing(c, HERE, ServiceCreate(d.sources, d.cm, d.secret, d.d, svc)));
    assert Step(w, GRANT) == w1;
    RunCons(w, GRANT, [GRANT] + []);
    RunCons(w1, GRANT, []);
    RunEmpty(Step(w1, GRANT));
    ReadyDiffers(c);
    hide Run, SetReady;
  }

  lemma ReadyDiffers(c: Ctx)
    ensures SetReady(c, 0).obj.status != NO_STATUS && SetReady(c, 0).base == c.base && SetReady(c, 0).seen == c.seen
  {
    hide SetCondition;
  }

  /** Its finalizer stripped, the object is deleted and made anew before the patch. */
  lemma Replaced(w: World, c: Ctx) returns (es: seq<Event>)
    requires w.s.obj == Some(Obj(0, 1, PLAIN, false, {FINALIZER}, NO_STATUS)) && w.s.nextUid == 1
    requires AboutToPatch(w, c) && c.base == c.seen == w.s.obj.value && c.obj.generation == 1
    ensures AllLeaveAccess(es) && !NeverStrays(w, es)
  {
    var strip, delete, create := Env(StripFinalizer), Env(UserDelete), Env(UserCreate(PLAIN, {}));
    es := [strip] + ([delete] + ([create] + ([GRANT] + [])));
    var w1 := World(w.s.(obj := Some(Obj(0, 1, PLAIN, false, {}, NO_STATUS))), w.th);
    var w2 := World(w.s.(obj := None), w.th);
    var w3 := World(w.s.(obj := Some(Obj(1, 1, PLAIN, false, {}, NO_STATUS)), nextUid := 2), w.th);
    assert {FINALIZER} - {FINALIZER} == {};
    assert Step(w, strip) == w1;
    assert Step(w1, delete) == w2;
    assert Step(w2, create) == w3;
    ReadyStrays(w3, c);
    hide Step, Strays;
    assert es[1..] == [delete] + ([create] + ([GRANT] + []));
    assert es[1..][1..] == [create] + ([GRANT] + []);
    assert es[1..][1..][1..] == [GRANT] + [];
    assert !NeverStrays(w3, [GRANT] + []);
    assert !NeverStrays(w2, [create] + ([GRANT] + []));
    assert !NeverStrays(w1, [delete] + ([create] + ([GRANT] + [])));
  }

  /** A Ready status over none carries all it needs. */
  lemma ReadyStrays(w: World, c: Ctx)
    requires w.th.Closing? && w.th.c == SetReady(c, 0) && c.base == c.seen && c.base.status == NO_STATUS
    requires c.seen.generation == 1 && w.s.obj.Some? && w.s.obj.value.uid != c.seen.uid
    ensures Strays(w, GRANT)
  {
    hide SetCondition;
  }

  predicate AllLeaveAccess(es: seq<Event>) {
    forall e | e in es :: e.Env? ==> !e.e.AccessTamper?
  }

  /** Without the finalizer a Ready can be stored on an incarnation nobody reconciled: the condition of ReadyAtHome
      fails, and only somebody stripping the finalizer can make it fail. */
  lemma ReadyCanGoAstray() returns (w: World, es: seq<Event>)
    ensures Initial(w) && AllLeaveAccess(es) && !NeverStrays(w, es) && !AllAtHome(Run(w, es).s.history.log)
  {
    w := START;
    var first := Granting(w, Env(UserCreate(PLAIN, {})), Env(ConfigStored(Some(CONFIG))));
    var second := SecondPass(Run(w, first));
    var w2 := Run(w, first + second);
    RunAppend(w, first, second);
    var third := Completed(w2);
    var w3 := Run(w2, third);
    var last := Replaced(w3, w2.th.c);
    es := first + second + third + last;
    RunAppend(w, first + second, third);
    HomeAppend(w, first + second + third, last);
    assert forall e | e in first + second + third :: Tame(e);
    ReadyAtHome(w, es);
    hide Run, NeverStrays;
  }

  lemma {:induction false} HomeAppend(w: World, es: seq<Event>, fs: seq<Event>)
    ensures NeverStrays(w, es + fs) ==> NeverStrays(Run(w, es), fs)
    decreases |es|
  {
    hide Step, Strays;
    if es == [] {
      assert es + fs == fs;
    } else {
      assert (es + fs)[1..] == es[1..] + fs;
      HomeAppend(Step(w, es[0]), es[1..], fs);
    }
  }
}
