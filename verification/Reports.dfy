/** What the status tells its reader: for each way a reconcile can end, the phase, the Ready condition, its reason
    and its message, on the object as it is stored. */
module Reports {
  import opened Kube
  import opened Api
  import opened StatusWrites
  import opened Desired
  import opened Machine
  import Endings
  import StatusRuns

  /** The status has this phase and one Ready condition with this truth, reason and message, both for generation
      `gen`. */
  predicate Says(st: Status, gen: nat, phase: string, truth: Truth, reason: string, message: string) {
    && st.phase == phase && st.observedGeneration == gen
    && CountOf(st.conditions, "Ready") == 1
    && var c := Find(st.conditions, "Ready");
    && c.Some? && c.value.status == truth && c.value.observedGeneration == gen
    && c.value.reason == reason && c.value.message == message
  }

  lemma WriteSays(st: Status, gen: nat, truth: Truth, reason: string, message: string, phase: string, now: int)
    requires CoherentOrNone(st)
    ensures Says(Write(st, gen, truth, reason, message, phase, now), gen, phase, truth, reason, message)
  {
    SetConditionEffect(st.conditions, Condition(READY, truth, gen, reason, message, 0), now);
    hide SetCondition;
  }

  // ---- what the running reconcile has written

  predicate SaysInstalling(c: Ctx) {
    Says(c.obj.status, c.obj.generation, "Progressing", False, "Reconciling", "Reconcile in progress")
  }

  predicate SaysTerminating(c: Ctx) {
    Says(c.obj.status, c.obj.generation, "Terminating", False, "Terminating", "Cleanup in progress")
  }

  predicate ThreadSays(th: Thread) {
    match th
    case Installing(c, _, _) => SaysInstalling(c)
    case Cleaning(c, _, _) => SaysTerminating(c)
    case CleanedPatch(c, _) => SaysTerminating(c)
    case NoConfigPatch(_, obj) =>
      Says(obj.status, obj.generation, "Progressing", False, "ReconcileError", "No ProviderConfig found")
    case _ => true
  }

  lemma CallSays(s: Stores, th: Thread, t: Tick)
    requires StatusRuns.Inv(World(s, th)) && ThreadSays(th)
    ensures ThreadSays(StepCtl(s, th, t).th)
  {
    match th {
      case Idle => BeginSays(s, t);
      case Accessing(c, deleting, at) => AccessSays(s, c, deleting, at, t);
      case Installing(c, ns, d) => InstallSays(s, c, ns, d, t);
      case _ => OtherSays(s, th, t);
    }
    hide Begin, StepAccessing, StepInstalling, StatusRuns.Inv, Says;
  }

  lemma BeginSays(s: Stores, t: Tick)
    requires StatusRuns.Inv(World(s, Idle))
    ensures ThreadSays(Begin(s, t).th)
  {
    if s.obj.Some? {
      var o := s.obj.value;
      WriteSays(o.status, o.generation, False, "ReconcileError", "No ProviderConfig found", PHASE_PROGRESSING, t.now);
    }
    hide Says, Write, Coherent;
  }

  lemma AccessSays(s: Stores, c: Ctx, deleting: bool, at: AccessPoint, t: Tick)
    requires StatusRuns.Inv(World(s, Accessing(c, deleting, at)))
    ensures ThreadSays(StepAccessing(s, c, deleting, at, t).th)
  {
    var go := AccessCall(s.requests, at, t);
    var s' := s.(requests := AccessEffect(s.requests, at, t));
    AccessedSays(s', c, go, t.now);
    hide ThreadSays, AccessCall, AccessEffect, AccessToInstall, AccessToCleanup, Coherent;
  }

  lemma AccessedSays(s: Stores, c: Ctx, go: AccessGo, now: int)
    requires CoherentOrNone(c.obj.status)
    ensures ThreadSays(AccessToInstall(s, c, go, now).th)
    ensures ThreadSays(AccessToCleanup(s, c, go, now).th)
  {
    var st, gen := c.obj.status, c.obj.generation;
    WriteSays(st, gen, False, "Reconciling", "Reconcile in progress", PHASE_PROGRESSING, now);
    WriteSays(st, gen, False, "Terminating", "Cleanup in progress", PHASE_TERMINATING, now);
    hide Says, Write, Coherent, ResolveNamespace, LastOf;
  }

  lemma InstallSays(s: Stores, c: Ctx, ns: string, d: DomainPoint, t: Tick)
    requires SaysInstalling(c)
    ensures ThreadSays(StepInstalling(s, c, ns, d, t).th)
  {
    hide Says, Write, DomainCall;
  }

  lemma OtherSays(s: Stores, th: Thread, t: Tick)
    requires ThreadSays(th) && !th.Idle? && !th.Accessing? && !th.Installing?
    ensures ThreadSays(StepCtl(s, th, t).th)
  {
    hide Says, Write, PatchLands, MergedInto, Cleanup, ReleaseReply;
  }

  lemma {:induction false} RunSays(w: World, es: seq<Event>)
    requires StatusRuns.Inv(w) && ThreadSays(w.th)
    ensures ThreadSays(Run(w, es).th) && StatusRuns.Inv(Run(w, es))
    decreases |es|
  {
    if es != [] {
      StatusRuns.StepKeeps(w, es[0]);
      if es[0].Ctl? {
        CallSays(w.s, w.th, es[0].t);
      }
      hide StatusRuns.Inv, ThreadSays, StepCtl, StepEnv;
      assert es[0].Env? && es[0].e.Crash? ==> Step(w, es[0]).th == Idle;
      IdleSays();
      RunSays(Step(w, es[0]), es[1..]);
    }
  }

  lemma IdleSays()
    ensures ThreadSays(Idle)
  {
  }

  // ---- how it reaches the stored object

  /** A status patch of this context leaves the stored object alone, or leaves on it the whole status it was made
      from; and it does that if the object is as last read, an incarnation the reconcile knew from its start. */
  lemma PatchSays(s: Stores, c: Ctx, evidence: Option<Evidence>, fate: Fate)
    requires StatusRuns.CtxInv(s, c) && c.obj.status != c.base.status
    requires Coherent(c.obj.status) && c.obj.status.observedGeneration == c.obj.generation
    ensures var s' := PatchStatus(s, c, evidence, fate);
      || s'.obj == s.obj
      || (s'.obj.Some? && s'.obj.value.status == c.obj.status)
    ensures s.obj == Some(c.seen) && c.base.uid == c.seen.uid && fate == Ok ==>
      PatchStatus(s, c, evidence, fate).obj == Some(c.seen.(status := c.obj.status))
  {
    StatusRuns.PatchResult(s, c, evidence, fate);
    if s.obj == Some(c.seen) && c.base.uid == c.seen.uid && fate == Ok {
      assert Merge(c.seen.status, c.base.status, c.obj.status) == c.obj.status;
    }
    hide Coherent, PatchStatus;
  }

  // ---- the ends of createOrUpdate

  /** How a createOrUpdate that got past the finalizer ends, other than Ready. */
  datatype End =
    | AccessLost
    | AccessWaits
    | InstallFailed
    | Unprepared(configMap: bool, secret: bool, ns: string)

  /** Whether this call is such an end: clusters() fails or has to wait, a call of the install fails or is refused,
      or the ConfigMap or the Secret, or both, are missing. */
  function EndOf(s: Stores, th: Thread, t: Tick): Option<End> {
    match th
    case Accessing(_, false, at) =>
      if Endings.NoAccess(s.requests, at, t) then Some(AccessLost)
      else if at == Renew && t.reply.verdict.delay > 0 then Some(AccessWaits)
      else None
    case Installing(c, ns, d) =>
      if t.fate != Ok || Endings.Refused(s.plane, s.platform, c, ns, d) then Some(InstallFailed)
      else if d.SecretGet? && (d.found.None? || Key(ns, "otel-collector-secret") !in s.plane.mcp.secrets)
      then Some(Unprepared(d.found.None?, Key(ns, "otel-collector-secret") !in s.plane.mcp.secrets, ns))
      else None
    case _ => None
  }

  function ReasonOf(end: End): string {
    match end
    case AccessLost => "ClusterAccessError"
    case AccessWaits => "Reconciling"
    case InstallFailed => "Reconciling"
    case Unprepared(_, _, _) => "WaitingForPrerequisites"
  }

  function MessageOf(end: End): string {
    match end
    case AccessLost => "Failed to setup cluster access"
    case AccessWaits => "Setting up cluster access"
    case InstallFailed => "Reconcile in progress"
    case Unprepared(configMap, secret, ns) =>
      if configMap && secret then
        "Waiting for ConfigMap \"otel-collector-conf\" and Secret \"otel-collector-secret\" in namespace \"" + ns + "\""
      else if configMap then "Waiting for ConfigMap \"otel-collector-conf\" in namespace \"" + ns + "\""
      else "Waiting for Secret \"otel-collector-secret\" in namespace \"" + ns + "\""
  }

  predicate SaysEnd(st: Status, gen: nat, end: End) {
    Says(st, gen, "Progressing", False, ReasonOf(end), MessageOf(end))
  }

  /** The thread is about to patch this status, or has returned because its snapshot carries it already. */
  predicate AboutToSay(th: Thread, c: Ctx, end: End) {
    && SaysEnd(c.obj.status, c.obj.generation, end) && c.obj.generation == c.seen.generation
    && (th.Closing? || th.Idle?)
    && (th.Closing? ==> th.c == c)
    && (th.Idle? ==> c.obj.status == c.base.status)
  }

  lemma AccessEnd(s: Stores, c: Ctx, at: AccessPoint, t: Tick) returns (c': Ctx)
    requires StatusRuns.Inv(World(s, Accessing(c, false, at))) && EndOf(s, Accessing(c, false, at), t).Some?
    ensures var w := StepAccessing(s, c, false, at, t);
      w.s.obj == s.obj && AboutToSay(w.th, c', EndOf(s, Accessing(c, false, at), t).value)
    ensures c'.base == c.base && c'.seen == c.seen
  {
    var end := EndOf(s, Accessing(c, false, at), t).value;
    c' := SetProgressing(c, ReasonOf(end), MessageOf(end), t.now);
    WriteSays(c.obj.status, c.obj.generation, False, ReasonOf(end), MessageOf(end), PHASE_PROGRESSING, t.now);
    hide Says, Write, Coherent, MayRenew, ResolveNamespace, LastOf;
  }

  lemma InstallEnd(s: Stores, c: Ctx, ns: string, d: DomainPoint, t: Tick) returns (c': Ctx)
    requires StatusRuns.Inv(World(s, Installing(c, ns, d))) && SaysInstalling(c)
    requires EndOf(s, Installing(c, ns, d), t).Some?
    ensures var w := StepInstalling(s, c, ns, d, t);
      w.s.obj == s.obj && AboutToSay(w.th, c', EndOf(s, Installing(c, ns, d), t).value)
    ensures c'.base == c.base && c'.seen == c.seen
  {
    var end := EndOf(s, Installing(c, ns, d), t).value;
    var call := DomainCall(s.plane, s.platform, c, ns, d, t);
    Endings.InstallMet(s, c, ns, d, t);
    AwaitSays(s, c, ns, d, t);
    InstallKnows(s, c, ns, d);
    c' := EndSays(s.(plane := call.plane, history := NoteAll(s.history, call.act)), c, ns, call.go, end, t.now);
    hide Says, DomainCall, AfterCall, NoteAll, Endings.Refused, StatusRuns.Inv, MessageOf, ReasonOf;
  }

  lemma InstallKnows(s: Stores, c: Ctx, ns: string, d: DomainPoint)
    requires StatusRuns.Inv(World(s, Installing(c, ns, d)))
    ensures CoherentOrNone(c.obj.status) && c.obj.generation == c.seen.generation
  {
    hide Coherent;
  }

  lemma EndSays(s: Stores, c: Ctx, ns: string, go: DomainGo, end: End, now: int) returns (c': Ctx)
    requires SaysInstalling(c) && CoherentOrNone(c.obj.status) && c.obj.generation == c.seen.generation
    requires if end.InstallFailed? then go == Abort else end.Unprepared? && go == Await(MessageOf(end))
    ensures var w := AfterCall(s, c, ns, go, now); w.s.obj == s.obj && AboutToSay(w.th, c', end)
    ensures c'.base == c.base && c'.seen == c.seen
  {
    if end.InstallFailed? {
      c' := c;
    } else {
      c' := SetProgressing(c, ReasonOf(end), MessageOf(end), now);
      WriteSays(c.obj.status, c.obj.generation, False, ReasonOf(end), MessageOf(end), PHASE_PROGRESSING, now);
    }
    hide Says, Write, LastOf, CoherentOrNone;
  }

  /** The message names what is missing. */
  lemma AwaitSays(s: Stores, c: Ctx, ns: string, d: DomainPoint, t: Tick)
    requires EndOf(s, Installing(c, ns, d), t).Some?
    ensures var end := EndOf(s, Installing(c, ns, d), t).value;
      end.Unprepared? ==> DomainCall(s.plane, s.platform, c, ns, d, t).go == Await(MessageOf(end))
  {
    hide Endings.Refused, HashOpts, MutateDeployment, MutateService, SyncSecret, Admissible;
  }

  /** Nothing happens but what users, operators and the access provider do, and the process lives. */
  predicate Meanwhile(us: seq<Event>) {
    forall u | u in us :: u.Env? && !u.e.Crash?
  }

  lemma {:induction false} ThreadWaits(w: World, us: seq<Event>)
    requires Meanwhile(us)
    ensures Run(w, us).th == w.th
    decreases |us|
  {
    if us != [] {
      assert us[0] in us;
      ThreadWaits(Step(w, us[0]), us[1..]);
    }
    hide StepEnv;
  }

  /** What the patch of a closing reconcile does: nothing, or the whole report; and undisturbed, the report. */
  lemma ClosingSays(s: Stores, c: Ctx, res: Result, evidence: Option<Evidence>, t: Tick)
    requires StatusRuns.Inv(World(s, Closing(c, res, evidence)))
    requires Coherent(c.obj.status) && c.obj.status.observedGeneration == c.obj.generation
    ensures var s' := StepClosing(s, c, res, evidence, t).s;
      || s'.obj == s.obj
      || (s'.obj.Some? && s'.obj.value.status == c.obj.status)
    ensures s.obj == Some(c.seen) && c.base.uid == c.seen.uid && t.fate == Ok ==>
      StepClosing(s, c, res, evidence, t).s.obj == Some(c.seen.(status := c.obj.status))
  {
    PatchSays(s, c, evidence, t.fate);
    hide PatchStatus, StatusRuns.CtxInv, LastOf, Coherent;
  }

  lemma AboutToSayCoherent(s: Stores, th: Thread, c: Ctx, end: End)
    requires StatusRuns.Inv(World(s, th)) && AboutToSay(th, c, end) && th.Closing?
    ensures Coherent(c.obj.status) && c.obj.status.observedGeneration == c.obj.generation
  {
  }

  /** A status its snapshot carries is stored already. */
  lemma SaidAlready(s: Stores, c: Ctx)
    requires StatusRuns.CtxInv(s, c) && s.obj == Some(c.seen) && c.base.uid == c.seen.uid
    ensures s.obj.value.status == c.base.status
  {
    hide Coherent;
  }

  lemma EndSaid(b: World, t: Tick) returns (c: Ctx)
    requires StatusRuns.Inv(b) && ThreadSays(b.th) && EndOf(b.s, b.th, t).Some?
    ensures var w := Step(b, Ctl(t)); w.s.obj == b.s.obj && AboutToSay(w.th, c, EndOf(b.s, b.th, t).value)
    ensures c.base == b.th.c.base && c.seen == b.th.c.seen
  {
    match b.th
    case Accessing(c0, _, at) => c := AccessEnd(b.s, c0, at, t);
    case Installing(c0, ns, d) => c := InstallEnd(b.s, c0, ns, d, t);
    hide StepAccessing, StepInstalling, AboutToSay, StatusRuns.Inv;
  }

  /** Over every run: when a createOrUpdate that got past the finalizer ends other than Ready, it goes on to its
      status patch, or has no need of one. Whatever happens before that patch, it leaves the object alone or leaves
      on it, for the generation last read, phase Progressing and a Ready condition that is False with the reason
      and the message of that end. */
  lemma EndReported(w: World, es: seq<Event>, t: Tick, us: seq<Event>, t': Tick)
    requires Initial(w) && Meanwhile(us)
    requires var b := Run(w, es); EndOf(b.s, b.th, t).Some?
    ensures var b := Run(w, es); var end := EndOf(b.s, b.th, t).value;
      var w1 := Step(b, Ctl(t)); var w2 := Run(w1, us); var s' := Step(w2, Ctl(t')).s;
      && (w1.th.Closing? || w1.th.Idle?)
      && (w1.th.Closing? ==>
            || s'.obj == w2.s.obj
            || (s'.obj.Some? && SaysEnd(s'.obj.value.status, b.th.c.seen.generation, end)))
  {
    var b := Run(w, es);
    RunSays(w, es);
    var c := EndSaid(b, t);
    var w1 := Step(b, Ctl(t));
    StatusRuns.StepKeeps(b, Ctl(t));
    StatusRuns.RunKeeps(w1, us);
    ThreadWaits(w1, us);
    if w1.th.Closing? {
      AboutToSayCoherent(w1.s, w1.th, c, EndOf(b.s, b.th, t).value);
      ClosingSays(Run(w1, us).s, c, w1.th.res, w1.th.evidence, t');
    }
    hide Run, StatusRuns.Inv, StepClosing, Coherent, SaysEnd, EndOf, ThreadSays;
  }

  /** And if the object is stored as last read, one the reconcile knew from its start, and the patch goes through, that
      report is on the stored object, for its generation. */
  lemma EndReportedUndisturbed(w: World, es: seq<Event>, t: Tick, t': Tick)
    requires Initial(w) && t'.fate == Ok
    requires var b := Run(w, es);
      EndOf(b.s, b.th, t).Some? && b.s.obj == Some(b.th.c.seen) && b.th.c.base.uid == b.th.c.seen.uid
    ensures var b := Run(w, es); var w1 := Step(b, Ctl(t));
      var o := (if w1.th.Idle? then w1 else Step(w1, Ctl(t'))).s.obj;
      o.Some? && SaysEnd(o.value.status, o.value.generation, EndOf(b.s, b.th, t).value)
  {
    RunSays(w, es);
    UndisturbedSays(Run(w, es), t, t');
    hide Run, Step, StatusRuns.Inv, SaysEnd, EndOf, ThreadSays;
  }

  lemma UndisturbedSays(b: World, t: Tick, t': Tick)
    requires StatusRuns.Inv(b) && ThreadSays(b.th) && t'.fate == Ok
    requires EndOf(b.s, b.th, t).Some? && b.s.obj == Some(b.th.c.seen) && b.th.c.base.uid == b.th.c.seen.uid
    ensures var w1 := Step(b, Ctl(t));
      var o := (if w1.th.Idle? then w1 else Step(w1, Ctl(t'))).s.obj;
      o.Some? && SaysEnd(o.value.status, o.value.generation, EndOf(b.s, b.th, t).value)
  {
    var c := EndSaid(b, t);
    var w1 := Step(b, Ctl(t));
    StatusRuns.StepKeeps(b, Ctl(t));
    if w1.th.Closing? {
      PatchSaid(w1.s, c, w1.th.res, w1.th.evidence, EndOf(b.s, b.th, t).value, t');
      assert Step(w1, Ctl(t')) == StepClosing(w1.s, c, w1.th.res, w1.th.evidence, t');
    } else {
      PassKnows(b);
      SaidAlready(b.s, b.th.c);
    }
    hide StatusRuns.Inv, Coherent, SaysEnd, EndOf, ThreadSays, StatusRuns.CtxInv, StepClosing, StepAccessing,
      StepInstalling;
  }

  lemma PatchSaid(s: Stores, c: Ctx, res: Result, evidence: Option<Evidence>, end: End, t: Tick)
    requires StatusRuns.Inv(World(s, Closing(c, res, evidence))) && AboutToSay(Closing(c, res, evidence), c, end)
    requires s.obj == Some(c.seen) && c.base.uid == c.seen.uid && t.fate == Ok
    ensures var o := StepClosing(s, c, res, evidence, t).s.obj;
      o.Some? && SaysEnd(o.value.status, o.value.generation, end)
  {
    AboutToSayCoherent(s, Closing(c, res, evidence), c, end);
    ClosingSays(s, c, res, evidence, t);
    hide StatusRuns.Inv, StepClosing, Coherent, SaysEnd;
  }

  // ---- exactly when it is stored

  /** On an object made anew since the reconcile began, the patch leaves out what the old one said already, and the
      schema refuses a status without generation or phase. */
  lemma AnewSays(s: Stores, c: Ctx, res: Result, evidence: Option<Evidence>, t: Tick)
    requires StatusRuns.CtxInv(s, c) && s.obj == Some(c.seen) && c.base.uid != c.seen.uid && t.fate == Ok
    requires Coherent(c.obj.status) && c.obj.status != c.base.status && c.obj.status.phase == "Progressing"
    requires c.obj.status.observedGeneration == c.obj.generation
    ensures var o := StepClosing(s, c, res, evidence, t).s.obj;
      if c.base.status.observedGeneration != c.seen.generation && c.base.status.phase != "Progressing"
      then o == Some(c.seen.(status := c.obj.status))
      else o == Some(c.seen) && c.seen.status == NO_STATUS
  {
    StatusRuns.PatchResult(s, c, evidence, t.fate);
    AnewLands(c);
    hide Coherent, PatchStatus, LastOf, Merge, ValidStatus;
  }

  lemma AnewLands(c: Ctx)
    requires c.seen.status == NO_STATUS && CoherentOrNone(c.base.status) && Coherent(c.obj.status)
    requires c.obj.status != c.base.status && c.obj.status.phase == "Progressing" && c.obj.generation >= 1
    requires c.obj.status.observedGeneration == c.obj.generation
    ensures ValidStatus(MergedInto(c.seen, c).status)
      <==> c.base.status.observedGeneration != c.obj.generation && c.base.status.phase != "Progressing"
  {
  }

  lemma AnewSaid(b: World, t: Tick, t': Tick)
    requires StatusRuns.Inv(b) && ThreadSays(b.th) && t'.fate == Ok
    requires EndOf(b.s, b.th, t).Some? && b.s.obj == Some(b.th.c.seen) && b.th.c.base.uid != b.th.c.seen.uid
    ensures var w1 := Step(b, Ctl(t)); var base := b.th.c.base.status;
      var o := (if w1.th.Idle? then w1 else Step(w1, Ctl(t'))).s.obj;
      && o.Some?
      && (SaysEnd(o.value.status, o.value.generation, EndOf(b.s, b.th, t).value)
          <==> base.observedGeneration != b.th.c.seen.generation && base.phase != "Progressing")
  {
    var c := EndSaid(b, t);
    var w1 := Step(b, Ctl(t));
    var end := EndOf(b.s, b.th, t).value;
    StatusRuns.StepKeeps(b, Ctl(t));
    PassKnows(b);
    AnewSilent(b.s, b.th.c, end);
    SaysSo(c.obj.status, c.obj.generation, end);
    if w1.th.Closing? {
      AboutToSayCoherent(w1.s, w1.th, c, end);
      ClosingKnows(w1);
      AnewSays(w1.s, c, w1.th.res, w1.th.evidence, t');
      assert Step(w1, Ctl(t')) == StepClosing(w1.s, c, w1.th.res, w1.th.evidence, t');
    }
    hide StatusRuns.Inv, Coherent, SaysEnd, EndOf, ThreadSays, StatusRuns.CtxInv, StepClosing, StepAccessing,
      StepInstalling;
  }

  lemma SaysSo(st: Status, gen: nat, end: End)
    requires SaysEnd(st, gen, end)
    ensures st.phase == "Progressing" && st.observedGeneration == gen
  {
  }

  lemma AnewSilent(s: Stores, c: Ctx, end: End)
    requires StatusRuns.CtxInv(s, c) && s.obj == Some(c.seen) && c.base.uid != c.seen.uid
    ensures c.seen.status == NO_STATUS && !SaysEnd(c.seen.status, c.seen.generation, end)
  {
    hide Coherent;
  }

  lemma ClosingKnows(w: World)
    requires StatusRuns.Inv(w) && w.th.Closing?
    ensures StatusRuns.CtxInv(w.s, w.th.c) && w.th.c.obj.status != w.th.c.base.status
  {
    hide Coherent;
  }

  /** Over every run, with the object stored as last read and a patch that is let through: the report is stored if
      and only if the object is the incarnation the reconcile began with, or that one had said neither Progressing
      nor this generation. */
  lemma EndReportedExactly(w: World, es: seq<Event>, t: Tick, t': Tick)
    requires Initial(w) && t'.fate == Ok
    requires var b := Run(w, es); EndOf(b.s, b.th, t).Some? && b.s.obj == Some(b.th.c.seen)
    ensures var b := Run(w, es); var c := b.th.c; var w1 := Step(b, Ctl(t));
      var o := (if w1.th.Idle? then w1 else Step(w1, Ctl(t'))).s.obj;
      && o.Some?
      && (SaysEnd(o.value.status, o.value.generation, EndOf(b.s, b.th, t).value)
          <==> || c.base.uid == c.seen.uid
               || (c.base.status.observedGeneration != c.seen.generation && c.base.status.phase != "Progressing"))
  {
    var b := Run(w, es);
    RunSays(w, es);
    if b.th.c.base.uid == b.th.c.seen.uid {
      UndisturbedSays(b, t, t');
    } else {
      AnewSaid(b, t, t');
    }
    hide Run, Step, StatusRuns.Inv, SaysEnd, EndOf, ThreadSays;
  }

  lemma PassKnows(b: World)
    requires StatusRuns.Inv(b) && (b.th.Installing? || (b.th.Accessing? && !b.th.deleting))
    ensures StatusRuns.CtxInv(b.s, b.th.c)
  {
    hide Coherent;
  }

  // ---- the other reports

  /** Over every run: once the domain's Delete has ended, well or badly, and its status patch goes through, the
      object says Terminating for its generation. */
  lemma CleanupReported(w: World, es: seq<Event>, t: Tick, t': Tick)
    requires Initial(w) && t'.fate == Ok
    requires var b := Run(w, es); b.th.Cleaning? && b.s.obj == Some(b.th.c.seen) && !Step(b, Ctl(t)).th.Cleaning?
    ensures var b := Run(w, es); var w1 := Step(b, Ctl(t));
      var o := (if w1.th.CleanedPatch? then Step(w1, Ctl(t')) else w1).s.obj;
      && o.Some?
      && Says(o.value.status, o.value.generation, "Terminating", False, "Terminating", "Cleanup in progress")
  {
    var b := Run(w, es);
    RunSays(w, es);
    var w1 := Step(b, Ctl(t));
    StatusRuns.StepKeeps(b, Ctl(t));
    CleaningEnds(b, t);
    CleaningKnows(b);
    if w1.th.CleanedPatch? {
      PatchSays(w1.s, b.th.c, None, t'.fate);
      CleanedPatchStores(w1.s, b.th.c, w1.th.failed, t');
      CleaningKnows(w1);
    } else {
      SaidAlready(b.s, b.th.c);
    }
    hide Run, StatusRuns.Inv, StepCleaning, StepCleanedPatch, Coherent, ThreadSays, StatusRuns.CtxInv, PatchStatus,
      Says;
  }

  lemma CleaningEnds(b: World, t: Tick)
    requires b.th.Cleaning? && !Step(b, Ctl(t)).th.Cleaning? && ThreadSays(b.th)
    ensures var w1 := Step(b, Ctl(t)); var c := b.th.c;
      && w1.s.obj == b.s.obj && (if w1.th.CleanedPatch? then w1.th.c == c else c.obj.status == c.base.status)
      && SaysTerminating(c)
  {
    hide Says, LastOf;
  }

  lemma CleanedPatchStores(s: Stores, c: Ctx, failed: bool, t: Tick)
    ensures StepCleanedPatch(s, c, failed, t).s.obj == PatchStatus(s, c, None, t.fate).obj
  {
    hide PatchStatus, PatchLands, MergedInto, LastOf;
  }

  lemma CleaningKnows(b: World)
    requires StatusRuns.Inv(b) && (b.th.Cleaning? || b.th.CleanedPatch?) && SaysTerminating(b.th.c)
    ensures StatusRuns.CtxInv(b.s, b.th.c)
    ensures b.th.c.base == b.th.c.seen && b.th.c.obj.generation == b.th.c.seen.generation
    ensures b.th.CleanedPatch? ==> b.th.c.obj.status != b.th.c.base.status
    ensures Coherent(b.th.c.obj.status) && b.th.c.obj.status.observedGeneration == b.th.c.obj.generation
  {
  }

  /** Over every run: a reconcile that finds no config leaves word of it on the object, if its patch goes through. */
  lemma MissingConfigReported(w: World, es: seq<Event>, t: Tick, t': Tick)
    requires Initial(w) && t.fate == Ok && t'.fate == Ok
    requires var b := Run(w, es); b.th.Idle? && b.s.obj.Some? && b.s.cache.None?
    ensures var w1 := Step(Run(w, es), Ctl(t));
      var o := (if w1.th.Idle? then w1 else Step(w1, Ctl(t'))).s.obj;
      && o.Some?
      && Says(o.value.status, o.value.generation, "Progressing", False, "ReconcileError", "No ProviderConfig found")
  {
    var b := Run(w, es);
    RunSays(w, es);
    BeginReports(b.s, t, t');
    hide Run, StatusRuns.Inv, Says, Begin, StepNoConfigPatch;
  }

  lemma BeginReports(s: Stores, t: Tick, t': Tick)
    requires StatusRuns.Inv(World(s, Idle)) && t.fate == Ok && t'.fate == Ok && s.obj.Some? && s.cache.None?
    ensures var w1 := Begin(s, t);
      var o := (if w1.th.Idle? then w1 else StepCtl(w1.s, w1.th, t')).s.obj;
      && o.Some? && (w1.th.Idle? || w1.th.NoConfigPatch?)
      && Says(o.value.status, o.value.generation, "Progressing", False, "ReconcileError", "No ProviderConfig found")
  {
    var o := s.obj.value;
    var st := Progressing(o.status, o.generation, "ReconcileError", "No ProviderConfig found", t.now);
    WriteSays(o.status, o.generation, False, "ReconcileError", "No ProviderConfig found", PHASE_PROGRESSING, t.now);
    WriteCoherent(o.status, o.generation, False, "ReconcileError", "No ProviderConfig found", PHASE_PROGRESSING, t.now);
    if st != o.status {
      var c := Ctx(o, o, o.(status := st), NO_CONFIG);
      PatchSays(s.(history := StartRound(s.history)), c, None, t'.fate);
    }
    hide Says, Write, Coherent, PatchStatus, LastOf;
  }
}
