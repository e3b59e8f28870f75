/** What an undisturbed reconcile returns: no error, and a requeue after the interval of its config. */
module Results {
  import opened Kube
  import opened Api
  import opened Desired
  import opened Machine
  import opened Endings
  import opened Converge
  import opened Deletion
  import opened FaultFree
  import opened Recovery
  import StatusRuns

  // ---- installs

  /** A call of a pass that prospers, undisturbed, neither fails nor asks for a delay. */
  lemma ProspersWell(w: World, t: Tick, i: Inputs)
    requires Prospers(w, i) && !Disturbs(w, Ctl(t))
    ensures !Fails(w.s, w.th, t) && Asks(w.s, w.th, t) == None
  {
    match w.th {
      case Installing(c, ns, d) => InstallWell(w.s, c, ns, d, t, i);
      case Accessing(c, deleting, at) => AccessWell(w, t, i);
      case _ => SmoothStart(w.s, w.th, i);
    }
    hide Smooth, Refused, NoAccess, Carries, Idempotence.ReadyAt, Idempotence.InPlace;
  }

  lemma InstallWell(s: Stores, c: Ctx, ns: string, d: DomainPoint, t: Tick, i: Inputs)
    requires Smooth(World(s, Installing(c, ns, d)), i) && t.fate == Ok
    ensures !Fails(s, Installing(c, ns, d), t) && Asks(s, Installing(c, ns, d), t) == None
  {
    CallThrough(s.plane, c, i, d, t);
    InstallMet(s, c, ns, d, t);
    hide DomainCall, Installable, Progress, Fresh, Fails, Asks;
  }

  lemma AccessWell(w: World, t: Tick, i: Inputs)
    requires Smooth(w, i) && w.th.Accessing? && !Disturbs(w, Ctl(t))
    ensures !Fails(w.s, w.th, t) && Asks(w.s, w.th, t) == None
  {
    hide Installable, OnCourse, MayRenew;
  }

  /** Between reconciles, or in one that prospers and has met nothing to report. */
  ghost predicate Well(w: World, i: Inputs, p: Pass) {
    Fit(w, i) && Endings.Inv(w.th, p) && (w.th.Idle? || (Prospers(w, i) && p == Pass(Some(i.config), false, None)))
  }

  lemma StepWell(w: World, t: Tick, i: Inputs, p: Pass)
    requires Well(w, i, p) && !Disturbs(w, Ctl(t))
    ensures var w' := Step(w, Ctl(t));
      && Well(w', i, Track(w, Ctl(t), p))
      && (w'.th.Idle? ==> w'.s.history.last == Requeue(Every(i.config)))
  {
    var w' := Step(w, Ctl(t));
    StepFit(w, Ctl(t), i);
    StepEnds(w, Ctl(t), p);
    if w.th.Idle? {
      BeginWell(w, t, i);
    } else {
      ProspersOn(w, Ctl(t), i);
      ProspersWell(w, t, i);
      SettledIdle(w', i);
    }
    hide Fit, Prospers, Recovery.Settled, StepCtl, Fails, Asks, Disturbs, Endings.Inv, Every;
  }

  lemma SettledIdle(w: World, i: Inputs)
    ensures Recovery.Settled(w, i) ==> w.th.Idle?
  {
    hide Steady;
  }

  lemma BeginWell(w: World, t: Tick, i: Inputs)
    requires Fit(w, i) && w.th.Idle? && !Disturbs(w, Ctl(t))
    ensures var w' := Step(w, Ctl(t)); Prospers(w', i) && !w'.th.Idle?
    ensures !Fails(w.s, w.th, t) && w.s.cache == Some(i.config)
  {
    BeginProspers(w.s, t, i);
    hide Installable, Prospers;
  }

  lemma {:induction false} RunWell(w: World, es: seq<Event>, i: Inputs, p: Pass)
    requires Well(w, i, p) && Undisturbed(w, es) && es != []
    ensures var w' := Run(w, es); w'.th.Idle? ==> w'.s.history.last == Requeue(Every(i.config))
    decreases |es|
  {
    StepWell(w, es[0].t, i, p);
    hide Well, Step, Track, Every;
    if es[1..] != [] {
      RunWell(Step(w, es[0]), es[1..], i, Track(w, es[0], p));
    }
  }

  /** After any history, with inputs at rest and installable: however many undisturbed reconciles follow, each returns
      without an error and is requeued after the interval its config sets, or after a minute. */
  lemma InstallReturns(w: World, before: seq<Event>, es: seq<Event>, i: Inputs)
    requires Initial(w) && Run(w, before).th.Idle?
    requires AtRest(Run(w, before).s, i) && Installable(Run(w, before).s.plane.mcp, i)
    requires Undisturbed(Run(w, before), es) && es != []
    ensures var w' := Run(Run(w, before), es);
      w'.th.Idle? ==>
        w'.s.history.last == Requeue(if i.config.pollInterval.Some? then i.config.pollInterval.value else 60)
  {
    StatusRuns.RunKeeps(w, before);
    RunWell(Run(w, before), es, i, NOTHING);
    hide Run, Installable, Undisturbed;
  }

  // ---- deletes

  /** The same of a delete in step with its object. */
  lemma CleanWell(w: World, t: Tick)
    requires Clean(w.s, w.th) && !Disturbs(w, Ctl(t))
    ensures !Fails(w.s, w.th, t) && Asks(w.s, w.th, t) == None
  {
    hide MayRenew, MayRelease;
  }

  lemma CleanReturns(w: World, t: Tick, uid: nat, p: Pass)
    requires Deletion.Held(w.s, uid) && Clean(w.s, w.th) && !Disturbs(w, Ctl(t)) && Endings.Inv(w.th, p)
    requires !p.failed && p.delay.None?
    ensures var w' := Step(w, Ctl(t)); var p' := Track(w, Ctl(t), p);
      && p' == p && Endings.Inv(w'.th, p)
      && (w'.th.Idle? ==> !Deletion.Held(w'.s, uid) && p.config.Some?
                          && w'.s.history.last == Requeue(Every(p.config.value)))
      && (!w'.th.Idle? ==> Clean(w'.s, w'.th) && Deletion.Held(w'.s, uid))
  {
    CleanWell(w, t);
    StepEnds(w, Ctl(t), p);
    CleanGoesOn(w.s, w.th, t, uid);
    LetGoLast(w.s, w.th, t, uid);
    hide StepCtl, Fails, Asks, Disturbs, Clean, Endings.Inv, Every;
  }

  /** A delete in step gives its object up with its last call only. */
  lemma LetGoLast(s: Stores, th: Thread, t: Tick, uid: nat)
    requires Deletion.Held(s, uid) && Clean(s, th)
    ensures !th.Idle?
    ensures var w := StepCtl(s, th, t); !Deletion.Held(w.s, uid) ==> w.th.Idle?
    ensures var w := StepCtl(s, th, t); Clean(w.s, w.th) ==> !w.th.Idle?
  {
    hide PatchLands, Merge, LastOf, Cleanup, AccessCall, AccessEffect, ResolveNamespace, ReleaseReply;
  }

  ghost predicate Returned(w: World, es: seq<Event>)
    decreases |es|
  {
    es != [] && if Step(w, es[0]).th.Idle? then es[1..] == [] else Returned(Step(w, es[0]), es[1..])
  }

  lemma {:induction false} RunCleanReturns(w: World, es: seq<Event>, uid: nat, p: Pass)
    requires Deletion.Held(w.s, uid) && Clean(w.s, w.th) && Endings.Inv(w.th, p) && !p.failed && p.delay.None?
    requires Undisturbed(w, es) && Returned(w, es)
    ensures var w' := Run(w, es);
      !Deletion.Held(w'.s, uid) && p.config.Some? && w'.s.history.last == Requeue(Every(p.config.value))
    decreases |es|
  {
    CleanReturns(w, es[0].t, uid, p);
    hide Step, Deletion.Held, Clean, Endings.Inv, Track, Every;
    if !Step(w, es[0]).th.Idle? {
      RunCleanReturns(Step(w, es[0]), es[1..], uid, p);
    }
  }

  /** An undisturbed delete lets its object go, and returns without an error, requeued as any other. */
  lemma DeleteReturns(w: World, es: seq<Event>, uid: nat, config: Config)
    requires w.th.Idle? && Deletion.Held(w.s, uid) && w.s.cache == Some(config)
    requires Undisturbed(w, es) && Returned(w, es)
    ensures var w' := Run(w, es);
      && !Deletion.Held(w'.s, uid)
      && w'.s.history.last == Requeue(if config.pollInterval.Some? then config.pollInterval.value else 60)
  {
    var w1 := Step(w, es[0]);
    DeleteBegins(w, es[0].t, uid, config);
    RunCleanReturns(w1, es[1..], uid, Pass(Some(config), false, None));
    hide Step, Deletion.Held, Clean, Endings.Inv;
  }

  lemma DeleteBegins(w: World, t: Tick, uid: nat, config: Config)
    requires w.th.Idle? && Deletion.Held(w.s, uid) && w.s.cache == Some(config) && !Disturbs(w, Ctl(t))
    ensures var w' := Step(w, Ctl(t));
      && Deletion.Held(w'.s, uid) && Clean(w'.s, w'.th) && !w'.th.Idle?
      && Endings.Inv(w'.th, Pass(Some(config), false, None))
  {
  }
}
