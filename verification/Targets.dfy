/** Where the controller writes, from what is stored alone: only in namespaces that some stored spec and some stored
    config resolve to. */
module Targets {
  import opened Kube
  import opened Api
  import opened Machine
  import opened FrameRuns

  // ---- what users and operators store

  function SpecsOf(e: Event): set<ServiceSpec> {
    if e.Env? && (e.e.UserCreate? || e.e.UserEdit?) then {e.e.spec} else {}
  }

  function ConfigsOf(e: Event): set<Config> {
    if e.Env? && e.e.ConfigStored? && e.e.config.Some? then {e.e.config.value} else {}
  }

  /** All specs anyone stores in a run. */
  function Specs(es: seq<Event>): set<ServiceSpec>
    decreases |es|
  {
    if es == [] then {} else SpecsOf(es[0]) + Specs(es[1..])
  }

  /** And all configs. */
  function Configs(es: seq<Event>): set<Config>
    decreases |es|
  {
    if es == [] then {} else ConfigsOf(es[0]) + Configs(es[1..])
  }

  /** The namespaces these resolve to. */
  function Resolved(specs: set<ServiceSpec>, configs: set<Config>): set<string> {
    set s, c | s in specs && c in configs :: ResolveNamespace(s, c)
  }

  /** The namespaces a run may work in. */
  function Targets(es: seq<Event>): set<string> {
    Resolved(Specs(es), Configs(es))
  }

  // ---- what the controller has in hand

  /** This context was read from what is stored. */
  predicate Known(c: Ctx, specs: set<ServiceSpec>, configs: set<Config>) {
    c.config in configs && c.obj.spec in specs && c.seen.spec in specs
  }

  /** Whatever the controller has in hand is from those sets, and it works in a namespace they resolve to. */
  predicate Inv(w: World, specs: set<ServiceSpec>, configs: set<Config>) {
    && (w.s.obj.Some? ==> w.s.obj.value.spec in specs)
    && (w.s.cache.Some? ==> w.s.cache.value in configs)
    && (!w.th.Idle? && !w.th.NoConfigPatch? ==> Known(w.th.c, specs, configs))
    && WorkingIn(w.th) <= Resolved(specs, configs)
  }

  lemma EventKeeps(w: World, e: EnvEvent, specs: set<ServiceSpec>, configs: set<Config>)
    requires Inv(w, specs, configs) && SpecsOf(Env(e)) <= specs && ConfigsOf(Env(e)) <= configs
    ensures Inv(Step(w, Env(e)), specs, configs)
  {
    hide PlaneEvent, RequestsEvent;
  }

  predicate StoredKnown(s: Stores, specs: set<ServiceSpec>, configs: set<Config>) {
    (s.obj.Some? ==> s.obj.value.spec in specs) && (s.cache.Some? ==> s.cache.value in configs)
  }

  lemma CloseKeeps(s: Stores, c: Ctx, res: Result, specs: set<ServiceSpec>, configs: set<Config>)
    requires StoredKnown(s, specs, configs) && Known(c, specs, configs)
    ensures Inv(Close(s, c, res, None), specs, configs) && Inv(Finish(s, c.config, res), specs, configs)
  {
    hide LastOf;
  }

  lemma AccessKeeps(s: Stores, c: Ctx, deleting: bool, at: AccessPoint, t: Tick,
      specs: set<ServiceSpec>, configs: set<Config>)
    requires Inv(World(s, Accessing(c, deleting, at)), specs, configs)
    requires ResolveNamespace(c.obj.spec, c.config) in Resolved(specs, configs)
    ensures Inv(StepAccessing(s, c, deleting, at, t), specs, configs)
  {
    hide AccessCall, AccessEffect, ResolveNamespace, LastOf, Close, Finish, SetProgressing, SetTerminating;
    var s' := s.(requests := AccessEffect(s.requests, at, t));
    WritesKnown(c, t.now);
    match AccessCall(s.requests, at, t) {
      case AccessFailed =>
        CloseKeeps(s', c, Fail, specs, configs);
        CloseKeeps(s', SetProgressing(c, "ClusterAccessError", "Failed to setup cluster access", t.now), Fail,
                   specs, configs);
      case AccessPending(d) =>
        CloseKeeps(s', c, Wait(d), specs, configs);
        CloseKeeps(s', SetProgressing(c, "Reconciling", "Setting up cluster access", t.now), Wait(d), specs, configs);
      case _ =>
    }
  }

  /** Status writes touch neither spec nor config. */
  lemma WritesKnown(c: Ctx, now: int)
    ensures forall reason, message :: var c' := SetProgressing(c, reason, message, now);
      c'.config == c.config && c'.obj.spec == c.obj.spec && c'.seen == c.seen
    ensures var c' := SetTerminating(c, now); c'.config == c.config && c'.obj.spec == c.obj.spec && c'.seen == c.seen
  {
  }

  lemma InstallKeeps(s: Stores, c: Ctx, n: string, d: DomainPoint, t: Tick,
      specs: set<ServiceSpec>, configs: set<Config>)
    requires Inv(World(s, Installing(c, n, d)), specs, configs)
    ensures Inv(StepInstalling(s, c, n, d, t), specs, configs)
  {
    hide DomainCall, LastOf;
  }

  lemma PatchKeeps(s: Stores, th: Thread, t: Tick, specs: set<ServiceSpec>, configs: set<Config>)
    requires Inv(World(s, th), specs, configs) && (th.NoConfigPatch? || th.Closing? || th.CleanedPatch?)
    ensures Inv(StepCtl(s, th, t), specs, configs)
  {
    hide ValidStatus, Merge, LastOf;
  }

  lemma OthersKeep(s: Stores, th: Thread, t: Tick, specs: set<ServiceSpec>, configs: set<Config>)
    requires Inv(World(s, th), specs, configs)
    requires !th.Accessing? && !th.Installing? && !th.NoConfigPatch? && !th.Closing? && !th.CleanedPatch?
    ensures Inv(StepCtl(s, th, t), specs, configs)
  {
    hide Cleanup, LastOf, ReleaseReply, Resolved;
  }

  lemma StepKeeps(w: World, e: Event, specs: set<ServiceSpec>, configs: set<Config>)
    requires Inv(w, specs, configs) && SpecsOf(e) <= specs && ConfigsOf(e) <= configs
    ensures Inv(Step(w, e), specs, configs)
  {
    match e {
      case Env(e) => EventKeeps(w, e, specs, configs);
      case Ctl(t) =>
        match w.th
        case Accessing(c, deleting, at) =>
          assert ResolveNamespace(c.obj.spec, c.config) in Resolved(specs, configs);
          AccessKeeps(w.s, c, deleting, at, t, specs, configs);
        case Installing(c, n, d) => InstallKeeps(w.s, c, n, d, t, specs, configs);
        case NoConfigPatch(_, _) => PatchKeeps(w.s, w.th, t, specs, configs);
        case Closing(_, _, _) => PatchKeeps(w.s, w.th, t, specs, configs);
        case CleanedPatch(_, _) => PatchKeeps(w.s, w.th, t, specs, configs);
        case _ => OthersKeep(w.s, w.th, t, specs, configs);
    }
    hide StepAccessing, StepInstalling, StepEnv, Inv;
  }

  lemma {:induction false} RunTouches(w: World, es: seq<Event>, specs: set<ServiceSpec>, configs: set<Config>)
    requires Inv(w, specs, configs) && Specs(es) <= specs && Configs(es) <= configs
    ensures Touched(w, es) <= Resolved(specs, configs)
    decreases |es|
  {
    hide Step, Resolved, SpecsOf, ConfigsOf;
    if es != [] {
      StepKeeps(w, es[0], specs, configs);
      RunTouches(Step(w, es[0]), es[1..], specs, configs);
    }
  }

  /** The fewer namespaces and pull secrets, the more is said. */
  lemma AgreeMore(m: Mcp, m': Mcp, some: set<string>, more: set<string>, pulls: set<string>)
    requires Agree(m, m', some, pulls) && some <= more
    ensures Agree(m, m', more, pulls)
  {
    assert forall n | n !in more :: n in m.namespaces - some <==> n in m'.namespaces - some;
  }

  /** Over every run, whatever happens to finalizers, access requests and calls: outside the namespaces that a stored
      spec and a stored config resolve to, and in those outside the pull secrets a stored config lists and the
      Deployment and Service of the two well-known names, the control plane is exactly what the users' own edits made of
      it. */
  lemma WritesStayInside(w: World, es: seq<Event>)
    requires Initial(w)
    ensures Touched(w, es) <= Targets(es)
    ensures Agree(Run(w, es).s.plane.mcp, UsersOnly(w.s.plane, es).mcp, Targets(es), Listed(es))
  {
    RunTouches(w, es, Specs(es), Configs(es));
    WritesWhereItWorks(w, es);
    AgreeMore(Run(w, es).s.plane.mcp, UsersOnly(w.s.plane, es).mcp, Touched(w, es), Targets(es), Listed(es));
    hide Run, Agree;
  }
}
