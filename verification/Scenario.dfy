/** A concrete system and the first steps of its runs, for the runs that show where a property fails. */
module Scenario {
  import opened Kube
  import opened Api
  import opened Desired
  import opened Machine
  import opened StatusWrites

  const HERE := "observability"
  const THERE := "elsewhere"
  const PLAIN := ServiceSpec(None, None, None, None)
  const MOVED := PLAIN.(namespace := Some(THERE))
  const CONFIG := Config(None, None, None, [], None, None)
  const MCP := Mcp({HERE}, map[Key(HERE, SECRET) := Secret("", map[], map[])], map[Key(HERE, CONFIG_MAP) := map[]],
      map[], map[])

  const START := World(
    Stores(None, 0, Plane(MCP, {}, {}), map[], Requests(Absent, Absent, false), None, History(0, [], Never)), Idle)

  const GRANT := Ctl(Tick(Ok, 0, Reply(Granted, Absent, Settled(0))))
  const RELEASE := Ctl(Tick(Ok, 0, Reply(Absent, Absent, Settled(0))))

  /** The controller has made one Deployment here, and there is nothing else. */
  predicate OneDeployment(p: Plane) {
    && p.madeDeployments == {Key(HERE, DEPLOYMENT)} && p.madeServices == {}
    && p.mcp.deployments.Keys == {Key(HERE, DEPLOYMENT)} && p.mcp.services == map[]
  }

  /** An object is made and a reconcile of it has just created its Deployment. */
  lemma Made(w: World) returns (es: seq<Event>)
    requires w == START
    ensures AllTame(es)
    ensures var w' := Run(w, es);
      && w'.s.obj == Some(Obj(0, 1, PLAIN, false, {FINALIZER}, NO_STATUS))
      && OneDeployment(w'.s.plane)
      && w'.s.requests == Requests(Granted, Absent, false)
  {
    var create := Env(UserCreate(PLAIN, {}));
    var config := Env(ConfigStored(Some(CONFIG)));
    var e0 := Granting(w, create, config);
    var e1 := Installed(Run(w, e0));
    es := e0 + e1;
    RunAppend(w, e0, e1);
    hide Run;
  }

  predicate AtInstall(w: World) {
    && w.s.obj == Some(Obj(0, 1, PLAIN, false, {FINALIZER}, NO_STATUS))
    && w.s.plane == START.s.plane && w.s.requests == Requests(Granted, Absent, false)
    && w.th.Installing? && w.th.ns == HERE && w.th.d == NamespaceGet
    && w.th.c.config == CONFIG && w.th.c.obj.spec == PLAIN && w.th.c.obj.generation == 1 && w.s.nextUid == 1
  }

  lemma Granting(w: World, create: Event, config: Event) returns (es: seq<Event>)
    requires w == START && create == Env(UserCreate(PLAIN, {})) && config == Env(ConfigStored(Some(CONFIG)))
    ensures AllTame(es) && AtInstall(Run(w, es))
  {
    var rest := [GRANT] + ([GRANT] + ([GRANT] + []));
    var head := [create] + ([config] + ([GRANT] + ([GRANT] + ([GRANT] + []))));
    es := head + rest;
    RunAppend(w, head, rest);
    FirstCalls(w, create, config, head);
    AccessThree(Run(w, head));
    hide Run, Step, SetCondition;
  }

  lemma FirstCalls(w: World, create: Event, config: Event, es: seq<Event>)
    requires w == START && create == Env(UserCreate(PLAIN, {})) && config == Env(ConfigStored(Some(CONFIG)))
    requires es == [create] + ([config] + ([GRANT] + ([GRANT] + ([GRANT] + []))))
    ensures var w' := Run(w, es);
      && w'.s == w.s.(obj := Some(Obj(0, 1, PLAIN, false, {FINALIZER}, NO_STATUS)), nextUid := 1, cache := Some(CONFIG),
                      history := w'.s.history)
      && w'.th.Accessing? && w'.th.at == Renew && !w'.th.deleting
      && w'.th.c.config == CONFIG && w'.th.c.obj.spec == PLAIN && w'.th.c.obj.generation == 1
  {
    var w1 := Step(w, create);
    var o := Obj(0, 1, PLAIN, false, {}, NO_STATUS);
    assert w1 == START.(s := START.s.(obj := Some(o), nextUid := 1));
    var w2 := Step(w1, config);
    assert w2 == w1.(s := w1.s.(cache := Some(CONFIG)));
    RunCons(w, create, [config] + ([GRANT] + ([GRANT] + ([GRANT] + []))));
    RunCons(w1, config, [GRANT] + ([GRANT] + ([GRANT] + [])));
    FirstReads(w2, o, CONFIG);
    hide Run, Step;
  }

  lemma FirstReads(w: World, o: Obj, config: Config)
    requires w.th == Idle && w.s.obj == Some(o) && w.s.cache == Some(config)
      && o == Obj(0, 1, PLAIN, false, {}, NO_STATUS)
    ensures var w' := Run(w, [GRANT] + ([GRANT] + ([GRANT] + [])));
      && w'.s == w.s.(obj := Some(o.(finalizers := {FINALIZER})), history := w'.s.history)
      && w'.th.Accessing? && w'.th.at == Renew && !w'.th.deleting
      && w'.th.c.config == config && w'.th.c.obj.spec == PLAIN && w'.th.c.obj.generation == 1
  {
    var w3 := Step(w, GRANT);
    assert w3.th == Reread(Ctx(o, o, o, config)) && w3.s == w.s.(history := w3.s.history);
    var w4 := Step(w3, GRANT);
    var o' := o.(finalizers := {FINALIZER});
    assert {} + {FINALIZER} == {FINALIZER};
    assert w4.th == AddFinalizer(Ctx(o, o, o', config)) && w4.s == w.s.(history := w4.s.history);
    RunCons(w, GRANT, [GRANT] + ([GRANT] + []));
    RunCons(w3, GRANT, [GRANT] + []);
    RunCons(w4, GRANT, []);
    hide Run;
  }

  /** Three granted calls lead through clusters() without a workload cluster. */
  lemma AccessThree(w: World)
    requires w.th.Accessing? && w.th.at == Renew && !w.s.requests.withWorkload && MayRenew(w.s.requests.mcp, Granted)
    requires w.s.requests.workload == Absent
    ensures var w' := Run(w, [GRANT] + ([GRANT] + ([GRANT] + []))); var c := w.th.c;
      && w'.s == w.s.(requests := Requests(Granted, Absent, false))
      && w'.th == (if w.th.deleting then Cleaning(SetTerminating(c, 0), ResolveNamespace(c.obj.spec, c.config),
          CleanDeploymentGet)
                   else Installing(SetProgressing(c, "Reconciling", "Reconcile in progress", 0),
                                   ResolveNamespace(c.obj.spec, c.config), NamespaceGet))
  {
    var w1 := Step(w, GRANT);
    var w2 := Step(w1, GRANT);
    RunCons(w, GRANT, [GRANT] + ([GRANT] + []));
    RunCons(w1, GRANT, [GRANT] + []);
    RunCons(w2, GRANT, []);
    hide SetTerminating, SetProgressing, ResolveNamespace;
  }

  lemma Installed(w: World) returns (es: seq<Event>)
    requires AtInstall(w)
    ensures AllTame(es)
    ensures var w' := Run(w, es);
      && w'.s.obj == w.s.obj && w'.s.requests == w.s.requests
      && OneDeployment(w'.s.plane)
  {
    var gets := [GRANT] + ([GRANT] + ([GRANT] + []));
    var puts := [GRANT] + ([GRANT] + []);
    es := gets + puts;
    RunAppend(w, gets, puts);
    InstallReads(w);
    InstallWrites(Run(w, gets), w.th.c);
    hide Run, Step;
  }

  predicate AtService(th: Thread, c: Ctx) {
    th.Installing? && th.c == c && th.ns == HERE && th.d.ServiceGet?
  }

  lemma InstallWrites(w: World, c: Ctx)
    requires w.th == Installing(c, HERE, DeploymentGet([], map[], map[])) && w.s.plane == START.s.plane
    ensures var w' := Run(w, [GRANT] + ([GRANT] + []));
      && w'.s == w.s.(plane := w'.s.plane, history := w'.s.history) && HERE in w'.s.plane.mcp.namespaces
      && OneDeployment(w'.s.plane) && AtService(w'.th, c)
  {
    var d := MutateDeployment(NEW_DEPLOYMENT, HashOpts(c, map[], map[]));
    Proposes(w.s, c, d);
    Creates(w.s, c, d);
    var w' := World(w.s, Installing(c, HERE, DeploymentCreate([], map[], map[], d)));
    RunCons(w, GRANT, [GRANT] + []);
    RunCons(w', GRANT, []);
    RunEmpty(Step(w', GRANT));
    hide Run, HashOpts, MutateDeployment, Admissible, StepInstalling;
  }

  lemma RunEmpty(w: World)
    ensures Run(w, []) == w
  {
  }

  lemma Proposes(s: Stores, c: Ctx, d: Deployment)
    requires s.plane == START.s.plane && d == MutateDeployment(NEW_DEPLOYMENT, HashOpts(c, map[], map[]))
    ensures Admissible(d)
    ensures StepInstalling(s, c, HERE, DeploymentGet([], map[], map[]), GRANT.t)
         == World(s, Installing(c, HERE, DeploymentCreate([], map[], map[], d)))
  {
    UpdateAdmitted(NEW_DEPLOYMENT, HashOpts(c, map[], map[]));
    hide HashOpts, MutateDeployment, Admissible;
  }

  lemma Creates(s: Stores, c: Ctx, d: Deployment)
    requires s.plane == START.s.plane && Admissible(d)
    ensures var w' := StepInstalling(s, c, HERE, DeploymentCreate([], map[], map[], d), GRANT.t);
      && w'.s == s.(plane := w'.s.plane, history := w'.s.history) && HERE in w'.s.plane.mcp.namespaces
      && OneDeployment(w'.s.plane) && AtService(w'.th, c)
  {
  }

  lemma InstallReads(w: World)
    requires AtInstall(w)
    ensures var w' := Run(w, [GRANT] + ([GRANT] + ([GRANT] + [])));
      && w'.s == w.s.(history := w'.s.history)
      && w'.th == Installing(w.th.c, HERE, DeploymentGet([], map[], map[]))
  {
    var c := w.th.c;
    var w1 := Step(w, GRANT);
    assert w1.th == Installing(c, HERE, ConfigMapGet([])) && w1.s == w.s.(history := w1.s.history);
    var w2 := Step(w1, GRANT);
    assert w2.th == Installing(c, HERE, SecretGet([], Some(map[]))) && w2.s == w.s.(history := w2.s.history);
    var w3 := Step(w2, GRANT);
    RunCons(w, GRANT, [GRANT] + ([GRANT] + []));
    RunCons(w1, GRANT, [GRANT] + []);
    RunCons(w2, GRANT, []);
    hide Run;
  }

  const REFUSED := Ctl(Tick(Rejected, 0, Reply(Absent, Absent, Settled(0))))

  /** The process restarts and gets its config again. */
  lemma Restarted(w: World)
    ensures Run(w, [Env(Crash)] + ([Env(ConfigStored(Some(CONFIG)))] + [])) == World(w.s.(cache := Some(CONFIG)), Idle)
  {
    var w1 := World(w.s.(cache := None), Idle);
    RunCons(w, Env(Crash), [Env(ConfigStored(Some(CONFIG)))] + []);
    RunCons(w1, Env(ConfigStored(Some(CONFIG))), []);
    RunEmpty(World(w.s.(cache := Some(CONFIG)), Idle));
    Inert(w.s.plane, w.s.requests);
    assert Step(w, Env(Crash)) == w1;
    hide Run, PlaneEvent, RequestsEvent;
  }

  lemma Inert(p: Plane, q: Requests)
    ensures PlaneEvent(p, Crash) == p && RequestsEvent(q, Crash) == q
    ensures PlaneEvent(p, ConfigStored(Some(CONFIG))) == p && RequestsEvent(q, ConfigStored(Some(CONFIG))) == q
    ensures PlaneEvent(p, UserDelete) == p && RequestsEvent(q, UserDelete) == q
  {
  }
}
