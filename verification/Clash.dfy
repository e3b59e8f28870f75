/** When the users' own data is altered: exactly when a listed pull secret has the name of their Secret. */
module Clash {
  import opened Kube
  import opened Api
  import opened Desired
  import opened Machine
  import opened FrameRuns
  import opened Scenario
  import NoOrphans

  /** The ConfigMap and the Secret the users provide, in every namespace, are the same in both control planes. */
  ghost predicate SameUserData(m: Mcp, u: Mcp) {
    && m.configMaps == u.configMaps
    && forall n: string :: Lookup(m.secrets, Key(n, SECRET)) == Lookup(u.secrets, Key(n, SECRET))
  }

  /** This call writes a pull secret of the Secret's name: it makes one where the users have none, or it puts other data
      into theirs. */
  predicate Clashes(w: World, e: Event) {
    && w.th.Installing? && (w.th.d.PullCreate? || w.th.d.PullUpdate?) && e.Ctl? && Lands(e.t.fate)
    && var k := PullKey(w.th.c, w.th.ns, w.th.d.sources);
    && k.name == SECRET
    && var stored := Lookup(w.s.plane.mcp.secrets, k);
    && if w.th.d.PullCreate? then stored == None && k.ns in w.s.plane.mcp.namespaces
       else stored == Some(w.th.d.dst) && w.th.d.dst.data != w.th.d.src.data
  }

  // ---- one step

  /** One accepted write of a pull secret changes the users' Secret exactly if it has that name and, for an update,
      other data. */
  lemma PullSecretClash(p: Plane, c: Ctx, k: Key, sources: seq<Secret>, src: Secret, dst: Secret, t: Tick)
    requires Lands(t.fate)
    ensures Lookup(p.mcp.secrets, k) == Some(dst) ==>
      (SameUserData(PullUpdateCall(p, c, k, sources, src, dst, t).plane.mcp, p.mcp)
       <==> k.name != SECRET || src.data == dst.data)
    ensures k !in p.mcp.secrets && k.ns in p.mcp.namespaces ==>
      (SameUserData(PullCreateCall(p, c, k, sources, src, t).plane.mcp, p.mcp) <==> k.name != SECRET)
  {
    PutSecretClash(p, k, SyncSecret(None, src));
    PutSecretClash(p, k, SyncSecret(Some(dst), src));
    hide SameUserData, PutSecret;
  }

  lemma PutSecretClash(p: Plane, k: Key, v: Secret)
    ensures SameUserData(PutSecret(p, k, v).mcp, p.mcp) <==> k.name != SECRET || Lookup(p.mcp.secrets, k) == Some(v)
  {
    if k.name == SECRET {
      assert Lookup(PutSecret(p, k, v).mcp.secrets, Key(k.ns, SECRET)) == Some(v);
    }
  }

  lemma CallClash(s: Stores, c: Ctx, ns: string, d: DomainPoint, t: Tick)
    ensures SameUserData(DomainCall(s.plane, s.platform, c, ns, d, t).plane.mcp, s.plane.mcp)
      <==> !Clashes(World(s, Installing(c, ns, d)), Ctl(t))
  {
    if d.PullCreate? && Lands(t.fate) {
      PullSecretClash(s.plane, c, PullKey(c, ns, d.sources), d.sources, d.src, d.src, t);
    } else if d.PullUpdate? && Lands(t.fate) {
      PullSecretClash(s.plane, c, PullKey(c, ns, d.sources), d.sources, d.src, d.dst, t);
    }
    hide HashOpts, PullNext, PullKey, MutateDeployment, MutateService, Admissible, SyncSecret;
  }

  lemma InstallClash(s: Stores, c: Ctx, ns: string, d: DomainPoint, t: Tick)
    ensures SameUserData(StepInstalling(s, c, ns, d, t).s.plane.mcp, s.plane.mcp)
      <==> !Clashes(World(s, Installing(c, ns, d)), Ctl(t))
  {
    var call := DomainCall(s.plane, s.platform, c, ns, d, t);
    CallClash(s, c, ns, d, t);
    NoOrphans.AfterCallFrame(s.(plane := call.plane, history := NoteAll(s.history, call.act)), c, ns, call.go, t.now);
    hide DomainCall, AfterCall, NoteAll, SameUserData, Clashes;
  }

  /** The cleanup removes no Secret and no ConfigMap. */
  lemma CleaningSame(s: Stores, c: Ctx, ns: string, at: CleanupPoint, t: Tick)
    ensures SameUserData(StepCleaning(s, c, ns, at, t).s.plane.mcp, s.plane.mcp)
  {
    hide LastOf;
  }

  lemma SameAsItself(m: Mcp)
    ensures SameUserData(m, m)
  {
  }

  lemma StepClash(w: World, e: Event)
    requires e.Ctl?
    ensures SameUserData(Step(w, e).s.plane.mcp, w.s.plane.mcp) <==> !Clashes(w, e)
  {
    match w.th {
      case Installing(c, ns, d) => InstallClash(w.s, c, ns, d, e.t);
      case Cleaning(c, ns, at) => CleaningSame(w.s, c, ns, at, e.t);
      case _ =>
        PlaneKept(w.s, w.th, e.t);
        SameAsItself(w.s.plane.mcp);
    }
    hide StepInstalling, StepCleaning, SameUserData, Begin, StepNoConfigPatch, StepReread, StepRecreate,
      StepAddFinalizer, StepAccessing, StepClosing, StepCheckMcpRequest, StepCheckWorkloadRequest, StepCleanedPatch,
      StepReleasing, StepDropFinalizer, PullKey, PlaneEvent, RequestsEvent, ObjectEvent;
  }

  // ---- whole runs

  /** At every point of the run the users' data is what their own edits made of it, starting from `u`. */
  ghost predicate AlwaysUntouched(w: World, u: Plane, es: seq<Event>)
    decreases |es|
  {
    SameUserData(w.s.plane.mcp, u.mcp) && (es != [] ==> AlwaysUntouched(Step(w, es[0]), UsersStep(u, es[0]), es[1..]))
  }

  ghost predicate NeverClashes(w: World, es: seq<Event>)
    decreases |es|
  {
    es != [] ==> !Clashes(w, es[0]) && NeverClashes(Step(w, es[0]), es[1..])
  }

  lemma EditSame(p: Plane, u: Plane, e: EnvEvent)
    requires SameUserData(p.mcp, u.mcp)
    ensures SameUserData(PlaneEvent(p, e).mcp, PlaneEvent(u, e).mcp)
  {
    match e
    case UserSecret(k, v) => forall n: string { SameEdit(p.mcp.secrets, u.mcp.secrets, k, v, Key(n, SECRET)); }
    case UserDeployment(k, v) =>
      hide RemoveDeployment, PutDeployment, Admissible;
      DeploymentEdit(p, k, v);
      DeploymentEdit(u, k, v);
    case _ =>
    hide Changed;
  }

  lemma DeploymentEdit(p: Plane, k: Key, v: Option<Deployment>)
    ensures var p' := PlaneEvent(p, UserDeployment(k, v));
      p'.mcp.secrets == p.mcp.secrets && p'.mcp.configMaps == p.mcp.configMaps
  {
  }

  lemma StepSame(w: World, e: Event, u: Plane)
    requires SameUserData(w.s.plane.mcp, u.mcp)
    ensures SameUserData(Step(w, e).s.plane.mcp, UsersStep(u, e).mcp) <==> !Clashes(w, e)
  {
    if e.Env? {
      EditSame(w.s.plane, u, e.e);
    } else {
      StepClash(w, e);
      SameThrough(Step(w, e).s.plane.mcp, w.s.plane.mcp, u.mcp);
    }
    hide StepCtl, SameUserData, PlaneEvent, ObjectEvent, RequestsEvent;
  }

  lemma SameThrough(m': Mcp, m: Mcp, u: Mcp)
    requires SameUserData(m, u)
    ensures SameUserData(m', u) <==> SameUserData(m', m)
  {
  }

  lemma {:induction false} RunUntouched(w: World, u: Plane, es: seq<Event>)
    requires SameUserData(w.s.plane.mcp, u.mcp)
    ensures AlwaysUntouched(w, u, es) <==> NeverClashes(w, es)
    decreases |es|
  {
    hide SameUserData, Clashes, Step, UsersStep;
    if es != [] {
      StepSame(w, es[0], u);
      if !Clashes(w, es[0]) {
        RunUntouched(Step(w, es[0]), UsersStep(u, es[0]), es[1..]);
      }
    }
  }

  /** Over every run, from any state: the ConfigMaps and Secrets the users provide are at all times what their own edits
      made of them if and only if no write of a pull secret clashes. */
  lemma UntouchedExactly(w: World, es: seq<Event>)
    ensures AlwaysUntouched(w, w.s.plane, es) <==> NeverClashes(w, es)
  {
    RunUntouched(w, w.s.plane, es);
  }

  // ---- a run with a clash

  const LISTING := CONFIG.(pullSecrets := [SECRET])

  /** The platform and the config are set up, an object is made, and its first calls are granted. */
  lemma SetUp(w: World, src: Secret) returns (es: seq<Event>)
    requires w == START.(s := w.s) && w.s == START.s.(plane := w.s.plane)
    ensures forall e | e in es :: e.Ctl? || e.e.PlatformSecret? || e.e.UserCreate? || e.e.ConfigStored?
    ensures var w' := Run(w, es);
      && w'.s.plane == w.s.plane && Lookup(w'.s.platform, SECRET) == Some(src)
      && w'.th.Installing? && w'.th.ns == HERE && w'.th.d == NamespaceGet && w'.th.c.config == LISTING
  {
    var stored := Stored(w, src);
    var calls := [GRANT] + ([GRANT] + ([GRANT] + []));
    es := stored + calls + calls;
    RunAppend(w, stored + calls, calls);
    RunAppend(w, stored, calls);
    hide Run, SetProgressing;
    FirstReads(Run(w, stored), Obj(0, 1, PLAIN, false, {}, NO_STATUS), LISTING);
    AccessThree(Run(w, stored + calls));
    KeepsConfig(Run(w, stored + calls).th.c);
  }

  lemma Stored(w: World, src: Secret) returns (es: seq<Event>)
    requires w == START.(s := w.s) && w.s == START.s.(plane := w.s.plane)
    ensures forall e | e in es :: e.Env? && (e.e.PlatformSecret? || e.e.UserCreate? || e.e.ConfigStored?)
    ensures Run(w, es) == World(w.s.(platform := map[SECRET := src], nextUid := 1, cache := Some(LISTING),
                                     obj := Some(Obj(0, 1, PLAIN, false, {}, NO_STATUS))), Idle)
  {
    var platform, create := Env(PlatformSecret(SECRET, Some(src))), Env(UserCreate(PLAIN, {}));
    var config := Env(ConfigStored(Some(LISTING)));
    es := [platform] + ([create] + ([config] + []));
    var w1 := World(w.s.(platform := map[SECRET := src]), Idle);
    var w2 := World(w1.s.(obj := Some(Obj(0, 1, PLAIN, false, {}, NO_STATUS)), nextUid := 1), Idle);
    var w3 := World(w2.s.(cache := Some(LISTING)), Idle);
    assert Step(w, platform) == w1;
    assert Step(w1, create) == w2;
    assert Step(w2, config) == w3;
    hide Run, Step;
    RunCons(w, platform, [create] + ([config] + []));
    RunCons(w1, create, [config] + []);
    RunCons(w2, config, []);
    RunEmpty(w3);
  }

  lemma KeepsConfig(c: Ctx)
    ensures SetProgressing(c, "Reconciling", "Reconcile in progress", 0).config == c.config
  {
  }

  /** What the pass is about to do once it has read the secret on both sides. */
  function WriteOf(stored: Option<Secret>, src: Secret): DomainPoint {
    if stored.Some? then PullUpdate([], src, stored.value) else PullCreate([], src)
  }

  /** The pass goes on through the namespace and the two reads of the one pull secret. */
  lemma ReadBoth(w: World, src: Secret)
    requires w.th.Installing? && w.th.ns == HERE && w.th.d == NamespaceGet && w.th.c.config == LISTING
    requires Lookup(w.s.platform, SECRET) == Some(src) && HERE in w.s.plane.mcp.namespaces
    ensures var w' := Run(w, [GRANT] + ([GRANT] + ([GRANT] + [])));
      && w'.s.plane == w.s.plane
      && w'.th == Installing(w.th.c, HERE, WriteOf(Lookup(w.s.plane.mcp.secrets, Key(HERE, SECRET)), src))
  {
    var c := w.th.c;
    var w1 := Step(w, GRANT);
    assert w1.th == Installing(c, HERE, PullSource([])) && w1.s == w.s.(history := w1.s.history);
    var w2 := Step(w1, GRANT);
    assert w2.th == Installing(c, HERE, PullGet([], src)) && w2.s == w.s.(history := w2.s.history);
    var w3 := Step(w2, GRANT);
    assert w3.s == w2.s && w3.th == Installing(c, HERE, WriteOf(Lookup(w.s.plane.mcp.secrets, Key(HERE, SECRET)), src));
    hide Step, Run;
    RunCons(w, GRANT, [GRANT] + ([GRANT] + []));
    RunCons(w1, GRANT, [GRANT] + []);
    RunCons(w2, GRANT, []);
    RunEmpty(w3);
  }

  lemma Written(w: World, c: Ctx, src: Secret)
    requires c.config == LISTING && HERE in w.s.plane.mcp.namespaces
    requires var stored := Lookup(w.s.plane.mcp.secrets, Key(HERE, SECRET));
      && (stored.Some? ==> stored.value.data != src.data)
      && w.th == Installing(c, HERE, WriteOf(stored, src))
    ensures !NeverClashes(w, [GRANT] + [])
    ensures var m := Run(w, [GRANT] + []).s.plane.mcp;
      Key(HERE, SECRET) in m.secrets && m.secrets[Key(HERE, SECRET)].data == src.data
  {
    assert Clashes(w, GRANT);
    RunCons(w, GRANT, []);
    RunEmpty(Step(w, GRANT));
    hide Run;
  }

  lemma {:induction false} ClashLater(w: World, es: seq<Event>, fs: seq<Event>)
    ensures NeverClashes(w, es + fs) ==> NeverClashes(Run(w, es), fs)
    decreases |es|
  {
    hide Step, Clashes;
    if es == [] {
      assert es + fs == fs;
    } else {
      assert (es + fs)[1..] == es[1..] + fs;
      ClashLater(Step(w, es[0]), es[1..], fs);
    }
  }

  /** Whatever Secret the users have there, or none: a config that lists its name as a pull secret puts the platform's
      data under it, and no user has touched it. */
  lemma UserSecretIsOverwritten(secrets: map<Key, Secret>, src: Secret) returns (w: World, es: seq<Event>)
    requires Key(HERE, SECRET) in secrets ==> secrets[Key(HERE, SECRET)].data != src.data
    ensures Initial(w) && AllTame(es) && w.s.plane.mcp.secrets == secrets
    ensures forall e | e in es && e.Env? :: !e.e.UserSecret?
    ensures !AlwaysUntouched(w, w.s.plane, es)
    ensures var m := Run(w, es).s.plane.mcp;
      Key(HERE, SECRET) in m.secrets && m.secrets[Key(HERE, SECRET)].data == src.data
  {
    w := START.(s := START.s.(plane := START.s.plane.(mcp := MCP.(secrets := secrets))));
    es := Overwriting(w, src);
    UntouchedExactly(w, es);
    hide Run, NeverClashes, AlwaysUntouched;
  }

  lemma Overwriting(w: World, src: Secret) returns (es: seq<Event>)
    requires w == START.(s := w.s) && w.s == START.s.(plane := w.s.plane) && HERE in w.s.plane.mcp.namespaces
    requires var stored := Lookup(w.s.plane.mcp.secrets, Key(HERE, SECRET));
      stored.Some? ==> stored.value.data != src.data
    ensures forall e | e in es :: e.Ctl? || e.e.PlatformSecret? || e.e.UserCreate? || e.e.ConfigStored?
    ensures !NeverClashes(w, es)
    ensures var m := Run(w, es).s.plane.mcp;
      Key(HERE, SECRET) in m.secrets && m.secrets[Key(HERE, SECRET)].data == src.data
  {
    var before := SetUp(w, src);
    var reading, writing := [GRANT] + ([GRANT] + ([GRANT] + [])), [GRANT] + [];
    es := before + reading + writing;
    RunAppend(w, before + reading, writing);
    RunAppend(w, before, reading);
    hide Run, NeverClashes;
    ReadBoth(Run(w, before), src);
    Written(Run(w, before + reading), Run(w, before).th.c, src);
    ClashLater(w, before + reading, writing);
  }
}
