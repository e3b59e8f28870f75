/** The controller's writes over whole runs: outside the few keys it owns, a control plane is what its users alone
    would have made of it. */
module FrameRuns {
  import opened Kube
  import opened Api
  import opened Desired
  import opened Machine
  import opened Frame
  import Guard
  import NoOrphans

  /** Two control planes agree outside what the controller may write in the namespaces `nss` when it syncs
      the secrets in `pulls`. */
  ghost predicate Agree(m: Mcp, m': Mcp, nss: set<string>, pulls: set<string>) {
    && m.namespaces - nss == m'.namespaces - nss
    && m.configMaps == m'.configMaps
    && (forall k: Key | k.ns !in nss || k.name !in pulls :: Lookup(m.secrets, k) == Lookup(m'.secrets, k))
    && (forall k: Key | k.ns !in nss || k.name != DEPLOYMENT :: Lookup(m.deployments, k) == Lookup(m'.deployments, k))
    && (forall k: Key | k.ns !in nss || k.name != SERVICE :: Lookup(m.services, k) == Lookup(m'.services, k))
  }

  function PullsOf(config: Option<Config>): set<string> {
    if config.Some? then set n | n in config.value.pullSecrets else {}
  }

  /** The pull secrets listed by any config anyone stores in a run. */
  function Listed(es: seq<Event>): set<string>
    decreases |es|
  {
    if es == [] then {}
    else Listed(es[1..]) + (if es[0].Env? && es[0].e.ConfigStored? then PullsOf(es[0].e.config) else {})
  }

  function WorkingIn(th: Thread): set<string> {
    if th.Installing? || th.Cleaning? then {th.ns} else {}
  }

  /** The namespaces the controller works in during a run. */
  ghost function Touched(w: World, es: seq<Event>): set<string>
    decreases |es|
  {
    WorkingIn(w.th) + (if es == [] then {} else Touched(Step(w, es[0]), es[1..]))
  }

  /** Whatever config the controller has in hand lists only secrets in `pulls`, and while it
      syncs there is one in hand. */
  predicate SyncsInv(w: World, pulls: set<string>) {
    && PullsOf(w.s.cache) <= pulls
    && (!w.th.Idle? && !w.th.NoConfigPatch? ==> PullsOf(Some(w.th.c.config)) <= pulls)
    && (w.th.Installing? ==> PullInHand(w.th.c, w.th.d))
  }

  function UsersStep(p: Plane, e: Event): Plane {
    if e.Env? then PlaneEvent(p, e.e) else p
  }

  /** What the users alone make of a control plane. */
  function UsersOnly(p: Plane, es: seq<Event>): Plane
    decreases |es|
  {
    if es == [] then p else UsersOnly(UsersStep(p, es[0]), es[1..])
  }

  lemma SameEdit<V>(m: map<Key, V>, m': map<Key, V>, k: Key, v: Option<V>, x: Key)
    requires Lookup(m, x) == Lookup(m', x)
    ensures Lookup(Changed(m, k, v), x) == Lookup(Changed(m', k, v), x)
  {
  }

  lemma EventAgrees(p: Plane, q: Plane, e: EnvEvent, nss: set<string>, pulls: set<string>)
    requires Agree(p.mcp, q.mcp, nss, pulls)
    ensures Agree(PlaneEvent(p, e).mcp, PlaneEvent(q, e).mcp, nss, pulls)
  {
    match e
    case UserNamespace(n, present) =>
      forall x ensures x in PlaneEvent(p, e).mcp.namespaces - nss <==> x in PlaneEvent(q, e).mcp.namespaces - nss {
        assert x in p.mcp.namespaces - nss <==> x in q.mcp.namespaces - nss;
      }
    case UserSecret(k, v) =>
      forall x: Key | x.ns !in nss || x.name !in pulls { SameEdit(p.mcp.secrets, q.mcp.secrets, k, v, x); }
    case UserDeployment(k, v) => DeploymentEventAgrees(p, q, k, v, nss, pulls);
    case UserService(k, v) =>
      assert PlaneEvent(p, e).mcp.services == Changed(p.mcp.services, k, v);
      assert PlaneEvent(q, e).mcp.services == Changed(q.mcp.services, k, v);
      forall x: Key | x.ns !in nss || x.name != SERVICE { SameEdit(p.mcp.services, q.mcp.services, k, v, x); }
    case _ =>
  }

  lemma DeploymentEventAgrees(p: Plane, q: Plane, k: Key, v: Option<Deployment>, nss: set<string>, pulls: set<string>)
    requires Agree(p.mcp, q.mcp, nss, pulls)
    ensures Agree(PlaneEvent(p, UserDeployment(k, v)).mcp, PlaneEvent(q, UserDeployment(k, v)).mcp, nss, pulls)
  {
    var p', q' := PlaneEvent(p, UserDeployment(k, v)).mcp, PlaneEvent(q, UserDeployment(k, v)).mcp;
    forall x: Key | x.ns !in nss || x.name != DEPLOYMENT
      ensures Lookup(p'.deployments, x) == Lookup(q'.deployments, x)
    {
      assert Lookup(p.mcp.deployments, x) == Lookup(q.mcp.deployments, x);
      SameEdit(p.mcp.deployments, q.mcp.deployments, k, v, x);
    }
  }

  lemma InstallAgrees(m: Mcp, m': Mcp, q: Mcp, ns: string, names: seq<string>, nss: set<string>, pulls: set<string>)
    requires Agree(m, q, nss, pulls) && InstallWrites(m, m', ns, names)
    requires ns in nss && forall n | n in names :: n in pulls
    ensures Agree(m', q, nss, pulls)
  {
  }

  lemma CleanupAgrees(m: Mcp, m': Mcp, q: Mcp, ns: string, nss: set<string>, pulls: set<string>)
    requires Agree(m, q, nss, pulls) && CleanupWrites(m, m', ns) && ns in nss
    ensures Agree(m', q, nss, pulls)
  {
  }

  /** All calls outside install and cleanup leave the control plane alone. */
  lemma PlaneKept(s: Stores, th: Thread, t: Tick)
    requires !th.Installing? && !th.Cleaning?
    ensures StepCtl(s, th, t).s.plane == s.plane
  {
    hide AccessCall, AccessEffect, ResolveNamespace, PatchLands, MergedInto, LastOf;
  }

  lemma InstallCallAgrees(s: Stores, c: Ctx, n: string, d: DomainPoint, t: Tick, q: Mcp,
      nss: set<string>, pulls: set<string>)
    requires PullInHand(c, d) && PullsOf(Some(c.config)) <= pulls && Agree(s.plane.mcp, q, nss, pulls) && n in nss
    ensures Agree(StepInstalling(s, c, n, d, t).s.plane.mcp, q, nss, pulls)
  {
    var call := DomainCall(s.plane, s.platform, c, n, d, t);
    InstallFrame(s.plane, s.platform, c, n, d, t);
    NoOrphans.AfterCallFrame(s.(plane := call.plane, history := NoteAll(s.history, call.act)), c, n, call.go, t.now);
    assert forall x | x in c.config.pullSecrets :: x in PullsOf(Some(c.config));
    InstallAgrees(s.plane.mcp, call.plane.mcp, q, n, c.config.pullSecrets, nss, pulls);
    hide DomainCall, AfterCall, Agree, InstallEffect;
  }

  lemma CleaningCallAgrees(s: Stores, c: Ctx, n: string, at: CleanupPoint, t: Tick, q: Mcp,
      nss: set<string>, pulls: set<string>)
    requires Agree(s.plane.mcp, q, nss, pulls) && n in nss
    ensures Agree(StepCleaning(s, c, n, at, t).s.plane.mcp, q, nss, pulls)
  {
    CleanupAgrees(s.plane.mcp, Cleanup(s.plane, n, at, t).plane.mcp, q, n, nss, pulls);
    hide Agree;
  }

  lemma CallAgrees(s: Stores, th: Thread, t: Tick, q: Mcp, nss: set<string>, pulls: set<string>)
    requires SyncsInv(World(s, th), pulls) && WorkingIn(th) <= nss
    requires Agree(s.plane.mcp, q, nss, pulls)
    ensures Agree(StepCtl(s, th, t).s.plane.mcp, q, nss, pulls)
  {
    match th
    case Installing(c, n, d) => InstallCallAgrees(s, c, n, d, t, q, nss, pulls);
    case Cleaning(c, n, at) => CleaningCallAgrees(s, c, n, at, t, q, nss, pulls);
    case _ => PlaneKept(s, th, t);
    hide Agree, StepInstalling, StepCleaning, Begin, StepNoConfigPatch, StepReread, StepRecreate, StepAddFinalizer,
      StepAccessing, StepClosing, StepCheckMcpRequest, StepCheckWorkloadRequest, StepCleanedPatch, StepReleasing,
      StepDropFinalizer;
  }

  lemma InstallKept(s: Stores, c: Ctx, ns: string, d: DomainPoint, t: Tick, pulls: set<string>)
    requires SyncsInv(World(s, Installing(c, ns, d)), pulls)
    ensures SyncsInv(StepInstalling(s, c, ns, d, t), pulls)
  {
    Guard.ContinueInHand(s.plane, s.platform, c, ns, d, t);
    var call := DomainCall(s.plane, s.platform, c, ns, d, t);
    AfterCallKept(s.(plane := call.plane, history := NoteAll(s.history, call.act)), c, ns, call.go, t.now, pulls);
    hide PullsOf, PullInHand, AfterCall, DomainCall;
  }

  lemma AfterCallKept(s: Stores, c: Ctx, ns: string, go: DomainGo, now: int, pulls: set<string>)
    requires PullsOf(s.cache) <= pulls && PullsOf(Some(c.config)) <= pulls && (go.Continue? ==> PullInHand(c, go.d))
    ensures SyncsInv(AfterCall(s, c, ns, go, now), pulls)
  {
    hide PullsOf, PullInHand, LastOf;
  }

  lemma AccessKept(s: Stores, c: Ctx, deleting: bool, at: AccessPoint, t: Tick, pulls: set<string>)
    requires SyncsInv(World(s, Accessing(c, deleting, at)), pulls)
    ensures SyncsInv(StepAccessing(s, c, deleting, at, t), pulls)
  {
    hide PullsOf, AccessCall, AccessEffect, ResolveNamespace, LastOf;
  }

  lemma PatchKept(s: Stores, th: Thread, t: Tick, pulls: set<string>)
    requires SyncsInv(World(s, th), pulls) && (th.NoConfigPatch? || th.Closing? || th.CleanedPatch?)
    ensures SyncsInv(StepCtl(s, th, t), pulls)
  {
    hide PullsOf, PatchLands, MergedInto, LastOf;
  }

  lemma OtherKept(s: Stores, th: Thread, t: Tick, pulls: set<string>)
    requires SyncsInv(World(s, th), pulls)
    requires !th.Installing? && !th.Accessing? && !th.NoConfigPatch? && !th.Closing? && !th.CleanedPatch?
    ensures SyncsInv(StepCtl(s, th, t), pulls)
  {
    hide PullsOf, LastOf, Cleanup, ReleaseReply;
  }

  /** The config a thread works with never changes under it. */
  lemma ConfigKept(s: Stores, th: Thread, t: Tick, pulls: set<string>)
    requires SyncsInv(World(s, th), pulls)
    ensures SyncsInv(StepCtl(s, th, t), pulls)
  {
    match th
    case Installing(c, ns, d) => InstallKept(s, c, ns, d, t, pulls);
    case Accessing(c, deleting, at) => AccessKept(s, c, deleting, at, t, pulls);
    case NoConfigPatch(_, _) => PatchKept(s, th, t, pulls);
    case Closing(_, _, _) => PatchKept(s, th, t, pulls);
    case CleanedPatch(_, _) => PatchKept(s, th, t, pulls);
    case _ => OtherKept(s, th, t, pulls);
    hide SyncsInv, StepInstalling, StepAccessing;
  }

  lemma {:induction false} RunAgrees(w: World, q: Plane, es: seq<Event>, nss: set<string>, pulls: set<string>)
    requires SyncsInv(w, pulls) && Listed(es) <= pulls && Touched(w, es) <= nss
    requires Agree(w.s.plane.mcp, q.mcp, nss, pulls)
    ensures Agree(Run(w, es).s.plane.mcp, UsersOnly(q, es).mcp, nss, pulls)
    decreases |es|
  {
    if es != [] {
      var e := es[0];
      if e.Env? {
        EventAgrees(w.s.plane, q, e.e, nss, pulls);
      } else {
        CallAgrees(w.s, w.th, e.t, q.mcp, nss, pulls);
        ConfigKept(w.s, w.th, e.t, pulls);
      }
      hide Agree, StepCtl, PlaneEvent, RequestsEvent, ObjectEvent, PullsOf, PullInHand, WorkingIn;
      RunAgrees(Step(w, e), UsersStep(q, e), es[1..], nss, pulls);
    }
  }

  /** Over every run: outside the namespaces the controller worked in, and in those outside the pull secrets any stored
      config lists and the Deployment and Service of the two well-known names, the control plane is exactly what the
      users' own edits made of it. */
  lemma WritesWhereItWorks(w: World, es: seq<Event>)
    requires Initial(w)
    ensures Agree(Run(w, es).s.plane.mcp, UsersOnly(w.s.plane, es).mcp, Touched(w, es), Listed(es))
  {
    RunAgrees(w, w.s.plane, es, Touched(w, es), Listed(es));
  }

  /** In particular the ConfigMap and the Secret the users provide are never altered, wherever the controller worked,
      provided no stored config lists a pull secret of the Secret's name. */
  lemma UserDataUntouched(w: World, es: seq<Event>)
    requires Initial(w) && SECRET !in Listed(es)
    ensures var m, u := Run(w, es).s.plane.mcp, UsersOnly(w.s.plane, es).mcp;
      m.configMaps == u.configMaps && forall n :: Lookup(m.secrets, Key(n, SECRET)) == Lookup(u.secrets, Key(n, SECRET))
  {
    WritesWhereItWorks(w, es);
    hide Run;
  }
}
