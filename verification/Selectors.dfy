/** Deployment selectors over whole runs: fixed at creation, and always one the Service finds the pods by. */
module Selectors {
  import opened Kube
  import opened Api
  import opened Desired
  import opened Machine

  /** A Deployment the controller made is there and selects what the Service selects. */
  predicate MadeSelect(p: Plane) {
    forall k | k in p.madeDeployments ::
      k in p.mcp.deployments && p.mcp.deployments[k].selector == Some(SELECTOR)
  }

  predicate InHand(th: Thread) {
    th.Installing? ==>
      && (th.d.DeploymentCreate? ==> th.d.d.selector == Some(SELECTOR))
      && (th.d.DeploymentUpdate? ==> th.d.was.selector.Some? && th.d.d.selector == th.d.was.selector)
  }

  predicate Inv(w: World) {
    McpAdmissible(w.s.plane.mcp) && MadeSelect(w.s.plane) && InHand(w.th)
  }

  /** Deployments that are there before and after have the same selector before and after. */
  predicate SelectorsKept(m: map<Key, Deployment>, m': map<Key, Deployment>) {
    forall k | k in m && k in m' :: m'[k].selector == m[k].selector
  }

  predicate PlaneKept(p: Plane, p': Plane) {
    McpAdmissible(p'.mcp) && MadeSelect(p') && SelectorsKept(p.mcp.deployments, p'.mcp.deployments)
  }

  lemma EventKeeps(p: Plane, e: EnvEvent)
    requires McpAdmissible(p.mcp) && MadeSelect(p)
    ensures PlaneKept(p, PlaneEvent(p, e))
  {
    hide Admissible;
  }

  lemma DeploymentCallKeeps(p: Plane, k: Key, sources: seq<Secret>, cm: Data, secret: Data, was: Deployment,
      d: Deployment, t: Tick)
    requires McpAdmissible(p.mcp) && MadeSelect(p)
    ensures d.selector == Some(SELECTOR) ==> PlaneKept(p, DeploymentCreateCall(p, k, sources, cm, secret, d, t).plane)
    ensures d.selector == was.selector
      ==> PlaneKept(p, DeploymentUpdateCall(p, k, sources, cm, secret, was, d, t).plane)
  {
    hide Admissible;
  }

  predicate NextInHand(go: DomainGo) {
    go.Continue? ==>
      && (go.d.DeploymentCreate? ==> go.d.d.selector == Some(SELECTOR))
      && (go.d.DeploymentUpdate? ==> go.d.was.selector.Some? && go.d.d.selector == go.d.was.selector)
  }

  lemma DeploymentGetKeeps(p: Plane, k: Key, sources: seq<Secret>, cm: Data, secret: Data, o: DeploymentOpts, t: Tick)
    requires McpAdmissible(p.mcp)
    ensures var call := DeploymentGetCall(p, k, sources, cm, secret, o, t); call.plane == p && NextInHand(call.go)
  {
    assert k in p.mcp.deployments ==> Admissible(p.mcp.deployments[k]);
  }

  predicate SameDeployments(p: Plane, p': Plane) {
    p'.mcp.deployments == p.mcp.deployments && p'.madeDeployments == p.madeDeployments
  }

  lemma OtherCalls(p: Plane, platform: map<string, Secret>, c: Ctx, ns: string, d: DomainPoint, t: Tick)
    requires !d.DeploymentGet? && !d.DeploymentCreate? && !d.DeploymentUpdate?
    ensures var call := DomainCall(p, platform, c, ns, d, t); SameDeployments(p, call.plane) && NextInHand(call.go)
  {
    hide SyncSecret, MutateService, PullKey;
  }

  lemma SameKept(p: Plane, p': Plane)
    requires McpAdmissible(p.mcp) && MadeSelect(p) && SameDeployments(p, p')
    ensures PlaneKept(p, p')
  {
    hide Admissible;
  }

  lemma CallKeeps(p: Plane, platform: map<string, Secret>, c: Ctx, ns: string, d: DomainPoint, t: Tick)
    requires McpAdmissible(p.mcp) && MadeSelect(p) && InHand(Installing(c, ns, d))
    ensures var call := DomainCall(p, platform, c, ns, d, t); PlaneKept(p, call.plane) && NextInHand(call.go)
  {
    match d {
      case DeploymentGet(sources, cm, secret) =>
        DeploymentGetKeeps(p, Key(ns, DEPLOYMENT), sources, cm, secret, HashOpts(c, cm, secret), t);
        SameKept(p, p);
      case DeploymentCreate(sources, cm, secret, dep) =>
        DeploymentCallKeeps(p, Key(ns, DEPLOYMENT), sources, cm, secret, dep, dep, t);
      case DeploymentUpdate(sources, cm, secret, was, dep) =>
        DeploymentCallKeeps(p, Key(ns, DEPLOYMENT), sources, cm, secret, was, dep, t);
      case _ =>
        OtherCalls(p, platform, c, ns, d, t);
        SameKept(p, DomainCall(p, platform, c, ns, d, t).plane);
    }
    hide HashOpts, DeploymentGetCall, PlaneKept, MadeSelect, McpAdmissible, NamespaceCall, PullSourceCall,
      PullGetCall, PullCreateCall, PullUpdateCall, ConfigMapCall, SecretCall, ServiceGetCall, ServiceCreateCall,
      ServiceUpdateCall;
  }

  lemma InstallKeeps(s: Stores, c: Ctx, ns: string, d: DomainPoint, t: Tick)
    requires Inv(World(s, Installing(c, ns, d)))
    ensures var w := StepInstalling(s, c, ns, d, t); Inv(w) && PlaneKept(s.plane, w.s.plane)
  {
    CallKeeps(s.plane, s.platform, c, ns, d, t);
    hide DomainCall, PlaneKept, MadeSelect, McpAdmissible, LastOf, SetProgressing, SetReady;
    assert StepInstalling(s, c, ns, d, t).s.plane == DomainCall(s.plane, s.platform, c, ns, d, t).plane;
  }

  /** Removing keeps what is left as it is. */
  lemma RemovedKept(p: Plane, k: Key)
    requires McpAdmissible(p.mcp) && MadeSelect(p)
    ensures PlaneKept(p, p) && PlaneKept(p, RemoveDeployment(p, k)) && PlaneKept(p, RemoveService(p, k))
  {
    hide Admissible;
  }

  lemma CleaningKeeps(s: Stores, c: Ctx, ns: string, at: CleanupPoint, t: Tick)
    requires Inv(World(s, Cleaning(c, ns, at)))
    ensures var w := StepCleaning(s, c, ns, at, t); Inv(w) && PlaneKept(s.plane, w.s.plane)
  {
    RemovedKept(s.plane, Key(ns, DEPLOYMENT));
    RemovedKept(s.plane, Key(ns, SERVICE));
    hide McpAdmissible, MadeSelect, SelectorsKept, RemoveDeployment, RemoveService, LastOf;
  }

  lemma OthersKeep(s: Stores, th: Thread, t: Tick)
    requires Inv(World(s, th)) && !th.Installing? && !th.Cleaning?
    ensures var w := StepCtl(s, th, t); InHand(w.th) && w.s.plane == s.plane
  {
    hide PatchLands, MergedInto, LastOf, AccessCall, AccessEffect, ResolveNamespace;
  }

  lemma StepKeeps(w: World, e: Event)
    requires Inv(w)
    ensures Inv(Step(w, e)) && SelectorsKept(w.s.plane.mcp.deployments, Step(w, e).s.plane.mcp.deployments)
  {
    match e {
      case Env(e) => EventKeeps(w.s.plane, e);
      case Ctl(t) =>
        match w.th
        case Installing(c, ns, d) => InstallKeeps(w.s, c, ns, d, t);
        case Cleaning(c, ns, at) => CleaningKeeps(w.s, c, ns, at, t);
        case _ => OthersKeep(w.s, w.th, t);
    }
    hide StepInstalling, StepCleaning, PlaneEvent, ObjectEvent, RequestsEvent, MadeSelect, McpAdmissible;
  }

  lemma {:induction false} RunKeeps(w: World, es: seq<Event>)
    requires Inv(w)
    ensures Inv(Run(w, es))
    decreases |es|
  {
    hide Inv, Step;
    if es != [] {
      StepKeeps(w, es[0]);
      RunKeeps(Step(w, es[0]), es[1..]);
    }
  }

  /** The Deployment at `k` is never away during this run. */
  ghost predicate Persists(w: World, es: seq<Event>, k: Key)
    decreases |es|
  {
    k in w.s.plane.mcp.deployments && (es != [] ==> Persists(Step(w, es[0]), es[1..], k))
  }

  lemma {:induction false} SelectorPersists(w: World, es: seq<Event>, k: Key)
    requires Inv(w) && Persists(w, es, k)
    ensures k in Run(w, es).s.plane.mcp.deployments
    ensures Run(w, es).s.plane.mcp.deployments[k].selector == w.s.plane.mcp.deployments[k].selector
    decreases |es|
  {
    hide Inv, Step;
    if es != [] {
      StepKeeps(w, es[0]);
      SelectorPersists(Step(w, es[0]), es[1..], k);
    }
  }

  /** After any run a Deployment's selector stays what it is for as long as the Deployment stays, whoever made it and
      whatever else happens; and one the controller made has the Service's selector, which its own pods carry. */
  lemma SelectorsAreStable(w: World, before: seq<Event>, es: seq<Event>, k: Key)
    requires Initial(w) && Persists(Run(w, before), es, k)
    ensures var m := Run(w, before).s.plane; var m' := Run(Run(w, before), es).s.plane;
      && k in m.mcp.deployments && k in m'.mcp.deployments
      && m'.mcp.deployments[k].selector == m.mcp.deployments[k].selector
      && (k in m'.madeDeployments ==>
            && m'.mcp.deployments[k].selector == Some(MutateService(NEW_SERVICE).selector)
            && SubMap(MutateService(NEW_SERVICE).selector, m'.mcp.deployments[k].templateLabels))
  {
    RunKeeps(w, before);
    SelectorPersists(Run(w, before), es, k);
    RunKeeps(Run(w, before), es);
    var p := Run(Run(w, before), es).s.plane;
    assert k in p.madeDeployments ==> Admissible(p.mcp.deployments[k]);
    hide Run, SubMap;
  }
}
