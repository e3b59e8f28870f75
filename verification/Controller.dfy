/** The controller as it runs: methods that call the API servers one after the other. Each is proved to be a run of the
    step machine, call by call, so that what holds of the machine's runs holds of the code below. */
module Controller {
  import opened Kube
  import opened Api
  import opened StatusWrites
  import opened Desired
  import opened Machine
  import Digest
  import FrameRuns
  import Targets
  import Guard
  import Endings
  import Mutation
  import NoOrphans
  import ReadyHome
  import ReadyMeans
  import ReadyRuns
  import Scenario
  import StatusRuns

  /** Anything the environment can do without ending the process. */
  type Weather = e: EnvEvent | !e.Crash? witness UserDelete

  /** What happens before the next call, and what becomes of that call. */
  datatype Turn = Turn(before: seq<Weather>, tick: Tick)

  datatype PrerequisiteResult = PrerequisiteResult(ready: bool, message: string, configHash: string)

  const FAIR := Tick(Ok, 0, Reply(Granted, Granted, Settled(0)))

  // ---- the machine's step after each outcome of a call

  /** Where the machine goes from its read of the Secret. */
  lemma SecretGot(s: Stores, c: Ctx, ns: string, sources: seq<Secret>, found: Option<Data>, t: Tick)
    ensures var k := Key(ns, SECRET); var w := StepCtl(s, Installing(c, ns, SecretGet(sources, found)), t);
      && (t.fate != Ok ==> w == Close(s, c, Fail, None))
      && (t.fate == Ok && found.Some? && k in s.plane.mcp.secrets ==>
            var data := s.plane.mcp.secrets[k].data;
            w == World(s.(history := Note(s.history, SecretRead(k, data))),
                       Installing(c, ns, DeploymentGet(sources, found.value, data))))
      && (t.fate == Ok && (found.None? || k !in s.plane.mcp.secrets) ==>
            var message := Missing(found.None?, k !in s.plane.mcp.secrets, ns);
            w == Close(s, SetProgressing(c, "WaitingForPrerequisites", message, t.now), Wait(WAITING), None))
  {
    hide Close, SetProgressing, Missing;
  }

  lemma DeploymentGot(s: Stores, c: Ctx, ns: string, sources: seq<Secret>, cm: Data, secret: Data, o: DeploymentOpts,
      t: Tick)
    requires o == HashOpts(c, cm, secret)
    ensures var th := Installing(c, ns, DeploymentGet(sources, cm, secret)); var k := Key(ns, DEPLOYMENT);
      var was := if k in s.plane.mcp.deployments then s.plane.mcp.deployments[k] else NEW_DEPLOYMENT;
      var d := MutateDeployment(was, o);
      StepCtl(s, th, t) ==
        if t.fate != Ok then Close(s, c, Fail, None)
        else if k !in s.plane.mcp.deployments then World(s, Installing(c, ns, DeploymentCreate(sources, cm, secret, d)))
        else if d == was
        then World(s.(history := Note(s.history, DeploymentHeld(k, d))),
            Installing(c, ns, ServiceGet(sources, cm, secret, d)))
        else World(s, Installing(c, ns, DeploymentUpdate(sources, cm, secret, was, d)))
  {
    hide MutateDeployment, HashOpts, Close;
  }

  lemma ServiceGot(s: Stores, c: Ctx, ns: string, sources: seq<Secret>, cm: Data, secret: Data, d: Deployment, t: Tick)
    ensures var th := Installing(c, ns, ServiceGet(sources, cm, secret, d)); var k := Key(ns, SERVICE);
      var was := if k in s.plane.mcp.services then s.plane.mcp.services[k] else NEW_SERVICE;
      var svc := MutateService(was);
      StepCtl(s, th, t) ==
        if t.fate != Ok then Close(s, c, Fail, None)
        else if k !in s.plane.mcp.services then World(s, Installing(c, ns, ServiceCreate(sources, cm, secret, d, svc)))
        else if svc == was
        then Close(s.(history := Note(s.history, ServiceHeld(k, svc))), SetReady(c, t.now), Wait(0),
                   Some(Evidence(c.seen, c.config, ns, sources, cm, secret, d, svc)))
        else World(s, Installing(c, ns, ServiceUpdate(sources, cm, secret, d, was, svc)))
  {
    hide MutateService, Close, SetReady;
  }

  /** A write of the Service: refused, carried out with the answer lost, or done. */
  lemma ServiceWritten(s: Stores, c: Ctx, ns: string, sources: seq<Secret>, cm: Data, secret: Data, d: Deployment,
      was: Service, svc: Service, t: Tick)
    ensures var k := Key(ns, SERVICE); var held := Note(s.history, ServiceHeld(k, svc));
      var done := Some(Evidence(c.seen, c.config, ns, sources, cm, secret, d, svc));
      && (var p := MakeService(s.plane, k, svc);
          StepCtl(s, Installing(c, ns, ServiceCreate(sources, cm, secret, d, svc)), t) ==
            if !(ns in s.plane.mcp.namespaces && k !in s.plane.mcp.services) || !Lands(t.fate)
            then Close(s, c, Fail, None)
            else if t.fate == Lost then Close(s.(plane := p), c, Fail, None)
            else Close(s.(plane := p, history := held), SetReady(c, t.now), Wait(0), done))
      && (var p := PutService(s.plane, k, svc);
          StepCtl(s, Installing(c, ns, ServiceUpdate(sources, cm, secret, d, was, svc)), t) ==
            if Lookup(s.plane.mcp.services, k) != Some(was) || !Lands(t.fate) then Close(s, c, Fail, None)
            else if t.fate == Lost then Close(s.(plane := p), c, Fail, None)
            else Close(s.(plane := p, history := held), SetReady(c, t.now), Wait(0), done))
  {
    hide MakeService, PutService, Close, SetReady;
  }

  class SPReconciler {
    var obj: Option<Obj>
    var nextUid: nat
    var plane: Plane
    var platform: map<string, Secret>
    var requests: Requests
    var providerConfig: Option<Config>
    var script: seq<Turn>
    var tick: Tick

    ghost var history: History
    ghost var start: World
    ghost var events: seq<Event>
    ghost var at: World

    /** A process just started on these clusters. */
    constructor (s: World, script: seq<Turn>)
      requires s.th == Idle
      ensures start == s && events == [] && Settled(Idle)
    {
      obj, nextUid, plane, platform := s.s.obj, s.s.nextUid, s.s.plane, s.s.platform;
      requests, providerConfig, history := s.s.requests, s.s.cache, s.s.history;
      this.script, tick := script, FAIR;
      start, events, at := s, [], s;
    }

    ghost function Now(): Stores
      reads this
    {
      Stores(obj, nextUid, plane, platform, requests, providerConfig, history)
    }

    /** Between two calls: the machine has run to this point. */
    ghost predicate Settled(th: Thread)
      reads this
    {
      Run(start, events) == World(Now(), th)
    }

    /** Inside a call: the machine stood at `at`, the call went as `tick` says, and the machine will stand at `w`. */
    ghost predicate Due(w: World)
      reads this
    {
      Run(start, events) == at && StepCtl(at.s, at.th, tick) == w
    }

    /** The last thing that happened is a call of ours. */
    ghost predicate JustCalled()
      reads this
    {
      events != [] && events[|events| - 1] == Ctl(tick)
    }

    /** The run only grows. */
    twostate predicate Grown()
      reads this
    {
      start == old(start) && old(events) <= events
    }

    // ---- the clock of the world

    method Play(e: Weather, ghost th: Thread)
      requires Settled(th)
      modifies this
      ensures Settled(th) && Grown() && script == old(script)
    {
      var s := StepEnv(Stores(obj, nextUid, plane, platform, requests, providerConfig, History(0, [], Never)), e);
      obj, nextUid, plane, platform, requests, providerConfig := s.obj, s.nextUid, s.plane, s.platform, s.requests,
          s.cache;
      RunAppend(start, events, [Env(e)]);
      ghost var w := Run(start, events);
      assert [Env(e)] == [Env(e)] + [];
      RunCons(w, Env(e), []);
      assert Step(w, Env(e)) == World(Now(), th);
      events := events + [Env(e)];
    }

    /** Lets the environment act and then makes the next call; what the call does to the stores is up to the caller. */
    method NextCall(ghost th: Thread) returns (t: Tick)
      requires Settled(th)
      modifies this
      ensures Grown() && Due(StepCtl(at.s, th, t)) && at == World(Now(), th) && tick == t
    {
      var before: seq<Weather>;
      if script == [] {
        before, t := [], FAIR;
      } else {
        before, t := script[0].before, script[0].tick;
        script := script[1..];
      }
      for i := 0 to |before|
        invariant Settled(th) && start == old(start) && old(events) <= events
      {
        Play(before[i], th);
      }
      at, tick := World(Now(), th), t;
    }

    /** The call is over: the machine takes its step. */
    ghost method Arrive(th: Thread)
      requires Due(World(Now(), th))
      modifies this`events
      ensures Settled(th) && Grown() && JustCalled()
    {
      RunAppend(start, events, [Ctl(tick)]);
      assert [Ctl(tick)] == [Ctl(tick)] + [];
      RunCons(at, Ctl(tick), []);
      events := events + [Ctl(tick)];
    }

    // ---- what the control plane does with a write

    method CreateNamespace(ns: string, fate: Fate) returns (failed: bool)
      modifies this`plane
      ensures failed <==> ns in old(plane).mcp.namespaces || fate != Ok
      ensures plane == if ns !in old(plane).mcp.namespaces && Lands(fate) then PutNamespace(old(plane), ns)
          else old(plane)
    {
      if ns in plane.mcp.namespaces || !Lands(fate) {
        return true;
      }
      plane := PutNamespace(plane, ns);
      failed := fate != Ok;
    }

    method CreateSecret(k: Key, v: Secret, fate: Fate) returns (failed: bool)
      modifies this`plane
      ensures var ok := k.ns in old(plane).mcp.namespaces && k !in old(plane).mcp.secrets;
        && (failed <==> !ok || fate != Ok)
        && plane == if ok && Lands(fate) then PutSecret(old(plane), k, v) else old(plane)
    {
      if k.ns !in plane.mcp.namespaces || k in plane.mcp.secrets || !Lands(fate) {
        return true;
      }
      plane := PutSecret(plane, k, v);
      failed := fate != Ok;
    }

    method UpdateSecret(k: Key, was: Secret, v: Secret, fate: Fate) returns (failed: bool)
      modifies this`plane
      ensures var ok := Lookup(old(plane).mcp.secrets, k) == Some(was);
        && (failed <==> !ok || fate != Ok)
        && plane == if ok && Lands(fate) then PutSecret(old(plane), k, v) else old(plane)
    {
      if k !in plane.mcp.secrets || plane.mcp.secrets[k] != was || !Lands(fate) {
        return true;
      }
      plane := PutSecret(plane, k, v);
      failed := fate != Ok;
    }

    method CreateDeployment(k: Key, d: Deployment, fate: Fate) returns (failed: bool)
      modifies this`plane
      ensures var ok := k.ns in old(plane).mcp.namespaces && k !in old(plane).mcp.deployments && Admissible(d);
        && (failed <==> !ok || fate != Ok)
        && plane == if ok && Lands(fate) then MakeDeployment(old(plane), k, d) else old(plane)
    {
      if k.ns !in plane.mcp.namespaces || k in plane.mcp.deployments || !Admissible(d) || !Lands(fate) {
        return true;
      }
      plane := MakeDeployment(plane, k, d);
      failed := fate != Ok;
    }

    method UpdateDeployment(k: Key, was: Deployment, d: Deployment, fate: Fate) returns (failed: bool)
      modifies this`plane
      ensures var ok := Lookup(old(plane).mcp.deployments, k) == Some(was) && Admissible(d);
        && (failed <==> !ok || fate != Ok)
        && plane == if ok && Lands(fate) then PutDeployment(old(plane), k, d) else old(plane)
    {
      if k !in plane.mcp.deployments || plane.mcp.deployments[k] != was || !Admissible(d) || !Lands(fate) {
        return true;
      }
      plane := PutDeployment(plane, k, d);
      failed := fate != Ok;
    }

    method CreateService(k: Key, svc: Service, fate: Fate) returns (failed: bool)
      modifies this`plane
      ensures var ok := k.ns in old(plane).mcp.namespaces && k !in old(plane).mcp.services;
        && (failed <==> !ok || fate != Ok)
        && plane == if ok && Lands(fate) then MakeService(old(plane), k, svc) else old(plane)
    {
      if k.ns !in plane.mcp.namespaces || k in plane.mcp.services || !Lands(fate) {
        return true;
      }
      plane := MakeService(plane, k, svc);
      failed := fate != Ok;
    }

    method UpdateService(k: Key, was: Service, svc: Service, fate: Fate) returns (failed: bool)
      modifies this`plane
      ensures var ok := Lookup(old(plane).mcp.services, k) == Some(was);
        && (failed <==> !ok || fate != Ok)
        && plane == if ok && Lands(fate) then PutService(old(plane), k, svc) else old(plane)
    {
      if k !in plane.mcp.services || plane.mcp.services[k] != was || !Lands(fate) {
        return true;
      }
      plane := PutService(plane, k, svc);
      failed := fate != Ok;
    }

    // ---- the domain's CreateOrUpdate

    /** The domain has given up: the machine closes the reconcile with an error. */
    ghost predicate Aborted(c: Ctx)
      reads this
    {
      Due(Close(Now(), c, Fail, None))
    }

    method ReconcileNamespace(c: Ctx, ns: string) returns (failed: bool)
      requires Settled(Installing(c, ns, NamespaceGet))
      modifies this
      ensures Grown() && if failed then Aborted(c) else Settled(Installing(c, ns, PullNext(c, [])))
    {
      var t := NextCall(Installing(c, ns, NamespaceGet));
      if t.fate != Ok {
        return true;
      }
      if ns in plane.mcp.namespaces {
        history := Note(history, NamespaceHeld(ns));
        Arrive(Installing(c, ns, PullNext(c, [])));
        return false;
      }
      Arrive(Installing(c, ns, NamespaceCreate));
      t := NextCall(Installing(c, ns, NamespaceCreate));
      failed := CreateNamespace(ns, t.fate);
      if !failed {
        history := Note(history, NamespaceHeld(ns));
        Arrive(Installing(c, ns, PullNext(c, [])));
      }
    }

    /** One round of the pull secret loop. */
    method SyncPullSecret(c: Ctx, ns: string, name: string, ghost sources: seq<Secret>) returns (failed: bool,
        ghost src: Secret)
      requires Settled(Installing(c, ns, PullSource(sources)))
      requires |sources| < |c.config.pullSecrets| && name == c.config.pullSecrets[|sources|]
      modifies this
      ensures Grown() && if failed then Aborted(c) else Settled(Installing(c, ns, PullNext(c, sources + [src])))
    {
      src := Secret("", map[], map[]);
      var t := NextCall(Installing(c, ns, PullSource(sources)));
      if t.fate != Ok || name !in platform {
        return true, src;
      }
      var from := platform[name];
      src := from;
      history := Note(history, SourceRead(name, from));
      Arrive(Installing(c, ns, PullGet(sources, from)));
      t := NextCall(Installing(c, ns, PullGet(sources, from)));
      if t.fate != Ok {
        return true, src;
      }
      failed := PutPullSecret(c, ns, Key(ns, name), sources, from);
    }

    /** Its second half: create the copy, or update the one there is. */
    method PutPullSecret(c: Ctx, ns: string, k: Key, ghost sources: seq<Secret>, from: Secret) returns (failed: bool)
      requires var to := if k in plane.mcp.secrets then PullUpdate(sources, from, plane.mcp.secrets[k])
          else PullCreate(sources, from);
        Due(World(Now(), Installing(c, ns, to)))
      requires |sources| < |c.config.pullSecrets| && k == PullKey(c, ns, sources)
      modifies this
      ensures Grown() && if failed then Aborted(c) else Settled(Installing(c, ns, PullNext(c, sources + [from])))
    {
      if k !in plane.mcp.secrets {
        Arrive(Installing(c, ns, PullCreate(sources, from)));
        failed := CreatePullSecret(c, ns, k, sources, from);
      } else {
        var was := plane.mcp.secrets[k];
        Arrive(Installing(c, ns, PullUpdate(sources, from, was)));
        failed := UpdatePullSecret(c, ns, k, sources, from, was);
      }
    }

    method CreatePullSecret(c: Ctx, ns: string, k: Key, ghost sources: seq<Secret>, from: Secret) returns (failed: bool)
      requires Settled(Installing(c, ns, PullCreate(sources, from)))
      requires |sources| < |c.config.pullSecrets| && k == PullKey(c, ns, sources)
      modifies this
      ensures Grown() && if failed then Aborted(c) else Settled(Installing(c, ns, PullNext(c, sources + [from])))
    {
      var t := NextCall(Installing(c, ns, PullCreate(sources, from)));
      var dst := Secret(DOCKER_CONFIG, map[MANAGED_BY := PROVIDER], from.data);
      failed := CreateSecret(k, dst, t.fate);
      if !failed {
        history := Note(history, PullHeld(k, from));
        Arrive(Installing(c, ns, PullNext(c, sources + [from])));
      }
    }

    method UpdatePullSecret(c: Ctx, ns: string, k: Key, ghost sources: seq<Secret>, from: Secret,
        was: Secret) returns (failed: bool)
      requires Settled(Installing(c, ns, PullUpdate(sources, from, was)))
      requires |sources| < |c.config.pullSecrets| && k == PullKey(c, ns, sources)
      modifies this
      ensures Grown() && if failed then Aborted(c) else Settled(Installing(c, ns, PullNext(c, sources + [from])))
    {
      var t := NextCall(Installing(c, ns, PullUpdate(sources, from, was)));
      var dst := was.(data := from.data);
      failed := UpdateSecret(k, was, dst, t.fate);
      if !failed {
        history := Note(history, PullHeld(k, from));
        Arrive(Installing(c, ns, PullNext(c, sources + [from])));
      }
    }

    method ReconcileImagePullSecrets(c: Ctx, ns: string) returns (failed: bool, ghost sources: seq<Secret>)
      requires Settled(Installing(c, ns, PullNext(c, [])))
      modifies this
      ensures Grown() && if failed then Aborted(c) else Settled(Installing(c, ns, ConfigMapGet(sources)))
    {
      sources := [];
      var names := c.config.pullSecrets;
      for i := 0 to |names|
        invariant |sources| == i && Settled(Installing(c, ns, PullNext(c, sources)))
        invariant start == old(start) && old(events) <= events
      {
        ghost var src: Secret;
        failed, src := SyncPullSecret(c, ns, names[i], sources);
        if failed {
          return;
        }
        sources := sources + [src];
      }
      failed := false;
    }

    /** Ready, with the digest of what was found; or the message to wait with. */
    method CheckPrerequisites(c: Ctx, ns: string, ghost sources: seq<Secret>)
      returns (failed: bool, result: PrerequisiteResult, ghost cm: Data, ghost secret: Data)
      requires Settled(Installing(c, ns, ConfigMapGet(sources)))
      modifies this
      ensures Grown() && (failed ==> Aborted(c))
      ensures !failed && !result.ready ==>
        Due(Close(Now(), SetProgressing(c, "WaitingForPrerequisites", result.message, tick.now), Wait(WAITING), None))
      ensures !failed && result.ready ==>
        Settled(Installing(c, ns, DeploymentGet(sources, cm, secret)))
          && result.configHash == Digest.ConfigHash(cm, secret)
    {
      cm, secret, result := map[], map[], PrerequisiteResult(false, "", "");
      var cmExists, cmData := true, map[];
      var t := NextCall(Installing(c, ns, ConfigMapGet(sources)));
      if t.fate != Ok {
        failed := true;
        return;
      }
      if Key(ns, CONFIG_MAP) in plane.mcp.configMaps {
        cmData := plane.mcp.configMaps[Key(ns, CONFIG_MAP)];
        history := Note(history, ConfigMapRead(Key(ns, CONFIG_MAP), cmData));
      } else {
        cmExists := false;
      }
      ghost var found := if cmExists then Some(cmData) else None;
      Arrive(Installing(c, ns, SecretGet(sources, found)));
      failed, result, secret := CheckSecret(c, ns, sources, cmExists, cmData);
      cm := cmData;
    }

    method CheckSecret(c: Ctx, ns: string, ghost sources: seq<Secret>, cmExists: bool, cmData: Data)
      returns (failed: bool, result: PrerequisiteResult, ghost secret: Data)
      requires Settled(Installing(c, ns, SecretGet(sources, if cmExists then Some(cmData) else None)))
      modifies this
      ensures Grown() && (failed ==> Aborted(c))
      ensures !failed && !result.ready ==>
        Due(Close(Now(), SetProgressing(c, "WaitingForPrerequisites", result.message, tick.now), Wait(WAITING), None))
      ensures !failed && result.ready ==>
        Settled(Installing(c, ns, DeploymentGet(sources, cmData, secret)))
          && result.configHash == Digest.ConfigHash(cmData, secret)
    {
      hide StepCtl, Close, SetProgressing;
      secret, result, failed := map[], PrerequisiteResult(false, "", ""), false;
      var secretExists, secretData := true, map[];
      var t := NextCall(Installing(c, ns, SecretGet(sources, if cmExists then Some(cmData) else None)));
      SecretGot(Now(), c, ns, sources, if cmExists then Some(cmData) else None, t);
      if t.fate != Ok {
        failed := true;
        return;
      }
      if Key(ns, SECRET) in plane.mcp.secrets {
        secretData := plane.mcp.secrets[Key(ns, SECRET)].data;
      } else {
        secretExists := false;
      }
      if !cmExists && !secretExists {
        var both :=
          "Waiting for ConfigMap \"otel-collector-conf\" and Secret \"otel-collector-secret\" in namespace \"";
        result := PrerequisiteResult(false, both + ns + "\"", "");
        return;
      }
      if !cmExists {
        var message := "Waiting for ConfigMap \"otel-collector-conf\" in namespace \"" + ns + "\"";
        result := PrerequisiteResult(false, message, "");
        return;
      }
      if !secretExists {
        var message := "Waiting for Secret \"otel-collector-secret\" in namespace \"" + ns + "\"";
        result := PrerequisiteResult(false, message, "");
        return;
      }
      history := Note(history, SecretRead(Key(ns, SECRET), secretData));
      Arrive(Installing(c, ns, DeploymentGet(sources, cmData, secretData)));
      var configHash := Digest.ComputeConfigHash(cmData, secretData);
      result := PrerequisiteResult(true, "", configHash);
      secret := secretData;
    }

    method ReconcileDeployment(c: Ctx, ns: string, o: DeploymentOpts, ghost sources: seq<Secret>, ghost cm: Data,
        ghost secret: Data)
      returns (failed: bool, ghost d: Deployment)
      requires Settled(Installing(c, ns, DeploymentGet(sources, cm, secret))) && o == HashOpts(c, cm, secret)
      modifies this
      ensures Grown() && if failed then Aborted(c) else Settled(Installing(c, ns, ServiceGet(sources, cm, secret, d)))
    {
      hide Meets, MutateDeployment, HashOpts, Admissible, StepCtl, Close;
      var k := Key(ns, DEPLOYMENT);
      d := NEW_DEPLOYMENT;
      var t := NextCall(Installing(c, ns, DeploymentGet(sources, cm, secret)));
      DeploymentGot(Now(), c, ns, sources, cm, secret, o, t);
      if t.fate != Ok {
        failed := true;
        return;
      }
      if k !in plane.mcp.deployments {
        var deployment := Mutation.MutatedDeployment(NEW_DEPLOYMENT, o);
        d := deployment;
        Arrive(Installing(c, ns, DeploymentCreate(sources, cm, secret, d)));
        failed := CreateNewDeployment(c, ns, deployment, sources, cm, secret);
        return;
      }
      var was := plane.mcp.deployments[k];
      var deployment := Mutation.MutatedDeployment(was, o);
      d := deployment;
      if deployment == was {
        history := Note(history, DeploymentHeld(k, d));
        Arrive(Installing(c, ns, ServiceGet(sources, cm, secret, d)));
        failed := false;
      } else {
        Arrive(Installing(c, ns, DeploymentUpdate(sources, cm, secret, was, d)));
        failed := UpdateOldDeployment(c, ns, was, deployment, sources, cm, secret);
      }
    }

    method CreateNewDeployment(c: Ctx, ns: string, d: Deployment, ghost sources: seq<Secret>, ghost cm: Data,
        ghost secret: Data)
      returns (failed: bool)
      requires Settled(Installing(c, ns, DeploymentCreate(sources, cm, secret, d)))
      modifies this
      ensures Grown() && if failed then Aborted(c) else Settled(Installing(c, ns, ServiceGet(sources, cm, secret, d)))
    {
      var t := NextCall(Installing(c, ns, DeploymentCreate(sources, cm, secret, d)));
      failed := CreateDeployment(Key(ns, DEPLOYMENT), d, t.fate);
      if !failed {
        history := Note(history, DeploymentHeld(Key(ns, DEPLOYMENT), d));
        Arrive(Installing(c, ns, ServiceGet(sources, cm, secret, d)));
      }
    }

    method UpdateOldDeployment(c: Ctx, ns: string, was: Deployment, d: Deployment, ghost sources: seq<Secret>,
        ghost cm: Data, ghost secret: Data)
      returns (failed: bool)
      requires Settled(Installing(c, ns, DeploymentUpdate(sources, cm, secret, was, d)))
      modifies this
      ensures Grown() && if failed then Aborted(c) else Settled(Installing(c, ns, ServiceGet(sources, cm, secret, d)))
    {
      var t := NextCall(Installing(c, ns, DeploymentUpdate(sources, cm, secret, was, d)));
      failed := UpdateDeployment(Key(ns, DEPLOYMENT), was, d, t.fate);
      if !failed {
        history := Note(history, DeploymentHeld(Key(ns, DEPLOYMENT), d));
        Arrive(Installing(c, ns, ServiceGet(sources, cm, secret, d)));
      }
    }

    /** The install is complete: the machine closes the reconcile as Ready. */
    ghost predicate Complete(c: Ctx, evidence: Evidence)
      reads this
    {
      Due(Close(Now(), SetReady(c, tick.now), Wait(0), Some(evidence)))
    }

    method ReconcileService(c: Ctx, ns: string, ghost sources: seq<Secret>, ghost cm: Data, ghost secret: Data,
        ghost d: Deployment)
      returns (failed: bool, ghost evidence: Evidence)
      requires Settled(Installing(c, ns, ServiceGet(sources, cm, secret, d)))
      modifies this
      ensures Grown() && if failed then Aborted(c) else Complete(c, evidence)
    {
      hide ServiceMeets, MutateService, SetReady, StepCtl, Close;
      var k := Key(ns, SERVICE);
      evidence := Evidence(c.seen, c.config, ns, sources, cm, secret, d, NEW_SERVICE);
      var t := NextCall(Installing(c, ns, ServiceGet(sources, cm, secret, d)));
      ServiceGot(Now(), c, ns, sources, cm, secret, d, t);
      if t.fate != Ok {
        failed := true;
        return;
      }
      if k !in plane.mcp.services {
        var svc := Mutation.MutatedService(NEW_SERVICE);
        evidence := evidence.(service := svc);
        Arrive(Installing(c, ns, ServiceCreate(sources, cm, secret, d, svc)));
        failed := CreateNewService(c, ns, svc, sources, cm, secret, d);
        return;
      }
      var was := plane.mcp.services[k];
      var svc := Mutation.MutatedService(was);
      evidence := evidence.(service := svc);
      if svc == was {
        history := Note(history, ServiceHeld(k, svc));
        failed := false;
      } else {
        Arrive(Installing(c, ns, ServiceUpdate(sources, cm, secret, d, was, svc)));
        failed := UpdateOldService(c, ns, was, svc, sources, cm, secret, d);
      }
    }

    method CreateNewService(c: Ctx, ns: string, svc: Service, ghost sources: seq<Secret>, ghost cm: Data,
        ghost secret: Data, ghost d: Deployment)
      returns (failed: bool)
      requires Settled(Installing(c, ns, ServiceCreate(sources, cm, secret, d, svc)))
      modifies this
      ensures Grown() && if failed then Aborted(c)
          else Complete(c, Evidence(c.seen, c.config, ns, sources, cm, secret, d, svc))
    {
      hide StepCtl, Close, SetReady, MakeService, PutService;
      var t := NextCall(Installing(c, ns, ServiceCreate(sources, cm, secret, d, svc)));
      ServiceWritten(Now(), c, ns, sources, cm, secret, d, svc, svc, t);
      failed := CreateService(Key(ns, SERVICE), svc, t.fate);
      if !failed {
        history := Note(history, ServiceHeld(Key(ns, SERVICE), svc));
      }
    }

    method UpdateOldService(c: Ctx, ns: string, was: Service, svc: Service, ghost sources: seq<Secret>,
        ghost cm: Data, ghost secret: Data, ghost d: Deployment)
      returns (failed: bool)
      requires Settled(Installing(c, ns, ServiceUpdate(sources, cm, secret, d, was, svc)))
      modifies this
      ensures Grown() && if failed then Aborted(c)
          else Complete(c, Evidence(c.seen, c.config, ns, sources, cm, secret, d, svc))
    {
      hide StepCtl, Close, SetReady, MakeService, PutService;
      var t := NextCall(Installing(c, ns, ServiceUpdate(sources, cm, secret, d, was, svc)));
      ServiceWritten(Now(), c, ns, sources, cm, secret, d, was, svc, t);
      failed := UpdateService(Key(ns, SERVICE), was, svc, t.fate);
      if !failed {
        history := Note(history, ServiceHeld(Key(ns, SERVICE), svc));
      }
    }

    /** The domain's CreateOrUpdate, stage by stage. */
    method CreateOrUpdate(c0: Ctx) returns (c: Ctx, res: Result, ghost evidence: Option<Evidence>)
      requires Due(AccessToInstall(Now(), c0, AccessReady, tick.now))
      modifies this
      ensures Grown() && c.config == c0.config && Due(Close(Now(), c, res, evidence))
    {
      c, res, evidence := SetProgressing(c0, "Reconciling", "Reconcile in progress", tick.now), Fail, None;
      var ns := ResolveNamespace(c.obj.spec, c.config);
      Arrive(Installing(c, ns, NamespaceGet));
      var failed := ReconcileNamespace(c, ns);
      if failed {
        return;
      }
      ghost var sources: seq<Secret> := [];
      if |c.config.pullSecrets| > 0 {
        failed, sources := ReconcileImagePullSecrets(c, ns);
        if failed {
          return;
        }
      }
      c, res, evidence := Install(c, ns, sources);
    }

    /** From the prerequisites on. */
    method Install(c0: Ctx, ns: string, ghost sources: seq<Secret>) returns (c: Ctx, res: Result,
        ghost evidence: Option<Evidence>)
      requires Settled(Installing(c0, ns, ConfigMapGet(sources)))
      modifies this
      ensures Grown() && c.config == c0.config && Due(Close(Now(), c, res, evidence))
    {
      c, res, evidence := c0, Fail, None;
      ghost var cm: Data;
      ghost var secret: Data;
      ghost var d: Deployment;
      ghost var settled: Evidence;
      var failed, prereq;
      failed, prereq, cm, secret := CheckPrerequisites(c, ns, sources);
      if failed {
        return;
      }
      if !prereq.ready {
        c, res := SetProgressing(c, "WaitingForPrerequisites", prereq.message, tick.now), Wait(WAITING);
        return;
      }
      var image := ResolveImage(c.obj.spec, c.config);
      var version := ResolveVersion(c.obj.spec, c.config);
      var resources := ResolveResources(c.obj.spec, c.config);
      var o := DeploymentOpts(image, version, resources, c.config.pullSecrets, prereq.configHash);
      failed, d := ReconcileDeployment(c, ns, o, sources, cm, secret);
      if failed {
        return;
      }
      failed, settled := ReconcileService(c, ns, sources, cm, secret, d);
      if failed {
        return;
      }
      c, res, evidence := SetReady(c, tick.now), Wait(0), Some(settled);
    }

    // ---- SPReconciler: cluster access, createOrUpdate, delete

    /** clusters(): what it returns, and where the machine goes from there. */
    method Clusters(c: Ctx, deleting: bool) returns (go: AccessGo)
      requires Settled(Accessing(c, deleting, Renew))
      modifies this
      ensures Grown() && !go.AccessNext?
      ensures Due(if deleting then AccessToCleanup(Now(), c, go, tick.now) else AccessToInstall(Now(), c, go, tick.now))
    {
      var t := NextCall(Accessing(c, deleting, Renew));
      if !RenewReply(requests, t.reply) {
        return AccessFailed;
      }
      requests := Answered(requests, t.reply);
      if t.reply.verdict.Failed? {
        return AccessFailed;
      }
      if t.reply.verdict.delay > 0 {
        return AccessPending(t.reply.verdict.delay);
      }
      Arrive(Accessing(c, deleting, McpCluster));
      go := McpAccess(c, deleting);
    }

    method McpAccess(c: Ctx, deleting: bool) returns (go: AccessGo)
      requires Settled(Accessing(c, deleting, McpCluster))
      modifies this
      ensures Grown() && !go.AccessNext?
      ensures Due(if deleting then AccessToCleanup(Now(), c, go, tick.now) else AccessToInstall(Now(), c, go, tick.now))
    {
      var t := NextCall(Accessing(c, deleting, McpCluster));
      if t.fate != Ok || requests.mcp != Granted {
        return AccessFailed;
      }
      Arrive(Accessing(c, deleting, McpRequest));
      t := NextCall(Accessing(c, deleting, McpRequest));
      if t.fate != Ok || requests.mcp == Absent {
        return AccessFailed;
      }
      if !requests.withWorkload {
        return AccessReady;
      }
      Arrive(Accessing(c, deleting, WorkloadCluster));
      go := WorkloadAccess(c, deleting);
    }

    method WorkloadAccess(c: Ctx, deleting: bool) returns (go: AccessGo)
      requires Settled(Accessing(c, deleting, WorkloadCluster))
      modifies this
      ensures Grown() && !go.AccessNext?
      ensures Due(if deleting then AccessToCleanup(Now(), c, go, tick.now) else AccessToInstall(Now(), c, go, tick.now))
    {
      var t := NextCall(Accessing(c, deleting, WorkloadCluster));
      if t.fate != Ok || requests.workload != Granted {
        return AccessFailed;
      }
      Arrive(Accessing(c, deleting, WorkloadRequest));
      t := NextCall(Accessing(c, deleting, WorkloadRequest));
      if t.fate != Ok || requests.workload == Absent {
        return AccessFailed;
      }
      return AccessReady;
    }

    /** controllerutil.CreateOrUpdate with the finalizer as its mutation. */
    method EnsureFinalizer(c0: Ctx) returns (failed: bool, c: Ctx)
      requires Settled(Reread(c0))
      modifies this
      ensures Grown() && c.config == c0.config
      ensures if failed then Aborted(c) else Settled(Accessing(c, false, Renew))
    {
      c, failed := c0, true;
      var t := NextCall(Reread(c0));
      if t.fate != Ok {
        return;
      }
      if obj.None? {
        // Create is refused: the object carries the resourceVersion it was read with
        Arrive(Recreate(c0));
        t := NextCall(Recreate(c0));
        return;
      }
      var o := obj.value;
      history := Note(history, ObjectRead(o));
      if FINALIZER in o.finalizers {
        c, failed := c0.(seen := o, obj := o), false;
        Arrive(Accessing(c, false, Renew));
        return;
      }
      c := c0.(seen := o, obj := o.(finalizers := o.finalizers + {FINALIZER}));
      Arrive(AddFinalizer(c));
      failed, c := UpdateFinalizer(c);
    }

    method UpdateFinalizer(c0: Ctx) returns (failed: bool, c: Ctx)
      requires Settled(AddFinalizer(c0))
      modifies this
      ensures Grown() && c.config == c0.config
      ensures if failed then Aborted(c) else Settled(Accessing(c, false, Renew))
    {
      c, failed := c0, true;
      var t := NextCall(AddFinalizer(c0));
      if obj != Some(c0.seen) || c0.seen.deleting || !Lands(t.fate) {
        return;
      }
      var o := c0.seen.(finalizers := c0.obj.finalizers);
      obj := Some(o);
      if t.fate != Ok {
        return;
      }
      history := Note(history, ObjectRead(o));
      c, failed := c0.(seen := o, obj := o), false;
      Arrive(Accessing(c, false, Renew));
    }

    method CreateOrUpdateObject(c0: Ctx) returns (c: Ctx, res: Result, ghost evidence: Option<Evidence>)
      requires Settled(Reread(c0))
      modifies this
      ensures Grown() && c.config == c0.config && Due(Close(Now(), c, res, evidence))
    {
      evidence := None;
      var failed;
      failed, c := EnsureFinalizer(c0);
      if failed {
        res := Fail;
        return;
      }
      var go := Clusters(c, false);
      match go {
        case AccessFailed =>
          c, res := SetProgressing(c, "ClusterAccessError", "Failed to setup cluster access", tick.now), Fail;
        case AccessPending(delay) =>
          c, res := SetProgressing(c, "Reconciling", "Setting up cluster access", tick.now), Wait(delay);
        case AccessReady =>
          c, res, evidence := CreateOrUpdate(c);
      }
    }

    /** The server's side of a status patch. */
    method PatchStored(c: Ctx, ghost evidence: Option<Evidence>, fate: Fate)
      modifies this`obj, this`history
      ensures Now() == PatchStatus(old(Now()), c, evidence, fate)
    {
      if PatchLands(obj, c, fate) {
        var o := MergedInto(obj.value, c);
        obj := Some(o);
        history := Note(history, StatusPut(o.uid, o.status, evidence));
      }
    }

    /** updateStatus after createOrUpdate, then the return of Reconcile. */
    method CloseReconcile(c: Ctx, res: Result, ghost evidence: Option<Evidence>) returns (last: Last)
      requires Due(Close(Now(), c, res, evidence))
      modifies this
      ensures Grown() && Settled(Idle) && JustCalled() && last == history.last
    {
      if c.obj.status != c.base.status {
        Arrive(Closing(c, res, evidence));
        var t := NextCall(Closing(c, res, evidence));
        PatchStored(c, evidence, t.fate);
      }
      last := Return(c.config, res);
    }

    /** An error, else the requested delay, else the poll interval. */
    method Return(config: Config, res: Result) returns (last: Last)
      requires Due(Finish(Now(), config, res))
      modifies this
      ensures Grown() && Settled(Idle) && JustCalled() && last == history.last
    {
      last := match res
        case Fail => Errored
        case Wait(d) => if d > 0 then Requeue(d) else Requeue(PollInterval(config));
      history := history.(last := last);
      Arrive(Idle);
    }

    // ---- delete

    /** areAccessRequestsInDeletion: an error, or whether the cleanup is to be skipped. */
    method AccessRequestsInDeletion(c: Ctx) returns (failed: bool, inDeletion: bool)
      requires Settled(CheckMcpRequest(c))
      modifies this
      ensures Grown()
      ensures if failed then Due(Finish(Now(), c.config, Fail))
              else Settled(if inDeletion then Releasing(c) else Accessing(c, true, Renew))
    {
      failed, inDeletion := false, false;
      var t := NextCall(CheckMcpRequest(c));
      if t.fate != Ok {
        failed := true;
        return;
      }
      if InDeletion(requests.mcp) {
        inDeletion := true;
        Arrive(Releasing(c));
        return;
      }
      if requests.withWorkload {
        Arrive(CheckWorkloadRequest(c));
        t := NextCall(CheckWorkloadRequest(c));
        if t.fate != Ok {
          failed := true;
          return;
        }
        if InDeletion(requests.workload) {
          inDeletion := true;
          Arrive(Releasing(c));
          return;
        }
      }
      Arrive(Accessing(c, true, Renew));
    }

    method DeleteManagedResources(c: Ctx, ns: string) returns (failed: bool)
      requires Settled(Cleaning(c, ns, CleanDeploymentGet))
      modifies this
      ensures Grown() && Due(Cleaned(Now(), c, failed))
    {
      failed := DeleteDeployment(c, ns);
      if !failed {
        failed := DeleteService(c, ns);
      }
    }

    method DeleteDeployment(c: Ctx, ns: string) returns (failed: bool)
      requires Settled(Cleaning(c, ns, CleanDeploymentGet))
      modifies this
      ensures Grown() && if failed then Due(Cleaned(Now(), c, true)) else Settled(Cleaning(c, ns, CleanServiceGet))
    {
      var t := NextCall(Cleaning(c, ns, CleanDeploymentGet));
      if t.fate != Ok {
        return true;
      }
      if Key(ns, DEPLOYMENT) in plane.mcp.deployments {
        Arrive(Cleaning(c, ns, CleanDeployment));
        t := NextCall(Cleaning(c, ns, CleanDeployment));
        if Lands(t.fate) {
          plane := RemoveDeployment(plane, Key(ns, DEPLOYMENT));
        }
        if t.fate != Ok {
          return true;
        }
      }
      Arrive(Cleaning(c, ns, CleanServiceGet));
      failed := false;
    }

    method DeleteService(c: Ctx, ns: string) returns (failed: bool)
      requires Settled(Cleaning(c, ns, CleanServiceGet))
      modifies this
      ensures Grown() && Due(Cleaned(Now(), c, failed))
    {
      var t := NextCall(Cleaning(c, ns, CleanServiceGet));
      if t.fate != Ok {
        return true;
      }
      if Key(ns, SERVICE) in plane.mcp.services {
        Arrive(Cleaning(c, ns, CleanService));
        t := NextCall(Cleaning(c, ns, CleanService));
        if Lands(t.fate) {
          plane := RemoveService(plane, Key(ns, SERVICE));
        }
        if t.fate != Ok {
          return true;
        }
      }
      failed := false;
    }

    /** The domain's Delete and the status patch after it. */
    method DomainDelete(c0: Ctx) returns (failed: bool, c: Ctx)
      requires Due(AccessToCleanup(Now(), c0, AccessReady, tick.now))
      modifies this
      ensures Grown() && c.config == c0.config
      ensures if failed then Due(Finish(Now(), c.config, Fail)) else Settled(Releasing(c))
    {
      c := SetTerminating(c0, tick.now);
      var ns := ResolveNamespace(c.obj.spec, c.config);
      Arrive(Cleaning(c, ns, CleanDeploymentGet));
      failed := DeleteManagedResources(c, ns);
      if c.obj.status != c.base.status {
        Arrive(CleanedPatch(c, failed));
        c := PatchCleaned(c, failed);
      } else if !failed {
        Arrive(Releasing(c));
      }
    }

    /** A patch that succeeds refreshes the live object. */
    method PatchCleaned(c0: Ctx, failed: bool) returns (c: Ctx)
      requires Settled(CleanedPatch(c0, failed))
      modifies this
      ensures Grown() && c.config == c0.config
      ensures if failed then Due(Finish(Now(), c.config, Fail)) else Settled(Releasing(c))
    {
      c := c0;
      var t := NextCall(CleanedPatch(c0, failed));
      var stored := obj;
      PatchStored(c0, None, t.fate);
      if !failed {
        if PatchLands(stored, c0, t.fate) && t.fate == Ok {
          var o := MergedInto(stored.value, c0);
          c := c0.(seen := o, obj := o);
        }
        Arrive(Releasing(c));
      }
    }

    /** ReconcileDelete of the access provider, then the update that drops the finalizer. */
    method Release(c: Ctx) returns (res: Result)
      requires Settled(Releasing(c))
      modifies this
      ensures Grown() && Due(Finish(Now(), c.config, res))
    {
      var t := NextCall(Releasing(c));
      if !ReleaseReply(requests, t.reply) {
        return Fail;
      }
      requests := Answered(requests, t.reply);
      if t.reply.verdict.Failed? {
        return Fail;
      }
      if t.reply.verdict.delay > 0 {
        return Wait(t.reply.verdict.delay);
      }
      Arrive(DropFinalizer(c));
      res := RemoveFinalizer(c);
    }

    method RemoveFinalizer(c: Ctx) returns (res: Result)
      requires Settled(DropFinalizer(c))
      modifies this
      ensures Grown() && Due(Finish(Now(), c.config, res))
    {
      var t := NextCall(DropFinalizer(c));
      if obj != Some(c.seen) || !Lands(t.fate) {
        return Fail;
      }
      obj := WithFinalizers(c.seen, c.obj.finalizers - {FINALIZER});
      res := if t.fate == Ok then Wait(0) else Fail;
    }

    method Delete(c0: Ctx) returns (res: Result)
      requires Settled(CheckMcpRequest(c0))
      modifies this
      ensures Grown() && Due(Finish(Now(), c0.config, res))
    {
      var c := c0;
      var failed, inDeletion := AccessRequestsInDeletion(c);
      if failed {
        return Fail;
      }
      if !inDeletion {
        var go := Clusters(c, true);
        if go.AccessFailed? {
          return Fail;
        }
        if go.AccessPending? {
          return Wait(go.delay);
        }
        failed, c := DomainDelete(c);
        if failed {
          return Fail;
        }
      }
      res := Release(c);
    }

    // ---- Reconcile

    /** One reconcile. It is a run of the machine from Idle to Idle, and returns what the machine records as its end. */
    method Reconcile() returns (last: Last)
      requires Settled(Idle)
      modifies this
      ensures Grown() && Settled(Idle) && JustCalled() && last == history.last
    {
      var t := NextCall(Idle);
      history := StartRound(history);
      if t.fate != Ok {
        last := Return(NO_CONFIG, Fail);
        return;
      }
      if obj.None? {
        history := history.(last := Gone);
        Arrive(Idle);
        return Gone;
      }
      var o := obj.value;
      if providerConfig.None? {
        last := ReportMissingConfig(o);
        return;
      }
      var config := providerConfig.value;
      var c := Ctx(o, o, o, config);
      history := Note(history, Began(config));
      if o.deleting {
        Arrive(CheckMcpRequest(c));
        var res := Delete(c);
        last := Return(config, res);
      } else {
        Arrive(Reread(c));
        var res;
        ghost var evidence: Option<Evidence>;
        c, res, evidence := CreateOrUpdateObject(c);
        last := CloseReconcile(c, res, evidence);
      }
    }

    method ReportMissingConfig(o: Obj) returns (last: Last)
      requires Due(BeginWithoutConfig(Now(), o, tick.now))
      modifies this
      ensures Grown() && Settled(Idle) && JustCalled() && last == history.last
    {
      var o' := o.(status := Progressing(o.status, o.generation, "ReconcileError", "No ProviderConfig found",
          tick.now));
      if o'.status != o.status {
        Arrive(NoConfigPatch(o, o'));
        var t := NextCall(NoConfigPatch(o, o'));
        PatchStored(Ctx(o, o, o', NO_CONFIG), None, t.fate);
      }
      last := Return(NO_CONFIG, Fail);
    }

    /** Reconcile after reconcile, whatever happens in between. */
    method Serve(rounds: nat)
      requires Settled(Idle)
      modifies this
      ensures Grown() && Settled(Idle)
    {
      for i := 0 to rounds
        invariant Settled(Idle) && start == old(start) && old(events) <= events
      {
        var last := Reconcile();
      }
    }
  }

  /** What a reconcile of the code returns, and when: the error, the missing object and the requeue, by what its calls
      met. */
  lemma Returns(r: SPReconciler)
    requires r.Settled(Idle) && Initial(r.start) && r.JustCalled()
    ensures var n := |r.events| - 1; var b := Run(r.start, r.events[..n]);
      var p := Endings.Track(b, Ctl(r.tick), Endings.TrackRun(r.start, r.events[..n], Endings.NOTHING));
      var last := r.history.last;
      && (last == Errored <==> p.failed)
      && (last == Gone <==> b.th.Idle? && b.s.obj.None? && r.tick.fate == Ok)
      && (last.Requeue? <==> !p.failed && last != Gone)
      && (last.Requeue? ==>
            && p.config.Some?
            && last.after == (if p.delay.Some? then p.delay.value
                              else if p.config.value.pollInterval.Some? then p.config.value.pollInterval.value
                              else 60))
  {
    var n := |r.events| - 1;
    assert r.events == r.events[..n] + [Ctl(r.tick)];
    RunAppend(r.start, r.events[..n], [Ctl(r.tick)]);
    assert [Ctl(r.tick)] == [Ctl(r.tick)] + [];
    RunCons(Run(r.start, r.events[..n]), Ctl(r.tick), []);
    Scenario.RunEmpty(Step(Run(r.start, r.events[..n]), Ctl(r.tick)));
    Endings.ReturnsExactly(r.start, r.events[..n], r.tick);
    hide Run, Step, Endings.Track, Endings.TrackRun;
  }

  /** So the code inherits what holds of the machine's runs: at every return, and at every call in between. */
  lemma Inherited(r: SPReconciler, th: Thread, ns: string)
    requires r.Settled(th) && Initial(r.start)
    ensures r.obj.Some? ==> CoherentOrNone(r.obj.value.status)
    ensures r.obj.Some? && r.obj.value.status.phase == PHASE_READY ==>
      exists j :: 0 <= j < |r.history.log| && r.history.log[j].act.StatusPut?
        && r.history.log[j].act.status == r.obj.value.status
        && ReadyRuns.Earned(r.history.log[..j], r.history.log[j])
    ensures r.obj.Some? && r.obj.value.status.phase == "Ready" ==>
      exists n: nat, ev: Evidence ::
        && ReadyMeans.StandsOn(r.history.log, n, ev)
        && ev.read.generation == r.obj.value.status.observedGeneration
    ensures ReadyHome.AllAtHome(r.history.log) <==> ReadyHome.NeverStrays(r.start, r.events)
    ensures ReadyHome.AlwaysLeavesFinalizer(r.start, r.events) ==> ReadyHome.AllAtHome(r.history.log)
    ensures AllTame(r.events) ==> (Guard.AccessAlive(r.requests) ==> Guard.Guarded(r.Now()))
    ensures AllTame(r.events) && NoOrphans.RunWorksIn(r.start, r.events, ns) ==> NoOrphans.NoOrphan(r.Now())
    ensures FrameRuns.Agree(r.plane.mcp, FrameRuns.UsersOnly(r.start.s.plane, r.events).mcp,
                            Targets.Targets(r.events), FrameRuns.Listed(r.events))
  {
    StatusRuns.StatusCoherent(r.start, r.events);
    ReadyRuns.ReadyIsEarned(r.start, r.events);
    ReadyMeans.ReadyStandsOn(r.start, r.events);
    Targets.WritesStayInside(r.start, r.events);
    ReadyHome.ReadyAtHome(r.start, r.events);
    if ReadyHome.AlwaysLeavesFinalizer(r.start, r.events) {
      ReadyHome.ReadyOfThisIncarnation(r.start, r.events);
    }
    if AllTame(r.events) {
      Guard.NoAccessWithoutObject(r.start, r.events);
      if NoOrphans.RunWorksIn(r.start, r.events, ns) {
        NoOrphans.NothingOrphaned(r.start, r.events, ns);
      }
    }
    hide Run, ReadyMeans.StandsOn, CoherentOrNone, ReadyRuns.Earned, ReadyRuns.AllEarned, NoOrphans.RunWorksIn,
      FrameRuns.Agree, ReadyHome.AllAtHome, ReadyHome.NeverStrays, ReadyHome.AlwaysLeavesFinalizer;
  }
}
