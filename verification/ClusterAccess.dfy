/** No domain code runs without cluster access: every reconcile that installs or cleans up has asked for it first
    and got it, call by call. */
module ClusterAccess {
  import opened Kube
  import opened Api
  import opened Machine
  import Endings

  /** The calls a reconcile has to make, and succeed with, before it may install or clean up. */
  function Required(withWorkload: bool): set<AccessPoint> {
    {Renew, McpCluster, McpRequest} + (if withWorkload then {WorkloadCluster, WorkloadRequest} else {})
  }

  /** Those it has made so far, in this round. */
  function Sought(w: World, e: Event, sought: set<AccessPoint>): set<AccessPoint> {
    if e.Env? then sought
    else if w.th.Idle? then {}
    else if w.th.Accessing? && !Endings.NoAccess(w.s.requests, w.th.at, e.t) && Endings.Asks(w.s, w.th, e.t) == None
    then sought + {w.th.at}
    else sought
  }

  ghost function SoughtIn(w: World, es: seq<Event>, sought: set<AccessPoint>): set<AccessPoint>
    decreases |es|
  {
    if es == [] then sought else SoughtIn(Step(w, es[0]), es[1..], Sought(w, es[0], sought))
  }

  /** What comes before this call. */
  function Before(at: AccessPoint): set<AccessPoint> {
    match at
    case Renew => {}
    case McpCluster => {Renew}
    case McpRequest => {Renew, McpCluster}
    case WorkloadCluster => {Renew, McpCluster, McpRequest}
    case WorkloadRequest => {Renew, McpCluster, McpRequest, WorkloadCluster}
  }

  predicate Inv(w: World, sought: set<AccessPoint>) {
    && (w.th.Accessing? ==> Before(w.th.at) <= sought)
    && (w.th.Installing? || w.th.Cleaning? ==> Required(w.s.requests.withWorkload) <= sought)
  }

  lemma EventKeeps(w: World, e: EnvEvent, sought: set<AccessPoint>)
    requires Inv(w, sought)
    ensures Inv(Step(w, Env(e)), sought)
  {
    hide ObjectEvent, PlaneEvent;
  }

  lemma AccessKeeps(s: Stores, c: Ctx, deleting: bool, at: AccessPoint, t: Tick, sought: set<AccessPoint>)
    requires Inv(World(s, Accessing(c, deleting, at)), sought)
    ensures var w := World(s, Accessing(c, deleting, at));
      Inv(StepAccessing(s, c, deleting, at, t), Sought(w, Ctl(t), sought))
  {
    hide ResolveNamespace, LastOf, MayRenew, SetProgressing, SetTerminating;
  }

  lemma InstallKeeps(s: Stores, c: Ctx, ns: string, d: DomainPoint, t: Tick, sought: set<AccessPoint>)
    requires Inv(World(s, Installing(c, ns, d)), sought)
    ensures Inv(StepInstalling(s, c, ns, d, t), sought)
  {
    hide DomainCall, LastOf;
  }

  lemma OtherKeeps(s: Stores, th: Thread, t: Tick, sought: set<AccessPoint>)
    requires Inv(World(s, th), sought) && !th.Accessing? && !th.Installing?
    ensures Inv(StepCtl(s, th, t), Sought(World(s, th), Ctl(t), sought))
  {
    hide PatchLands, MergedInto, LastOf, Cleanup, ReleaseReply;
  }

  lemma {:induction false} RunKeeps(w: World, es: seq<Event>, sought: set<AccessPoint>)
    requires Inv(w, sought)
    ensures Inv(Run(w, es), SoughtIn(w, es, sought))
    decreases |es|
  {
    if es != [] {
      match es[0] {
        case Env(e) => EventKeeps(w, e, sought);
        case Ctl(t) =>
          match w.th
          case Accessing(c, deleting, at) => AccessKeeps(w.s, c, deleting, at, t, sought);
          case Installing(c, ns, d) => InstallKeeps(w.s, c, ns, d, t, sought);
          case _ => OtherKeeps(w.s, w.th, t, sought);
      }
      hide Inv, StepAccessing, StepInstalling, StepEnv, Begin, StepNoConfigPatch, StepReread, StepRecreate,
        StepAddFinalizer, StepClosing, StepCheckMcpRequest, StepCheckWorkloadRequest, StepCleaning, StepCleanedPatch,
        StepReleasing, StepDropFinalizer;
      RunKeeps(Step(w, es[0]), es[1..], Sought(w, es[0], sought));
    }
  }

  /** Over every run, whoever meddles with the access requests: while a reconcile installs or cleans up, it has
      itself had its access renewed, been given the control plane's cluster and request, and, where a workload
      cluster is used, that cluster and its request. */
  lemma AccessFirst(w: World, es: seq<Event>)
    requires Initial(w)
    ensures var b := Run(w, es);
      b.th.Installing? || b.th.Cleaning? ==>
        && {Renew, McpCluster, McpRequest} <= SoughtIn(w, es, {})
        && (b.s.requests.withWorkload ==> {WorkloadCluster, WorkloadRequest} <= SoughtIn(w, es, {}))
  {
    RunKeeps(w, es, {});
    hide Run, SoughtIn;
  }
}
