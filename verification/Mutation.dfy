/** The mutate closures of the two create-or-updates, assigning the fields of the live objects in place. */
module Mutation {
  import opened Kube
  import opened Api
  import opened Desired

  class LiveDeployment {
    var labels: Labels
    var selector: Option<Labels>
    var replicas: int
    var templateLabels: Labels
    var annotations: Option<Labels>
    var pullSecrets: seq<string>
    var volumes: seq<string>
    var containers: seq<Container>
    var rest: string

    /** As decoded from the server; an annotation map without entries may come as none at all. */
    constructor (d: Deployment)
      ensures Value() == d
    {
      labels, selector, replicas, templateLabels := d.labels, d.selector, d.replicas, d.templateLabels;
      annotations := if d.annotations == map[] then None else Some(d.annotations);
      pullSecrets, volumes, containers, rest := d.pullSecrets, d.volumes, d.containers, d.rest;
    }

    function Value(): Deployment
      reads this
    {
      Deployment(labels, selector, replicas, templateLabels, OrElse(annotations, map[]), pullSecrets, volumes,
          containers, rest)
    }

    method Mutate(o: DeploymentOpts)
      modifies this
      ensures Value() == MutateDeployment(old(Value()), o)
    {
      labels := OWN_LABELS;
      if selector.None? {
        selector := Some(SELECTOR);
      }
      replicas := 1;
      templateLabels := OWN_LABELS;
      if annotations.None? {
        annotations := Some(map[]);
      }
      annotations := Some(annotations.value[HASH_ANNOTATION := o.configHash]);
      pullSecrets := o.pullSecrets;
      volumes := [CONFIG_MAP + "/" + CONFIG_MAP_KEY];
      var container := Container(CONTAINER, o.image + ":" + o.version, NO_RESOURCES);
      if o.resources.Some? {
        container := container.(resources := o.resources.value);
      }
      containers := [container];
    }
  }

  class LiveService {
    var labels: Labels
    var kind: string
    var selector: Labels
    var ports: seq<int>
    var rest: string

    constructor (s: Service)
      ensures Value() == s
    {
      labels, kind, selector, ports, rest := s.labels, s.kind, s.selector, s.ports, s.rest;
    }

    function Value(): Service
      reads this
    {
      Service(labels, kind, selector, ports, rest)
    }

    method Mutate()
      modifies this
      ensures Value() == MutateService(old(Value()))
    {
      labels := OWN_LABELS;
      kind, selector, ports := "ClusterIP", SELECTOR, [4317, 4318, 8888];
    }
  }

  /** The mutated copy that is then created, compared or sent. */
  method MutatedDeployment(was: Deployment, o: DeploymentOpts) returns (d: Deployment)
    ensures d == MutateDeployment(was, o) && Meets(d, o)
  {
    var live := new LiveDeployment(was);
    live.Mutate(o);
    d := live.Value();
  }

  method MutatedService(was: Service) returns (s: Service)
    ensures s == MutateService(was) && ServiceMeets(s)
  {
    var live := new LiveService(was);
    live.Mutate();
    s := live.Value();
  }
}
