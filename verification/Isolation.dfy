/** The cached ProviderConfig is out of reach of the reconciles that work from it. */
module Isolation {
  import opened Api
  import opened Heap

  /** resolveResources, on memory: what it returns is a pointer into the service object or into the config. */
  function Resolve(svc: OtelCollectorService, pc: ProviderConfig): ResourceRequirements?
    reads svc, pc
  {
    if svc.spec.resources != null then svc.spec.resources else pc.spec.defaultResources
  }

  /** By value it is the model's ResolveResources; by reference it is owned by one of the two. */
  lemma ResolveOwned(svc: OtelCollectorService, pc: ProviderConfig)
    requires svc.Valid()
    ensures ResourcesOf(Resolve(svc, pc)) == ResolveResources(svc.Value().spec, pc.Value())
    ensures ResourcesRepr(Resolve(svc, pc)) <= svc.Repr() + pc.Repr()
  {
  }

  /** Anything at all may happen to this memory. */
  method Havoc(ghost reach: set<object>, bystander: ProviderConfig)
    requires reach !! bystander.Repr()
    modifies reach
    ensures bystander.Repr() == old(bystander.Repr()) && bystander.Value() == old(bystander.Value())
  {
    modify reach;
    ConfigUnmoved(bystander);
  }

  /** A reconcile hands its copy of the cached config to the domain. Whatever the domain then does to the copy, to its
      service object, and through the resources pointer it got from them, the cached config stays what it was. */
  method ReconcileOnCopy(cached: ProviderConfig, svc: OtelCollectorService)
    requires svc.Valid() && svc.Repr() !! cached.Repr()
    modifies svc.Repr()
    ensures cached.Repr() == old(cached.Repr()) && cached.Value() == old(cached.Value())
  {
    hide ProviderConfig.Repr, ProviderConfig.Value, OtelCollectorService.Repr, ResourcesRepr;
    ConfigAllocated(cached);
    ServiceAllocated(svc);
    ghost var mine := cached.Repr();
    var copy := cached.DeepCopy();
    ConfigUnmoved(cached);
    ServiceUnmoved(svc);
    assert copy.Repr() !! mine;
    var resources := Resolve(svc, copy);
    ResolveOwned(svc, copy);
    Havoc(svc.Repr() + copy.Repr() + ResourcesRepr(resources), cached);
  }

  /** Without the copy it would not: a write through the pointer the domain resolves reaches the cache. */
  method WriteThrough(cached: ProviderConfig, svc: OtelCollectorService, limits: ResourceList)
    requires svc.Valid() && svc.spec.resources == null && cached.spec.defaultResources != null
    requires limits.entries != Entries(cached.spec.defaultResources.limits)
    modifies cached.Repr()
    ensures cached.Value() != old(cached.Value())
  {
    var resources := Resolve(svc, cached);
    resources.limits := limits;
    assert cached.Value().resources.value.limits == limits.entries;
  }
}
