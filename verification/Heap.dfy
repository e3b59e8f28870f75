/** OtelCollectorService and ProviderConfig as they lie in memory: pointers, slices and maps, and the deep copies that
    separate one owner's from another's. */
module Heap {
  import opened Kube
  import opened Api

  /** A pointer to a string. */
  class Text {
    var text: string
    constructor (text: string)
      ensures this.text == text
    {
      this.text := text;
    }
  }

  /** A pointer to a duration. */
  class Duration {
    var seconds: int
    constructor (seconds: int)
      ensures this.seconds == seconds
    {
      this.seconds := seconds;
    }
  }

  /** A resource map; assigning one shares it. */
  class ResourceList {
    var entries: map<string, string>
    constructor (entries: map<string, string>)
      ensures this.entries == entries
    {
      this.entries := entries;
    }
  }

  class ResourceRequirements {
    var requests: ResourceList?
    var limits: ResourceList?

    constructor (requests: ResourceList?, limits: ResourceList?)
      ensures this.requests == requests && this.limits == limits
    {
      this.requests, this.limits := requests, limits;
    }

    ghost function Repr(): set<object>
      reads this
    {
      {this} + Owned(requests) + Owned(limits)
    }

    ghost function Value(): Resources
      reads this, requests, limits
    {
      Resources(Entries(requests), Entries(limits))
    }
  }

  ghost function Owned(o: object?): set<object> {
    if o == null then {} else {o}
  }

  function TextOf(p: Text?): Option<string>
    reads p
  {
    if p == null then None else Some(p.text)
  }

  function SecondsOf(p: Duration?): Option<int>
    reads p
  {
    if p == null then None else Some(p.seconds)
  }

  function Entries(p: ResourceList?): map<string, string>
    reads p
  {
    if p == null then map[] else p.entries
  }

  ghost function ResourcesRepr(p: ResourceRequirements?): set<object>
    reads p
  {
    if p == null then {} else p.Repr()
  }

  ghost function ResourcesOf(p: ResourceRequirements?): Option<Resources>
    reads ResourcesRepr(p)
  {
    if p == null then None else Some(p.Value())
  }

  // ---- copies of what pointers point to

  /** No pointer for none, and else one to the same text. */
  twostate predicate TextCopied(p: Text?, new q: Text?)
    reads q
  {
    (q == null <==> p == null) && (p != null ==> q.text == old(p.text))
  }

  twostate predicate DurationCopied(p: Duration?, new q: Duration?)
    reads q
  {
    (q == null <==> p == null) && (p != null ==> q.seconds == old(p.seconds))
  }

  twostate predicate ListCopied(p: ResourceList?, new q: ResourceList?)
    reads q
  {
    (q == null <==> p == null) && (p != null ==> q.entries == old(p.entries))
  }

  twostate predicate ResourcesCopied(p: ResourceRequirements?, new q: ResourceRequirements?)
    reads ResourcesRepr(q)
  {
    && (q == null <==> p == null)
    && (p != null ==> ListCopied(old(p.requests), q.requests) && ListCopied(old(p.limits), q.limits))
  }

  method CopyText(p: Text?) returns (q: Text?)
    ensures q != null ==> fresh(q)
    ensures TextCopied(p, q) && TextOf(q) == old(TextOf(p))
  {
    q := null;
    if p != null {
      q := new Text(p.text);
    }
  }

  method CopyDuration(p: Duration?) returns (q: Duration?)
    ensures q != null ==> fresh(q)
    ensures DurationCopied(p, q) && SecondsOf(q) == old(SecondsOf(p))
  {
    q := null;
    if p != null {
      q := new Duration(p.seconds);
    }
  }

  method CopyList(p: ResourceList?) returns (q: ResourceList?)
    ensures q != null ==> fresh(q)
    ensures ListCopied(p, q) && Entries(q) == old(Entries(p))
  {
    q := null;
    if p != null {
      q := new ResourceList(p.entries);
    }
  }

  method CopyResources(p: ResourceRequirements?) returns (q: ResourceRequirements?)
    ensures fresh(ResourcesRepr(q))
    ensures ResourcesCopied(p, q) && ResourcesOf(q) == old(ResourcesOf(p))
  {
    q := null;
    if p != null {
      q := new ResourceRequirements(p.requests, p.limits);
      var requests := CopyList(p.requests);
      var limits := CopyList(p.limits);
      q.requests, q.limits := requests, limits;
    }
  }

  method CopySlice<T(0)>(a: array<T>, count: nat) returns (b: array<T>)
    requires count <= a.Length
    ensures fresh(b) && b[..] == old(a[..count])
  {
    b := new T[count];
    for i := 0 to count
      invariant b[..i] == a[..i]
    {
      b[i] := a[i];
    }
    assert b[..] == a[..count];
  }

  method CopyTexts(image: Text?, version: Text?, namespace: Text?) returns (i: Text?, v: Text?, n: Text?)
    ensures (i != null ==> fresh(i)) && (v != null ==> fresh(v)) && (n != null ==> fresh(n))
    ensures TextCopied(image, i) && TextCopied(version, v) && TextCopied(namespace, n)
    ensures TextOf(i) == old(TextOf(image)) && TextOf(v) == old(TextOf(version)) && TextOf(n) == old(TextOf(namespace))
  {
    i := CopyText(image);
    v := CopyText(version);
    n := CopyText(namespace);
  }

  // ---- OtelCollectorService

  /** The spec struct: assigning it copies the pointers, not what they point to. */
  datatype SpecFields = SpecFields(
    collectorImage: Text?, collectorVersion: Text?, resources: ResourceRequirements?, namespace: Text?)

  ghost function SpecRepr(f: SpecFields): set<object>
    reads f.resources
  {
    Owned(f.collectorImage) + Owned(f.collectorVersion) + ResourcesRepr(f.resources) + Owned(f.namespace)
  }

  ghost function SpecValue(f: SpecFields): ServiceSpec
    reads SpecRepr(f)
  {
    ServiceSpec(TextOf(f.collectorImage), TextOf(f.collectorVersion), ResourcesOf(f.resources), TextOf(f.namespace))
  }

  twostate predicate SpecCopied(f: SpecFields, new g: SpecFields)
    reads SpecRepr(g)
  {
    && TextCopied(f.collectorImage, g.collectorImage) && TextCopied(f.collectorVersion, g.collectorVersion)
    && ResourcesCopied(f.resources, g.resources) && TextCopied(f.namespace, g.namespace)
  }

  method CopySpec(f: SpecFields) returns (g: SpecFields)
    ensures fresh(SpecRepr(g)) && SpecCopied(f, g) && SpecValue(g) == old(SpecValue(f))
  {
    var image, version, namespace := CopyTexts(f.collectorImage, f.collectorVersion, f.namespace);
    var resources := CopyResources(f.resources);
    g := SpecFields(image, version, resources, namespace);
  }

  /** The status struct. Its conditions are a slice: the first `count` elements of an array that may be longer. */
  datatype StatusFields = StatusFields(conditions: array<Condition>, count: nat, observedGeneration: nat, phase: string)

  ghost predicate Slice(f: StatusFields) {
    f.count <= f.conditions.Length
  }

  ghost function StatusValue(f: StatusFields): Status
    requires Slice(f)
    reads f.conditions
  {
    Status(f.conditions[..f.count], f.observedGeneration, f.phase)
  }

  twostate predicate StatusCopied(f: StatusFields, new g: StatusFields)
    requires Slice(f) && Slice(g)
    reads g.conditions
  {
    g == f.(conditions := g.conditions) && g.conditions[..g.count] == old(f.conditions[..f.count])
  }

  method CopyStatus(f: StatusFields) returns (g: StatusFields)
    requires Slice(f)
    ensures Slice(g) && fresh(g.conditions) && StatusCopied(f, g) && StatusValue(g) == old(StatusValue(f))
    ensures g.conditions.Length == g.count
  {
    var conditions := CopySlice(f.conditions, f.count);
    g := f.(conditions := conditions);
    assert conditions[..] == conditions[..f.count];
  }

  /** The metadata struct; finalizers are a slice too. */
  datatype MetaFields = MetaFields(uid: nat, generation: nat, deleting: bool, finalizers: array<string>)

  method CopyMeta(f: MetaFields) returns (g: MetaFields)
    ensures fresh(g.finalizers) && g.finalizers[..] == old(f.finalizers[..]) && g == f.(finalizers := g.finalizers)
  {
    var finalizers := CopySlice(f.finalizers, f.finalizers.Length);
    assert f.finalizers[..f.finalizers.Length] == f.finalizers[..];
    g := f.(finalizers := finalizers);
  }

  class OtelCollectorService {
    var meta: MetaFields
    var spec: SpecFields
    var status: StatusFields

    /** An empty object: `new(OtelCollectorService)`. */
    constructor ()
      ensures Valid() && fresh(Repr())
    {
      var finalizers := new string[0];
      var conditions := new Condition[0];
      meta := MetaFields(0, 0, false, finalizers);
      spec := SpecFields(null, null, null, null);
      status := StatusFields(conditions, 0, 0, "");
    }

    ghost predicate Valid()
      reads this
    {
      Slice(status)
    }

    ghost function Repr(): set<object>
      reads this, spec.resources
    {
      {this, meta.finalizers, status.conditions} + SpecRepr(spec)
    }

    ghost function Value(): Obj
      reads this, Repr()
      requires Valid()
    {
      Obj(meta.uid, meta.generation, SpecValue(spec), meta.deleting, (set f | f in meta.finalizers[..]),
          StatusValue(status))
    }

    /** Field by field, `out` now has what this object had before: metadata with its finalizers in their order, spec and
        status. */
    twostate predicate Copied(new out: OtelCollectorService)
      requires old(Valid()) && out.Valid()
      reads out, out.Repr()
    {
      && out.meta == old(meta).(finalizers := out.meta.finalizers)
      && out.meta.finalizers[..] == old(meta.finalizers[..])
      && SpecCopied(old(spec), out.spec) && StatusCopied(old(status), out.status)
    }

    /** Each of the three structs, copied into `out`. */
    method FieldsInto(out: OtelCollectorService)
      requires out != this && Valid()
      modifies out
      ensures out.Valid() && fresh(out.meta.finalizers) && fresh(out.status.conditions) && fresh(SpecRepr(out.spec))
      ensures out.meta == meta.(finalizers := out.meta.finalizers)
        && out.meta.finalizers[..] == old(meta.finalizers[..])
      ensures SpecCopied(old(spec), out.spec) && SpecValue(out.spec) == old(SpecValue(spec))
      ensures StatusCopied(old(status), out.status) && StatusValue(out.status) == old(StatusValue(status))
    {
      var spec' := CopySpec(spec);
      var meta' := CopyMeta(meta);
      var status' := CopyStatus(status);
      out.meta, out.spec, out.status := meta', spec', status';
    }

    method DeepCopyInto(out: OtelCollectorService)
      requires out != this && Valid()
      modifies out
      ensures out.Valid() && fresh(out.Repr() - {out}) && out.Value() == old(Value())
      ensures Copied(out)
    {
      ghost var v := Value();
      FieldsInto(out);
      OwnsOnlyNew(out);
      Assembled(out, v);
    }

    /** An equal object that shares no memory with this one. */
    method DeepCopy() returns (out: OtelCollectorService)
      requires Valid()
      ensures out.Valid() && fresh(out.Repr()) && out.Value() == old(Value()) && Copied(out)
    {
      hide SpecRepr, SpecValue, StatusValue, Value, Repr;
      ServiceAllocated(this);
      ghost var v := Value();
      out := new OtelCollectorService();
      label Made:
      assert Value() == v;
      DeepCopyInto(out);
      forall o | o in out.Repr() ensures fresh(o) {
        if o != out {
          assert o in out.Repr() - {out};
          assert fresh@Made(o);
          assert !old(allocated(o));
        }
      }
    }
  }

  /** What an object reaches is there. */
  lemma ServiceAllocated(o: OtelCollectorService)
    ensures forall x | x in o.Repr() :: allocated(x)
  {
  }

  /** An object whose memory has not changed has the same value. */
  twostate lemma ServiceUnmoved(o: OtelCollectorService)
    requires old(o.Valid()) && unchanged(old(o.Repr()))
    ensures o.Valid() && o.Repr() == old(o.Repr()) && o.Value() == old(o.Value())
  {
    assert o in old(o.Repr());
  }

  /** If the parts are new, the whole owns nothing old but itself. */
  twostate lemma OwnsOnlyNew(new o: OtelCollectorService)
    requires fresh(o.meta.finalizers) && fresh(o.status.conditions) && fresh(SpecRepr(o.spec))
    ensures fresh(o.Repr() - {o})
  {
    hide SpecRepr;
  }

  lemma Assembled(o: OtelCollectorService, v: Obj)
    requires o.Valid() && SpecValue(o.spec) == v.spec && StatusValue(o.status) == v.status
    requires o.meta.uid == v.uid && o.meta.generation == v.generation && o.meta.deleting == v.deleting
    requires (set f | f in o.meta.finalizers[..]) == v.finalizers
    ensures o.Value() == v
  {
    hide SpecRepr, SpecValue;
  }

  // ---- ProviderConfig

  datatype ConfigFields = ConfigFields(
    pollInterval: Duration?, defaultImage: Text?, defaultVersion: Text?, imagePullSecrets: array<string>,
    defaultResources: ResourceRequirements?, defaultNamespace: Text?)

  ghost function ConfigRepr(f: ConfigFields): set<object>
    reads f.defaultResources
  {
    {f.imagePullSecrets} + Owned(f.pollInterval) + Owned(f.defaultImage) + Owned(f.defaultVersion)
    + ResourcesRepr(f.defaultResources) + Owned(f.defaultNamespace)
  }

  ghost function ConfigValue(f: ConfigFields): Config
    reads ConfigRepr(f)
  {
    Config(SecondsOf(f.pollInterval), TextOf(f.defaultImage), TextOf(f.defaultVersion), f.imagePullSecrets[..],
           ResourcesOf(f.defaultResources), TextOf(f.defaultNamespace))
  }

  method CopyPolling(poll: Duration?, pulls: array<string>) returns (p: Duration?, s: array<string>)
    ensures (p != null ==> fresh(p)) && fresh(s)
    ensures DurationCopied(poll, p) && SecondsOf(p) == old(SecondsOf(poll)) && s[..] == old(pulls[..])
  {
    p := CopyDuration(poll);
    s := CopySlice(pulls, pulls.Length);
    assert pulls[..pulls.Length] == pulls[..];
  }

  twostate predicate ConfigCopied(f: ConfigFields, new g: ConfigFields)
    reads ConfigRepr(g)
  {
    && DurationCopied(f.pollInterval, g.pollInterval)
    && TextCopied(f.defaultImage, g.defaultImage) && TextCopied(f.defaultVersion, g.defaultVersion)
    && g.imagePullSecrets[..] == old(f.imagePullSecrets[..])
    && ResourcesCopied(f.defaultResources, g.defaultResources) && TextCopied(f.defaultNamespace, g.defaultNamespace)
  }

  method CopyConfig(f: ConfigFields) returns (g: ConfigFields)
    ensures fresh(ConfigRepr(g)) && ConfigCopied(f, g) && ConfigValue(g) == old(ConfigValue(f))
  {
    var resources := CopyResources(f.defaultResources);
    var poll, pulls := CopyPolling(f.pollInterval, f.imagePullSecrets);
    var image, version, namespace := CopyTexts(f.defaultImage, f.defaultVersion, f.defaultNamespace);
    g := ConfigFields(poll, image, version, pulls, resources, namespace);
  }

  class ProviderConfig {
    var spec: ConfigFields

    constructor ()
      ensures fresh(Repr())
    {
      var pulls := new string[0];
      spec := ConfigFields(null, null, null, pulls, null, null);
    }

    ghost function Repr(): set<object>
      reads this, spec.defaultResources
    {
      {this} + ConfigRepr(spec)
    }

    ghost function Value(): Config
      reads Repr()
    {
      ConfigValue(spec)
    }

    method DeepCopyInto(out: ProviderConfig)
      requires out != this
      modifies out
      ensures fresh(out.Repr() - {out}) && out.Value() == old(Value()) && ConfigCopied(old(spec), out.spec)
    {
      var spec' := CopyConfig(spec);
      out.spec := spec';
      assert out !in ConfigRepr(spec');
    }

    method DeepCopy() returns (out: ProviderConfig)
      ensures fresh(out.Repr()) && out.Value() == old(Value()) && ConfigCopied(old(spec), out.spec)
    {
      hide ConfigRepr, ConfigValue, Value, Repr;
      ConfigAllocated(this);
      ghost var v := Value();
      out := new ProviderConfig();
      label Made:
      assert Value() == v;
      DeepCopyInto(out);
      forall o | o in out.Repr() ensures fresh(o) {
        if o != out {
          assert o in out.Repr() - {out};
          assert fresh@Made(o);
          assert !old(allocated(o));
        }
      }
    }
  }

  lemma ConfigAllocated(o: ProviderConfig)
    ensures forall x | x in o.Repr() :: allocated(x)
  {
  }

  twostate lemma ConfigUnmoved(o: ProviderConfig)
    requires unchanged(old(o.Repr()))
    ensures o.Repr() == old(o.Repr()) && o.Value() == old(o.Value())
  {
    assert o in old(o.Repr());
  }
}
