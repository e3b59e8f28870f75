/** The image pull secret loop: what the target namespace holds after it, and after it failed half way. */
module PullLoop {
  import opened Kube
  import opened Desired
  import opened Machine

  /** The secrets of a control plane after the first `n` names of the list were copied into `ns`, in list order. */
  function PulledTo(m: map<Key, Secret>, platform: map<string, Secret>, ns: string, names: seq<string>,
      n: nat): map<Key, Secret>
    requires n <= |names|
  {
    if n == 0 then m
    else
      var before := PulledTo(m, platform, ns, names, n - 1);
      var k := Key(ns, names[n - 1]);
      if k.name in platform then before[k := SyncSecret(Lookup(before, k), platform[k.name])] else before
  }

  /** A pull secret as the loop leaves it: the platform's data always; type and label as they were, or, if the secret is
      new, those of a registry credential managed by this provider. */
  predicate Copied(was: Option<Secret>, now: Option<Secret>, src: Secret) {
    && now.Some? && now.value.data == src.data
    && (was.Some? ==> now.value.kind == was.value.kind && now.value.labels == was.value.labels)
    && (was.None? ==> now.value.kind == DOCKER_CONFIG && now.value.labels == map[MANAGED_BY := PROVIDER])
  }

  lemma SyncCopies(was: Option<Secret>, src: Secret)
    ensures Copied(was, Some(SyncSecret(was, src)), src)
  {
  }

  /** Copying onto a copy changes nothing: type and labels stay as created, and the data is already the platform's. */
  lemma SyncTwice(was: Option<Secret>, src: Secret)
    ensures SyncSecret(Some(SyncSecret(was, src)), src) == SyncSecret(was, src)
  {
  }

  /** Name by name, however often one is listed: a listed name holds the platform's data, with its own type and labels
      if it existed before and the generated ones if not; every other secret is as it was. */
  lemma {:induction false} PulledAt(m: map<Key, Secret>, platform: map<string, Secret>, ns: string,
      names: seq<string>, n: nat, k: Key)
    requires n <= |names|
    requires forall j | 0 <= j < n :: names[j] in platform
    ensures var m' := PulledTo(m, platform, ns, names, n);
      if k.ns == ns && k.name in names[..n]
      then k.name in platform && Lookup(m', k) == Some(SyncSecret(Lookup(m, k), platform[k.name]))
      else Lookup(m', k) == Lookup(m, k)
  {
    if n > 0 {
      PulledAt(m, platform, ns, names, n - 1, k);
      assert names[..n] == names[..n - 1] + [names[n - 1]];
      if k == Key(ns, names[n - 1]) {
        SyncTwice(Lookup(m, k), platform[k.name]);
      }
      hide SyncSecret;
    }
  }

  // ---- the loop inside a run

  predicate Pulling(th: Thread) {
    th.Installing? && (th.d.PullSource? || th.d.PullGet? || th.d.PullCreate? || th.d.PullUpdate?)
  }

  /** Nobody else changes secrets meanwhile, on either side, and the process lives. */
  predicate SparesSecrets(e: Event) {
    e.Env? ==> !e.e.UserSecret? && !e.e.PlatformSecret? && !e.e.Crash?
  }

  predicate AllSpareSecrets(es: seq<Event>) {
    forall e | e in es :: SparesSecrets(e)
  }

  /** Where the loop stands: the names before the one in hand are copied, and nothing else is. */
  predicate LoopInv(w: World, m: map<Key, Secret>, platform: map<string, Secret>, c: Ctx, ns: string) {
    && w.s.platform == platform && Pulling(w.th) && w.th.c == c && w.th.ns == ns
    && var names := c.config.pullSecrets; var i := |w.th.d.sources|;
    && i < |names|
    && (forall j | 0 <= j < i :: names[j] in platform)
    && w.s.plane.mcp.secrets == PulledTo(m, platform, ns, names, i)
    && (w.th.d.PullSource? || Lookup(platform, names[i]) == Some(w.th.d.src))
  }

  /** How the loop is left: done, or failed with secret `i` in hand. */
  predicate LoopLeft(w: World, m: map<Key, Secret>, platform: map<string, Secret>, c: Ctx, ns: string, i: nat) {
    var names := c.config.pullSecrets;
    && i < |names|
    && if w.th.Installing? then
         && w.th.d.ConfigMapGet? && i == |names| - 1
         && (forall n | n in names :: n in platform)
         && w.s.plane.mcp.secrets == PulledTo(m, platform, ns, names, |names|)
       else
         && (forall j | 0 <= j < i :: names[j] in platform)
         && (w.s.plane.mcp.secrets == PulledTo(m, platform, ns, names, i)
             || (names[i] in platform && w.s.plane.mcp.secrets == PulledTo(m, platform, ns, names, i + 1)))
  }

  /** Copying the secret in hand makes the loop's state that of the next index. */
  lemma OneMore(w: World, m: map<Key, Secret>, platform: map<string, Secret>, c: Ctx, ns: string)
    requires LoopInv(w, m, platform, c, ns) && !w.th.d.PullSource?
    ensures var i := |w.th.d.sources|; var k := PullKey(c, ns, w.th.d.sources); var secrets := w.s.plane.mcp.secrets;
      && secrets[k := SyncSecret(Lookup(secrets, k), w.th.d.src)]
          == PulledTo(m, platform, ns, c.config.pullSecrets, i + 1)
      && c.config.pullSecrets[i] in platform
  {
    hide SyncSecret;
  }

  lemma WriteLoops(w: World, m: map<Key, Secret>, platform: map<string, Secret>, c: Ctx, ns: string, t: Tick)
    requires LoopInv(w, m, platform, c, ns) && (w.th.d.PullCreate? || w.th.d.PullUpdate?)
    ensures var w' := StepInstalling(w.s, c, ns, w.th.d, t);
      LoopInv(w', m, platform, c, ns) || LoopLeft(w', m, platform, c, ns, |w.th.d.sources|)
  {
    OneMore(w, m, platform, c, ns);
    var names, i := c.config.pullSecrets, |w.th.d.sources|;
    assert i + 1 == |names| ==> forall n | n in names :: n in platform;
    hide SyncSecret, PulledTo, LastOf;
  }

  lemma ReadLoops(w: World, m: map<Key, Secret>, platform: map<string, Secret>, c: Ctx, ns: string, t: Tick)
    requires LoopInv(w, m, platform, c, ns) && (w.th.d.PullSource? || w.th.d.PullGet?)
    ensures var w' := StepInstalling(w.s, c, ns, w.th.d, t);
      LoopInv(w', m, platform, c, ns) || LoopLeft(w', m, platform, c, ns, |w.th.d.sources|)
  {
    hide PulledTo, LastOf;
  }

  lemma StepLoops(w: World, m: map<Key, Secret>, platform: map<string, Secret>, c: Ctx, ns: string, e: Event)
    requires LoopInv(w, m, platform, c, ns) && SparesSecrets(e)
    ensures LoopInv(Step(w, e), m, platform, c, ns) || LoopLeft(Step(w, e), m, platform, c, ns, |w.th.d.sources|)
  {
    match e {
      case Env(ev) => assert LoopInv(Step(w, e), m, platform, c, ns);
      case Ctl(t) =>
        if w.th.d.PullCreate? || w.th.d.PullUpdate? {
          WriteLoops(w, m, platform, c, ns, t);
        } else {
          ReadLoops(w, m, platform, c, ns, t);
        }
    }
    hide StepInstalling, PulledTo, LoopLeft;
  }

  /** The loop is still on after each of these events. */
  ghost predicate StaysIn(w: World, es: seq<Event>)
    decreases |es|
  {
    Pulling(w.th) && (es != [] ==> StaysIn(Step(w, es[0]), es[1..]))
  }

  lemma {:induction false} RunLoops(w: World, es: seq<Event>, m: map<Key, Secret>, platform: map<string, Secret>,
      c: Ctx, ns: string)
    requires LoopInv(w, m, platform, c, ns) && AllSpareSecrets(es) && StaysIn(w, es)
    ensures LoopInv(Run(w, es), m, platform, c, ns)
    decreases |es|
  {
    hide LoopInv, LoopLeft, Step;
    if es != [] {
      assert SparesSecrets(es[0]);
      StepLoops(w, m, platform, c, ns, es[0]);
      assert Pulling(Step(w, es[0]).th);
      NotLeft(Step(w, es[0]), m, platform, c, ns, if Pulling(w.th) then |w.th.d.sources| else 0);
      RunLoops(Step(w, es[0]), es[1..], m, platform, c, ns);
    }
  }

  lemma NotLeft(w: World, m: map<Key, Secret>, platform: map<string, Secret>, c: Ctx, ns: string, i: nat)
    requires Pulling(w.th)
    ensures !LoopLeft(w, m, platform, c, ns, i)
  {
  }

  /** A whole loop, from its first call to the one that ends it. If it succeeds, the secrets are those of PulledTo for
      the whole list. If it fails with the i-th secret in hand, they are those of PulledTo for i names, or, if the call
      that failed was a write whose answer got lost, for i + 1. */
  lemma LoopOutcome(w: World, es: seq<Event>, last: Event)
    requires w.th.Installing? && w.th.d == PullSource([]) && |w.th.c.config.pullSecrets| > 0
    requires AllSpareSecrets(es) && SparesSecrets(last) && StaysIn(w, es) && !Pulling(Step(Run(w, es), last).th)
    ensures Pulling(Run(w, es).th)
    ensures LoopLeft(Step(Run(w, es), last), w.s.plane.mcp.secrets, w.s.platform, w.th.c, w.th.ns,
        |Run(w, es).th.d.sources|)
  {
    var m, platform, c, ns := w.s.plane.mcp.secrets, w.s.platform, w.th.c, w.th.ns;
    assert LoopInv(w, m, platform, c, ns);
    RunLoops(w, es, m, platform, c, ns);
    StepLoops(Run(w, es), m, platform, c, ns, last);
    hide LoopLeft, Step, Run;
  }

  lemma PulledFor(m: map<Key, Secret>, platform: map<string, Secret>, ns: string, names: seq<string>, i: nat, n: nat,
      k: Key)
    requires i <= n <= |names| && forall j | 0 <= j < n :: names[j] in platform
    ensures var now := Lookup(PulledTo(m, platform, ns, names, n), k);
      && (k.ns == ns && k.name in names[..i] ==> k.name in platform && Copied(Lookup(m, k), now, platform[k.name]))
      && (k.ns != ns || k.name !in names ==> now == Lookup(m, k))
  {
    PulledAt(m, platform, ns, names, n, k);
    if k.name in platform {
      SyncCopies(Lookup(m, k), platform[k.name]);
    }
    hide PulledTo, SyncSecret, Copied;
  }

  /** What one secret is like after the loop: on success as listed or not listed; on failure with the i-th secret in
      hand every name listed before it is copied, and no unlisted secret has changed. */
  lemma PullOutcome(w: World, es: seq<Event>, last: Event, k: Key)
    requires w.th.Installing? && w.th.d == PullSource([]) && |w.th.c.config.pullSecrets| > 0
    requires AllSpareSecrets(es) && SparesSecrets(last) && StaysIn(w, es) && !Pulling(Step(Run(w, es), last).th)
    ensures var w' := Step(Run(w, es), last);
      var names, platform := w.th.c.config.pullSecrets, w.s.platform;
      var was, now := Lookup(w.s.plane.mcp.secrets, k), Lookup(w'.s.plane.mcp.secrets, k);
      && Pulling(Run(w, es).th) && |Run(w, es).th.d.sources| < |names|
      && var copied := if w'.th.Installing? then names else names[..|Run(w, es).th.d.sources|];
      && (k.ns == w.th.ns && k.name in copied ==> k.name in platform && Copied(was, now, platform[k.name]))
      && (k.ns != w.th.ns || k.name !in names ==> now == was)
  {
    LoopOutcome(w, es, last);
    var m, platform, ns, names := w.s.plane.mcp.secrets, w.s.platform, w.th.ns, w.th.c.config.pullSecrets;
    var i := |Run(w, es).th.d.sources|;
    var w' := Step(Run(w, es), last);
    var all := w'.th.Installing?;
    var n := if all then |names|
      else if w'.s.plane.mcp.secrets == PulledTo(m, platform, ns, names, i) then i else i + 1;
    assert w'.s.plane.mcp.secrets == PulledTo(m, platform, ns, names, n)
      && forall j | 0 <= j < n :: names[j] in platform;
    assert names[..|names|] == names;
    hide PulledTo, Step, Run, Copied, StaysIn, LoopLeft, Lookup;
    PulledFor(m, platform, ns, names, if all then |names| else i, n, k);
  }
}
