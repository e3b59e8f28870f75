/** The cached ProviderConfig: watched on the platform, sent through a channel, stored by the receiver, and
    loaded by every reconcile. */
module ConfigCache {
  import opened Kube
  import opened Api

  /** The watched object on the platform; `version` is its resourceVersion. */
  datatype Published = Missing | Present(version: nat, config: Config) | Going(version: nat, config: Config)

  /** A config as it travels: empty for one that is gone, going, or could not be read. */
  datatype Message = Empty | Carries(version: nat, config: Config)

  /** What the cache ought to hold: a config in deletion counts as gone. */
  function Current(p: Published): Message {
    if p.Present? then Carries(p.version, p.config) else Empty
  }

  /** The sender's one worker: waiting for its key, or blocked on the channel. `retry` says it will return an error. */
  datatype Sender = Waiting | Sending(message: Message, retry: bool)

  /** dirty: the sender's key is queued. channel: sent and not yet received. waiting: service objects with a reconcile
      queued. due: objects whose reconcile comes back later of its own accord, after a back-off, a delay or the poll
      interval. loaded: the config the last reconcile of each object worked with. */
  datatype State = State(
    platform: Published, version: nat, dirty: bool, sender: Sender, channel: seq<Message>, cache: Message,
    objects: set<Key>, waiting: set<Key>, due: set<Key>, loaded: map<Key, Message>)

  datatype Event =
    | Publish(config: Config)
    | StartDelete
    | Remove
    | Take(getFails: bool)
    | Send
    | Receive(listFails: bool)
    | CreateObject(key: Key)
    | ChangeObject(key: Key)
    | RemoveObject(key: Key)
    | Load(key: Key, again: bool)
    | Due(key: Key)
    | Restart

  /** Whether an event can happen in this state. */
  predicate Enabled(s: State, e: Event) {
    match e
    case Publish(_) => !s.platform.Going?
    case StartDelete => s.platform.Present?
    case Remove => !s.platform.Missing?
    case Take(_) => s.dirty && s.sender.Waiting?
    case Send => s.sender.Sending?
    case Receive(_) => s.channel != []
    case CreateObject(k) => k !in s.objects
    case ChangeObject(k) => k in s.objects
    case RemoveObject(k) => k in s.objects
    case Load(k, _) => k in s.waiting
    case Due(k) => k in s.due
    case Restart => true
  }

  /** Whether a reconcile with this config comes back by itself: without one it fails and is retried, and otherwise the
      poll interval decides, unless it fails or is asked for a delay, which `again` in Load says. */
  predicate Returns(m: Message) {
    m.Empty? || PollInterval(m.config) > 0
  }

  /** What a reconcile of the config sends: the object, if it could be read and is not being deleted. */
  function Notice(p: Published, getFails: bool): Message {
    if getFails then Empty else Current(p)
  }

  function Step(s: State, e: Event): State
    requires Enabled(s, e)
  {
    match e
    case Publish(config) => s.(platform := Present(s.version + 1, config), version := s.version + 1, dirty := true)
    case StartDelete => s.(platform := Going(s.version + 1, s.platform.config), version := s.version + 1, dirty := true)
    case Remove => s.(platform := Missing, version := s.version + 1, dirty := true)
    case Take(fails) => s.(dirty := false, sender := Sending(Notice(s.platform, fails), fails))
    case Send => s.(sender := Waiting, channel := s.channel + [s.sender.message], dirty := s.dirty || s.sender.retry)
    case Receive(fails) =>
      s.(channel := s.channel[1..], cache := s.channel[0],
         waiting := if fails then s.waiting else s.waiting + s.objects)
    case CreateObject(k) => s.(objects := s.objects + {k}, waiting := s.waiting + {k})
    case ChangeObject(k) =>
      // the watch on the objects reports every edit, the controller's own status patch included
      s.(waiting := s.waiting + {k})
    case RemoveObject(k) => s.(objects := s.objects - {k})
    case Load(k, again) =>
      // an object that is gone is not reconciled
      if k !in s.objects then s.(waiting := s.waiting - {k})
      else s.(waiting := s.waiting - {k}, loaded := s.loaded[k := s.cache],
              due := if again || Returns(s.cache) then s.due + {k} else s.due)
    case Due(k) => s.(due := s.due - {k}, waiting := s.waiting + {k})
    case Restart =>
      // the watch reports every object that exists, and nothing that does not
      s.(dirty := !s.platform.Missing?, sender := Waiting, channel := [], cache := Empty, waiting := s.objects,
         due := {})
  }

  predicate RunOk(s: State, es: seq<Event>)
    decreases |es|
  {
    es != [] ==> Enabled(s, es[0]) && RunOk(Step(s, es[0]), es[1..])
  }

  function Run(s: State, es: seq<Event>): State
    requires RunOk(s, es)
    decreases |es|
  {
    if es == [] then s else Run(Step(s, es[0]), es[1..])
  }

  predicate Initial(s: State) {
    && s.dirty == !s.platform.Missing? && s.sender.Waiting? && s.channel == [] && s.cache == Empty
    && s.waiting == s.objects && s.due == {}
    && (!s.platform.Missing? ==> s.platform.version == s.version)
  }

  // ---- agreement

  /** Work is pending: the key is queued, or will be once the sender returns its error, or something is on its way. */
  predicate Pending(s: State) {
    s.dirty || s.sender.Sending? || s.channel != []
  }

  /** The newest thing on its way, or the cache if nothing is. */
  function Newest(s: State): Message {
    if s.sender.Sending? then s.sender.message
    else if s.channel != [] then s.channel[|s.channel| - 1]
    else s.cache
  }

  predicate RetryDue(s: State) {
    s.dirty || (s.sender.Sending? && s.sender.retry)
  }

  /** Unless the platform is going to be asked again, the newest message is the truth. */
  predicate Faithful(s: State) {
    RetryDue(s) || Newest(s) == Current(s.platform)
  }

  lemma StepFaithful(s: State, e: Event)
    requires Faithful(s) && Enabled(s, e)
    ensures Faithful(Step(s, e))
  {
  }

  lemma {:induction false} RunFaithful(s: State, es: seq<Event>)
    requires Faithful(s) && RunOk(s, es)
    ensures Faithful(Run(s, es))
    decreases |es|
  {
    if es != [] {
      StepFaithful(s, es[0]);
      RunFaithful(Step(s, es[0]), es[1..]);
    }
    hide Faithful, Step;
  }

  /** Over all interleavings of edits, failed reads, sends, deliveries and restarts: work is still pending, or the cache
      is what the platform publishes, a config that is gone or going counting as none. */
  lemma CacheAgrees(s: State, es: seq<Event>)
    requires Initial(s) && RunOk(s, es)
    ensures var r := Run(s, es);
      Pending(r) ||
      match r.platform
      case Missing => r.cache == Empty
      case Present(version, config) => r.cache == Carries(version, config)
      case Going(_, _) => r.cache == Empty
  {
    RunFaithful(s, es);
  }

  // ---- the pending work ends

  /** A step of the machinery itself, with a read that succeeds. */
  predicate Works(e: Event) {
    e == Take(false) || e.Send? || e.Receive?
  }

  function Work(s: State): nat {
    (if s.dirty then 3 else 0) + (if s.sender.Sending? then (if s.sender.retry then 5 else 2) else 0) + |s.channel|
  }

  lemma WorkDescends(s: State, e: Event)
    requires Enabled(s, e) && Works(e)
    ensures Work(Step(s, e)) < Work(s)
  {
  }

  /** As long as work is pending the machinery can move. */
  lemma WorkMoves(s: State) returns (e: Event)
    requires Pending(s)
    ensures Works(e) && Enabled(s, e)
  {
    e := if s.sender.Sending? then Send else if s.channel != [] then Receive(false) else Take(false);
  }

  predicate AllWork(es: seq<Event>) {
    forall e | e in es :: Works(e)
  }

  lemma {:induction false} WorkBounded(s: State, es: seq<Event>)
    requires RunOk(s, es) && AllWork(es)
    ensures |es| + Work(Run(s, es)) <= Work(s)
    decreases |es|
  {
    if es != [] {
      WorkDescends(s, es[0]);
      WorkBounded(Step(s, es[0]), es[1..]);
    }
    hide Work, Step;
  }

  /** Once the platform rests and can be read, at most Work(s) further steps are possible, in whatever order, and when
      none is possible the cache agrees with the platform. */
  lemma Settles(s: State, before: seq<Event>, es: seq<Event>)
    requires Initial(s) && RunOk(s, before) && RunOk(Run(s, before), es) && AllWork(es)
    ensures |es| <= Work(Run(s, before))
    ensures var r := Run(Run(s, before), es);
      (forall e | Works(e) :: !Enabled(r, e)) ==>
        r.cache == (if r.platform.Present? then Carries(r.platform.version, r.platform.config) else Empty)
  {
    var m := Run(s, before);
    WorkBounded(m, es);
    RunFaithful(s, before);
    RunFaithful(m, es);
    var r := Run(m, es);
    if forall e | Works(e) :: !Enabled(r, e) {
      if Pending(r) {
        var e := WorkMoves(r);
        assert false;
      }
    }
    hide Run, Enabled, Step;
  }

  // ---- order

  /** Everything on its way, oldest first. */
  function Stream(s: State): seq<Message> {
    [s.cache] + s.channel + (if s.sender.Sending? then [s.sender.message] else [])
  }

  /** No config follows a newer one, and none is newer than the platform. */
  predicate InOrder(s: State) {
    && (!s.platform.Missing? ==> s.platform.version == s.version)
    && (forall i | 0 <= i < |Stream(s)| :: Stream(s)[i].Carries? ==> Stream(s)[i].version <= s.version)
    && (forall i, j | 0 <= i < j < |Stream(s)| ::
          Stream(s)[i].Carries? && Stream(s)[j].Carries? ==> Stream(s)[i].version <= Stream(s)[j].version)
  }

  lemma StepInOrder(s: State, e: Event)
    requires InOrder(s) && Enabled(s, e)
    ensures InOrder(Step(s, e))
  {
    var s' := Step(s, e);
    match e
    case Send => assert Stream(s') == Stream(s);
    case Receive(_) => assert forall i | 0 <= i < |Stream(s')| :: Stream(s')[i] == Stream(s)[i + 1];
    case Take(_) => assert Stream(s') == Stream(s) + [s'.sender.message];
    case Restart => assert Stream(s') == [Empty];
    case _ => assert Stream(s') == Stream(s);
  }

  lemma {:induction false} RunInOrder(s: State, es: seq<Event>)
    requires InOrder(s) && RunOk(s, es)
    ensures InOrder(Run(s, es))
    decreases |es|
  {
    if es != [] {
      StepInOrder(s, es[0]);
      RunInOrder(Step(s, es[0]), es[1..]);
    }
    hide InOrder, Step;
  }

  /** No reconcile ever gets an older config than the one it replaces: a delivery, like any other step, can empty the
      cache but never turn it back. */
  lemma CacheNeverTurnsBack(s: State, es: seq<Event>, e: Event)
    requires Initial(s) && RunOk(s, es) && Enabled(Run(s, es), e)
    ensures var was, now := Run(s, es).cache, Step(Run(s, es), e).cache;
      was.Carries? && now.Carries? ==> was.version <= now.version
  {
    assert Stream(s) == [Empty];
    RunInOrder(s, es);
    var r := Run(s, es);
    if e.Receive? {
      assert Stream(r)[0] == r.cache && Stream(r)[1] == r.channel[0];
    }
    hide Run;
  }

  // ---- fan-out

  /** Every object has a reconcile queued or was last reconciled with what is cached now. */
  predicate Prompt(s: State) {
    forall k | k in s.objects :: k in s.waiting || (k in s.loaded && s.loaded[k] == s.cache)
  }

  /** Or, at the least, has one coming back later. */
  predicate Followed(s: State) {
    forall k | k in s.objects :: k in s.waiting || k in s.due || (k in s.loaded && s.loaded[k] == s.cache)
  }

  /** If this delivers a config and cannot list the objects, every object is queued or has that very config already. */
  predicate MissesNone(s: State, e: Event)
    requires Enabled(s, e)
  {
    e.Receive? && e.listFails ==>
      forall k | k in s.objects :: k in s.waiting || (k in s.loaded && s.loaded[k] == s.channel[0])
  }

  /** If it does, every object is queued, or has that very config already, or is coming back. */
  predicate ForgetsNone(s: State, e: Event)
    requires Enabled(s, e)
  {
    e.Receive? && e.listFails ==>
      forall k | k in s.objects :: k in s.waiting || k in s.due || (k in s.loaded && s.loaded[k] == s.channel[0])
  }

  lemma StepPrompt(s: State, e: Event)
    requires Prompt(s) && Enabled(s, e)
    ensures Prompt(Step(s, e)) <==> MissesNone(s, e)
  {
    hide PollInterval, Returns;
  }

  lemma StepFollowed(s: State, e: Event)
    requires Followed(s) && Enabled(s, e)
    ensures Followed(Step(s, e)) <==> ForgetsNone(s, e)
  {
    hide PollInterval, Returns;
  }

  ghost predicate AlwaysPrompt(s: State, es: seq<Event>)
    requires RunOk(s, es)
    decreases |es|
  {
    Prompt(s) && (es != [] ==> AlwaysPrompt(Step(s, es[0]), es[1..]))
  }

  ghost predicate AlwaysFollowed(s: State, es: seq<Event>)
    requires RunOk(s, es)
    decreases |es|
  {
    Followed(s) && (es != [] ==> AlwaysFollowed(Step(s, es[0]), es[1..]))
  }

  ghost predicate NeverMisses(s: State, es: seq<Event>)
    requires RunOk(s, es)
    decreases |es|
  {
    es != [] ==> MissesNone(s, es[0]) && NeverMisses(Step(s, es[0]), es[1..])
  }

  ghost predicate NeverForgets(s: State, es: seq<Event>)
    requires RunOk(s, es)
    decreases |es|
  {
    es != [] ==> ForgetsNone(s, es[0]) && NeverForgets(Step(s, es[0]), es[1..])
  }

  lemma {:induction false} RunPrompt(s: State, es: seq<Event>)
    requires Prompt(s) && RunOk(s, es)
    ensures AlwaysPrompt(s, es) <==> NeverMisses(s, es)
    ensures AlwaysPrompt(s, es) ==> Prompt(Run(s, es))
    decreases |es|
  {
    hide Prompt, MissesNone, Step;
    if es != [] {
      StepPrompt(s, es[0]);
      if Prompt(Step(s, es[0])) {
        RunPrompt(Step(s, es[0]), es[1..]);
      }
    }
  }

  lemma {:induction false} RunFollowed(s: State, es: seq<Event>)
    requires Followed(s) && RunOk(s, es)
    ensures AlwaysFollowed(s, es) <==> NeverForgets(s, es)
    ensures AlwaysFollowed(s, es) ==> Followed(Run(s, es))
    decreases |es|
  {
    hide Followed, ForgetsNone, Step;
    if es != [] {
      StepFollowed(s, es[0]);
      if Followed(Step(s, es[0])) {
        RunFollowed(Step(s, es[0]), es[1..]);
      }
    }
  }

  /** Over every run: each object is at all times queued or up to date with the cache if and only if no delivery whose
      listing fails misses one. */
  lemma PromptExactly(s: State, es: seq<Event>)
    requires Initial(s) && RunOk(s, es)
    ensures AlwaysPrompt(s, es) <==> NeverMisses(s, es)
  {
    RunPrompt(s, es);
  }

  /** And no object is ever left behind, neither queued nor coming back nor up to date, if and only if no such delivery
      forgets one. */
  lemma FollowedExactly(s: State, es: seq<Event>)
    requires Initial(s) && RunOk(s, es)
    ensures AlwaysFollowed(s, es) <==> NeverForgets(s, es)
  {
    RunFollowed(s, es);
  }

  predicate ListsSucceed(es: seq<Event>) {
    forall e | e in es :: e.Receive? ==> !e.listFails
  }

  lemma {:induction false} SuccessMissesNone(s: State, es: seq<Event>)
    requires RunOk(s, es) && ListsSucceed(es)
    ensures NeverMisses(s, es)
    decreases |es|
  {
    hide Step;
    if es != [] {
      assert es[0] in es;
      SuccessMissesNone(Step(s, es[0]), es[1..]);
    }
  }

  /** As long as listing the objects succeeds: when nothing is pending and no reconcile is queued, every object was last
      reconciled with the config the platform publishes. */
  lemma EveryObjectFollows(s: State, es: seq<Event>, k: Key)
    requires Initial(s) && RunOk(s, es) && ListsSucceed(es)
    requires var r := Run(s, es); !Pending(r) && k in r.objects && k !in r.waiting
    ensures var r := Run(s, es);
      && k in r.loaded
      && r.loaded[k] == (if r.platform.Present? then Carries(r.platform.version, r.platform.config) else Empty)
  {
    SuccessMissesNone(s, es);
    RunPrompt(s, es);
    CacheAgrees(s, es);
  }

  // ---- polling

  predicate Polls(m: Message) {
    m.Carries? ==> PollInterval(m.config) > 0
  }

  predicate OnlyPolling(es: seq<Event>) {
    forall e | e in es && e.Publish? :: e.config.pollInterval.Some? ==> e.config.pollInterval.value > 0
  }

  /** Only polling configs anywhere, and every object is queued or coming back. */
  predicate Alive(s: State) {
    && (!s.platform.Missing? ==> PollInterval(s.platform.config) > 0)
    && (forall m | m in Stream(s) :: Polls(m))
    && (forall k | k in s.objects :: k in s.waiting || k in s.due)
  }

  lemma StepAlive(s: State, e: Event)
    requires Alive(s) && Enabled(s, e) && (e.Publish? ==> PollInterval(e.config) > 0)
    ensures Alive(Step(s, e))
  {
    var s' := Step(s, e);
    assert s.cache == Stream(s)[0] && s.cache in Stream(s);
    forall m | m in Stream(s') ensures Polls(m) {
      if e.Receive? && m == s.channel[0] {
        assert Stream(s)[1] == m;
      }
    }
    hide PollInterval;
  }

  lemma {:induction false} RunAlive(s: State, es: seq<Event>)
    requires Alive(s) && RunOk(s, es) && OnlyPolling(es)
    ensures Alive(Run(s, es))
    decreases |es|
  {
    hide Alive, Step;
    if es != [] {
      assert es[0] in es;
      StepAlive(s, es[0]);
      RunAlive(Step(s, es[0]), es[1..]);
    }
  }

  /** With configs that poll, every object is at all times queued or coming back, however many listings fail. */
  lemma PollingForgetsNone(s: State, es: seq<Event>)
    requires Initial(s) && RunOk(s, es) && OnlyPolling(es)
    requires !s.platform.Missing? && s.platform.config.pollInterval.Some? ==>
      s.platform.config.pollInterval.value > 0
    ensures var r := Run(s, es); forall k | k in r.objects :: k in r.waiting || k in r.due
  {
    assert Stream(s) == [Empty];
    RunAlive(s, es);
  }

  /** Without polling a failed listing does forget: the object was reconciled with a config that does not poll, and once
      more because its status was written; the next config is delivered without a listing, and nothing is queued or
      coming back. */
  lemma ListFailureForgets(k: Key, was: Config, next: Config) returns (s: State, es: seq<Event>)
    requires was.pollInterval.Some? && was.pollInterval.value <= 0
    ensures Initial(s) && RunOk(s, es) && !AlwaysFollowed(s, es)
    ensures var r := Run(s, es);
      && !Pending(r) && k in r.objects && k !in r.waiting && k !in r.due
      && k in r.loaded && r.loaded[k] != Current(r.platform)
  {
    s := State(Missing, 0, false, Waiting, [], Empty, {k}, {k}, {}, map[]);
    var t := s.(platform := Present(1, was), version := 1, cache := Carries(1, was), waiting := {k} + {k});
    var u := Step(t, Load(k, false));
    var v := Step(u, ChangeObject(k));
    var tail := Delivery(Step(v, Load(k, false)), next, true);
    Prepend(v, Load(k, false), tail);
    tail := [Load(k, false)] + tail;
    Prepend(u, ChangeObject(k), tail);
    tail := [ChangeObject(k)] + tail;
    Prepend(t, Load(k, false), tail);
    tail := [Load(k, false)] + tail;
    var head := Delivery(s, was, false);
    Append(s, head, tail);
    es := head + tail;
    RunFollowed(s, es);
  }

  /** A publication, read, sent and delivered with nothing else on its way. */
  lemma Delivery(s: State, config: Config, listFails: bool) returns (es: seq<Event>)
    requires !s.platform.Going? && !s.dirty && s.sender.Waiting? && s.channel == []
    ensures RunOk(s, es)
    ensures Run(s, es) == s.(platform := Present(s.version + 1, config), version := s.version + 1,
                             cache := Carries(s.version + 1, config),
                             waiting := if listFails then s.waiting else s.waiting + s.objects)
  {
    var s1 := Step(s, Publish(config));
    var s2 := Step(s1, Take(false));
    var s3 := Step(s2, Send);
    es := [Receive(listFails)] + [];
    Prepend(s3, Receive(listFails), []);
    Prepend(s2, Send, es);
    es := [Send] + es;
    Prepend(s1, Take(false), es);
    es := [Take(false)] + es;
    Prepend(s, Publish(config), es);
    es := [Publish(config)] + es;
  }

  lemma Prepend(s: State, e: Event, es: seq<Event>)
    requires Enabled(s, e) && RunOk(Step(s, e), es)
    ensures RunOk(s, [e] + es) && Run(s, [e] + es) == Run(Step(s, e), es)
  {
    assert ([e] + es)[1..] == es;
  }

  lemma {:induction false} Append(s: State, es: seq<Event>, fs: seq<Event>)
    requires RunOk(s, es) && RunOk(Run(s, es), fs)
    ensures RunOk(s, es + fs) && Run(s, es + fs) == Run(Run(s, es), fs)
    decreases |es|
  {
    if es == [] {
      assert es + fs == fs;
    } else {
      assert (es + fs)[1..] == es[1..] + fs;
      Append(Step(s, es[0]), es[1..], fs);
    }
  }
}
